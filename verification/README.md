# Orcanet node: verified model

A Dafny model of the parts of the Orcanet node where money moves and where
messages can be lost, with proofs about every run. It covers

- the two-phase proxy payment between a client and a provider (`Amounts`, `Tables`,
  `PaymentHandler`, `PaymentLoop`, `PaymentProtocol`, `PaymentBounds`,
  `PaymentCollisions`, `PaymentOverlap`, `PaymentRefusals`, `PaymentLockstep`,
  `PaymentSession`, `PaymentDrift`),
- the network event loop and its seven maps of one-shot reply channels
  (`EventLoop`, `ReplyChannels`), the stream request protocol between nodes
  (`StreamProtocol`) and the waiting between the two loops of a node (`LoopWaits`),
- the CONNECT tunnel (section 9.3.6 of RFC 9110), its header reader and the two-hop
  composition (`Tunnel`, `TwoHop`),
- the agreement of DHT, tables, configuration and proxy lifecycle (`NodeState`), and
  paying for a download (`Download`).

Code that updates tables, maps, streams or fields in place is modelled by classes
and methods with loops; each method is tied to a function of the old state, and
the theorems are about those functions. Protocols are step systems: a run is any
list of steps, a step that is not enabled changes nothing, and everything the
outside decides (database outcomes, uuids, replies, read sizes, swarm events) is
part of the step. Amounts are exact reals. `dafny verify dfyconfig.toml` checks the
project.

## Main results

- Money: in every run, whatever fails or is lost, chain >= Send rows >= session
  total >= provider total, each gap being exactly the payments stuck at that stage
  (`Conservation`). In a session in which nothing fails, under every interleaving with
  other clients and every order of metering, the books agree between rounds if and
  only if no claim was beyond the termination threshold, with something to pay, when
  the provider answered it (`Lockstep`). With the configured limits, metering at the
  provider first rules such claims out (`MeteringInOrderKeepsLockstep`); metering at
  the client first can bring them about in every session (`SessionsCanDrift`).
- Rounding never accumulates while at most one payment reference is outstanding
  (`CreditNeverExceedsUsage`, `CreditedRoundIsExact`), which holds in every run in which
  the client does not give up on a notification still in flight
  (`WaitingClientNeverOverpays`). When it does, the bound can fail; it fails exactly
  through a collision, a recorded request for more money while a creditable
  notification is in flight: without one it holds in every run, and from one it can
  always be broken (`OvercreditIffCollision`). At any rate and for any traffic a
  notification that is merely slow leads there (`OverlappingRoundsOvercredit`).
- The client's unimplemented answers are reachable exactly when an allowance is below
  the termination threshold (`UnimplementedArmsReachableIff`).
- Messages: every reply channel is in exactly one place and is answered at most once
  (`ChannelsAreLinear`, `OneAnswerPerQuery`), pending entries are there when the code
  insists on them (`ExpectedEntriesArePresent`), stream responses reach the caller
  they were made for (`ResponsesAreCorrelated`).
- Waiting: stream requests alone never lock the two loops of a node
  (`StreamRunsNeverDeadlock`). They come to wait on each other, for good, exactly when a
  request arrives while a handler arm waits on the network loop, or when the handler
  takes a local event that calls the network while a request is on offer
  (`MutualWaitIff`). The channel of a failed provide query is never answered
  (`FailedProvideIsNeverAnswered`), so an arm waiting for its query is stranded if and
  only if the query failed (`StrandedIffQueryFailed`).
- Bytes: the tunnel copies exact prefixes and reports exact counts
  (`TunnelStreams`, `TunnelDeliversPrefixes`), except for what the reader of the
  CONNECT reply takes past its header, up to 1023 bytes
  (`BrowserGetsPrefixWithoutOverRead`, `OverReadShiftsTheStream`).
- State: provided file keys belong to active rows (`ProvidedKeysAreActiveRows`); sender,
  configuration and proxy key stay in step unless the key is withdrawn as if it were
  a file (`ProxyStaysInStep`).

## Where the code differs from its comments or names

- The branch for claims beyond the termination threshold says it terminates, but
  answers `Accepted` with a reference that has no row (`OverThresholdReferenceIsUnknown`).
- The two refusals are named after the other quantity: a fee out of tolerance is
  answered with the data-transfer refusal and vice versa (`ToleranceDecision`).
- The provider's metering, the CONNECT metering and the spawn of the payment loop are
  commented out in the code; the model has metering and ticks as steps, that is the
  intended protocol.
- Reading a CONNECT reply from a stream that ends without a blank line never stops
  (`ReadStreamToEnd`); tunnel bytes read together with the reply's header never reach
  the browser (`OverReadShiftsTheStream`).
- The endpoint that stops providing a file takes any id. Stopping
  `http_proxy_providers` takes the running provider's own key off the DHT
  (`StoppedKeyLeavesProxyRunning`); exactly that breaks the agreement
  (`FileStopKeepsStepIff`).
- A provide query that fails is only logged; its caller waits for ever
  (`FailedProvideStrandsHandler`), and the next request blocks the network loop too.
- A stream that cannot be opened or written panics the download instead of leading to
  the next provider (`DownloadFile`).
- A second stop of the proxy whose endpoint check was stale aborts the handler
  (`StopPanicsIff`).

## Model

| member | source | states |
|---|---|---|
| Amounts.RoundIsNearest | bin/orca_node/src/common/utils.rs:143-147 | the rounded value is a whole number of satoshis, no whole amount is nearer, and ties go away from zero |
| Amounts.FeeForFacts | bin/orca_node/src/db/schema.rs:179-187 | a fee is whole and non-negative, zero exactly below half a satoshi due, otherwise within half a satoshi of it, and paying it leaves nothing owed |
| Amounts.FeeOwedFacts | bin/orca_node/src/db/schema.rs:229-237 | the same for usage times rate, exactly, less the two totals |
| Amounts.PercentDiffBand | bin/orca_node/src/common/utils.rs:134-141 | for a positive target the percent test fires exactly outside target*(1 - T/100) .. target*(1 + T/100) |
| Tables.RowFees | bin/orca_node/src/db/schema.rs:179-187 | each of the two rows owes, within half a satoshi and in whole satoshis, its own usage times its own rate less its own totals |
| Tables.ProxyClientsTable.GetClientByAuthToken | bin/orca_node/src/db/db_client.rs:150-160 | the lookup succeeds exactly when some row has the token and returns the row a full scan finds |
| Tables.ProxyClientsTable.AddClient | bin/orca_node/src/db/db_client.rs:172-178 | an insert that would repeat an id or a token fails and changes nothing; validity is kept |
| Tables.ProxyClientsTable.UpdateDataTransferInfo | bin/orca_node/src/db/db_client.rs:186-196 | metering adds to exactly the addressed row, and a missing row is no error |
| Tables.ProxyClientsTable.UpdateTotalFeeReceivedUnconfirmed | bin/orca_node/src/db/db_client.rs:210-220 | crediting adds to exactly the addressed row, and a missing row is no error |
| Tables.ProxySessionsTable.UpdateTotalFeeSentUnconfirmed | bin/orca_node/src/db/db_client.rs:258-268 | counting a payment adds to exactly the addressed session |
| Tables.PaymentsTable.InsertPaymentInfo | bin/orca_node/src/db/db_client.rs:286-292 | a payment row is added unless its id exists |
| Tables.PaymentsTable.UpdatePaymentInfo | bin/orca_node/src/db/db_client.rs:302-308 | an update leaves the key and the fields it does not set alone |
| Tables.ChangesetFields | bin/orca_node/src/db/db_client.rs:302-308 | field by field, what an update overwrites and what it leaves |
| Tables.ClientColumns | bin/orca_node/src/db/db_client.rs:186-220 | each client update changes one column of one row by the amount |
| Tables.SessionColumns | bin/orca_node/src/db/db_client.rs:246-268 | each session update changes one column of one row by the amount |
| Tables.SumByUpdate | bin/orca_node/src/db/db_client.rs:210-220 | writing one row changes a table-wide total by exactly the difference of that row |
| Tables.CreditThroughToken | bin/orca_node/src/request_handler.rs:420-453 | crediting through the id found by token changes that row by that amount, no other lookup, and the table total by the amount |
| Tables.MeterThroughToken | bin/orca_node/src/proxy/proxy_handlers.rs:171-176 | metering through the id found by token, likewise |
| Tables.ReachableClientsAreValid | bin/orca_node/src/assets/db_commands.yaml:43-55 | ids and tokens stay unique in every client table any statements can produce |
| PaymentHandler.PaymentRequestHandler.HandlePaymentRequest | bin/orca_node/src/request_handler.rs:341-466 | the handler's table updates and reply are those of HandlePayment, every failure included; a pre-payment changes no client row |
| PaymentHandler.PrePaymentEffect | bin/orca_node/src/request_handler.rs:352-413 | a pre-payment keeps all rows and adds one exactly when the claim is in tolerance and every statement succeeds; the reply then has that reference and amount, the provider's own whole fee; an accepting reply without a row is over the threshold |
| PaymentHandler.PostPaymentEffect | bin/orca_node/src/request_handler.rs:420-462 | a notification credits one client by its amount exactly when answered without error; an unknown reference changes nothing |
| PaymentHandler.PrePaymentReplies | bin/orca_node/src/request_handler.rs:352-413 | when a pre-payment is answered with an error, otherwise with which usage, fee, reference and address, and all fields of the row that is recorded |
| PaymentHandler.PostPaymentReplies | bin/orca_node/src/request_handler.rs:420-462 | which error or success each failing statement of a notification leads to, and what it leaves in both tables; the row is pending even if the credit then fails |
| PaymentHandler.ServeKeepsRows | bin/orca_node/src/request_handler.rs:341-466 | over any sequence of requests rows persist, keep their expected amount and change status only to pending |
| PaymentHandler.IssuedReferenceKeepsItsRow | bin/orca_node/src/request_handler.rs:379-405 | a reference issued for an in-tolerance claim always has a row expecting the requested amount; once pending it stays pending |
| PaymentHandler.OverThresholdReferenceIsUnknown | bin/orca_node/src/request_handler.rs:365-373 | a claim beyond the termination threshold is accepted without a row, so paying it can only be answered with a mismatch |
| PaymentHandler.ToleranceDecision | bin/orca_node/src/request_handler.rs:355-406 | which of the four answers is given, as bands around the provider's own fee and usage |
| PaymentLoop.ProxyPaymentLoop.ProcessPayment | bin/orca_node/src/proxy/proxy_payment.rs:60-144 | one call performs the transfer, row, total and notification in that order, stopping at the first failure |
| PaymentLoop.RoundOutcome | bin/orca_node/src/proxy/proxy_payment.rs:60-209 | how a call ends and what it notifies the provider of, from its inputs alone |
| PaymentLoop.RoundEffect | bin/orca_node/src/proxy/proxy_payment.rs:86-120 | what a call leaves on the chain, in the payment rows and in the session, from its inputs alone |
| PaymentLoop.ClaimIsOwnRow | bin/orca_node/src/proxy/proxy_payment.rs:146-163 | the claim is the client's own usage and fee under its id and token |
| PaymentLoop.ProxyPaymentLoop.StartLoop | bin/orca_node/src/proxy/proxy_payment.rs:25-58 | the loop has a history of one round per event, failed rounds included, that ends with the events, at the first cancellation or in a todo, and nowhere else |
| PaymentLoop.RoundsHaveHistory | bin/orca_node/src/proxy/proxy_payment.rs:25-58 | so does the function the loop computes, for every list of events |
| PaymentLoop.FailedRoundIsSkipped | bin/orca_node/src/proxy/proxy_payment.rs:51-54 | a failed round that moved nothing leaves all later rounds as if it had not been there |
| PaymentLoop.Wallet.SendToAddress | bin/orca_node/src/proxy/proxy_payment.rs:90-94 | a successful call appends exactly one transfer, a failed one none |
| PaymentProtocol.ProcessPaymentIsARun | bin/orca_node/src/proxy/proxy_payment.rs:60-209 | a whole call of the client's code, with the provider's actual reply or none, is a run of the step system; the notification it sends is the one the run puts in flight, answered or not |
| PaymentProtocol.StepKeepsInv | bin/orca_node/src/proxy/proxy_payment.rs:60-144 | every step of client, provider, network, metering and other clients keeps all five ledgers equal to their sums over the payments made |
| PaymentProtocol.Conservation | bin/orca_node/src/proxy/proxy_payment.rs:60-144 | in every run chain >= Send rows >= session total >= provider total >= 0, with each gap exactly the payments stuck there |
| PaymentProtocol.NoRunReachesUnimplementedArms | bin/orca_node/src/proxy/proxy_payment.rs:187-201 | with allowances at least the termination threshold no run reaches the unimplemented response arms |
| PaymentRefusals.UnimplementedArmsReachableIff | bin/orca_node/src/proxy/proxy_payment.rs:187-201 | in every session at a positive rate some run reaches an unimplemented arm exactly when an allowance is below the termination threshold |
| PaymentRefusals.ConfiguredLimitsAreSafe | bin/orca_node/src/common/config.rs:43-46 | with the node's own constants no run of any session reaches such an arm |
| PaymentBounds.StepKeepsBound | bin/orca_node/src/request_handler.rs:385-405 | credit plus everything outstanding stays within usage plus half a satoshi, step by step |
| PaymentBounds.CreditNeverExceedsUsage | bin/orca_node/src/request_handler.rs:446-453 | over any number of rounds with at most one outstanding reference the provider's credit is at most usage times rate plus half a satoshi |
| PaymentBounds.CreditedRoundIsExact | bin/orca_node/src/request_handler.rs:385-405 | after each credited round the credit is within half a satoshi of the usage charge at pre-payment time |
| PaymentBounds.WaitingClientNeverOverpays | bin/orca_node/src/proxy/proxy_payment.rs:122-139 | as long as the client does not give up on a notification in flight, whatever else fails, the bound holds |
| PaymentCollisions.CollisionFreeRunsNeverOvercredit | bin/orca_node/src/request_handler.rs:352-405 | with new uuids, no run without a collision credits more than usage times rate plus half a satoshi, abandoned and late notifications included |
| PaymentCollisions.CollisionOvercredits | bin/orca_node/src/request_handler.rs:446-453 | from any collision, at any rate and amounts, paying the request and delivering both notifications exceeds the bound |
| PaymentCollisions.OvercreditIffCollision | bin/orca_node/src/request_handler.rs:352-405 | after any run without a collision, the next step makes overcrediting possible if and only if it records a positive fee while a positive notification with a row is in flight |
| PaymentOverlap.OverlappingRoundsOvercredit | bin/orca_node/src/proxy/proxy_payment.rs:122-143 | at any rate and for any traffic worth half a satoshi and then a satoshi: when the client gives up on a slow notification and pays the next round, the provider has credited the first fee twice, beyond the bound |
| PaymentLockstep.ProvideStartsInAgreement | bin/orca_node/src/request_handler.rs:310-327 | after a provide response both sides hold fresh active rows with the same id and token and the other's peer and addresses, and the rows agree exactly when the configured rate did not change meanwhile |
| PaymentLockstep.ProvideSucceedsIff | bin/orca_node/src/request_handler.rs:297-335 | a session is opened exactly by a configured provider that can store the new client, otherwise nothing changes |
| PaymentLockstep.LockstepRound | bin/orca_node/src/proxy/proxy_payment.rs:60-144 | a failure-free round from agreement pays exactly what both say is owed, is recorded alike by both, and leaves both owing nothing; an idle tick changes nothing |
| PaymentLockstep.IdleRound | bin/orca_node/src/proxy/proxy_payment.rs:65-68 | a tick with nothing owed leaves the whole system as it was |
| PaymentSession.RecordedIffInTolerance | bin/orca_node/src/request_handler.rs:352-406 | at any point of a session in which nothing fails a delivered request is recorded exactly when its claim is in tolerance, with a new row expecting the fee asked for; beyond the termination threshold the fee is asked for without a row |
| PaymentSession.Lockstep | bin/orca_node/src/db/schema.rs:167-187 | in a session in which nothing fails, for every interleaving and order of metering, between rounds chain, rows and session total are equal, and equal to the credit if and only if no claim was beyond the termination threshold, with a fee to pay, when answered; then equal usage gives equal fees and nothing is owed without traffic since the last answer |
| PaymentSession.MeteringInOrderKeepsLockstep | bin/orca_node/src/request_handler.rs:355-378 | if the provider meters no later than the client and the limits allow claiming less, there is no such claim, and the client never owes more than the provider computes |
| PaymentDrift.SessionsCanDrift | bin/orca_node/src/request_handler.rs:365-373 | in every session at a positive rate there is a run in which nothing fails or is lost and the client has paid a positive amount of which the provider credits nothing |
| EventLoop.NetworkEventLoop.HandleCommand | bin/orca_node/src/network/event_loop.rs:361-517 | each command moves its channel to the one map, answer or drop that OnCommand says, or aborts the loop where the code insists on success |
| EventLoop.NetworkEventLoop.HandleEvent | bin/orca_node/src/network/event_loop.rs:193-359 | each event resolves at most the one entry it names, and a missing expected entry aborts |
| EventLoop.NetworkEventLoop.RegisterSender | bin/orca_node/src/network/event_loop.rs:406-406 | inserting stores the channel under its id and drops one that was there |
| EventLoop.NetworkEventLoop.AnswerPending | bin/orca_node/src/network/event_loop.rs:297-299 | removing answers the stored channel once and leaves all other entries |
| ReplyChannels.ChannelsAreLinear | bin/orca_node/src/network/event_loop.rs:361-517 | in every run each channel is in exactly one of queue, pending maps, answers, drops |
| ReplyChannels.OneAnswerPerQuery | bin/orca_node/src/network/event_loop.rs:290-359 | many progress events for a query give at most one answer, to the caller that issued it |
| ReplyChannels.ExpectedEntriesArePresent | bin/orca_node/src/network/event_loop.rs:231-256 | with fresh ids and one terminal event each, every outstanding id is pending and no expect on an entry fails |
| ReplyChannels.AnsweredIffReported | bin/orca_node/src/network/event_loop.rs:290-359 | a registered channel is answered in a run exactly when the swarm reports on its entry during the run; until then it stays where it is |
| ReplyChannels.FailedProvideIsNeverAnswered | bin/orca_node/src/network/event_loop.rs:353-356 | the channel of a failed provide query stays pending for ever, neither answered nor dropped |
| ReplyChannels.EventAnswersItsCommand | bin/orca_node/src/network/network_client.rs:20-101 | an event answers a caller with exactly the reply due to its command, and only when one is due |
| ReplyChannels.CommandEffect | bin/orca_node/src/network/event_loop.rs:361-517 | what each command does at once: answered, pending under its id, dropped, or the loop aborted |
| ReplyChannels.MissingEntryAbortsIff | bin/orca_node/src/network/event_loop.rs:231-256 | a missing entry aborts the loop exactly for the three kinds of events that expect one |
| ReplyChannels.SecondTerminalEventAborts | bin/orca_node/src/network/event_loop.rs:244-256 | a second terminal event for a request aborts the loop |
| StreamProtocol.ResponsesAreCorrelated | bin/orca_node/src/network/event_loop.rs:519-569 | for every interleaving a caller gets at most one response, the one the asked peer's handler made for its request |
| StreamProtocol.IdIsStoredBeforeItsResponse | bin/orca_node/src/network/event_loop.rs:494-507 | whenever a loop can process a response its id is registered with the right caller |
| StreamProtocol.UnknownOrRepeatedIdChangesNothing | bin/orca_node/src/network/event_loop.rs:560-567 | a response with an unknown or repeated id changes no entry, answer or loop |
| StreamProtocol.ReceivedResponseIsDelivered | bin/orca_node/src/network/event_loop.rs:560-567 | in every run a response a loop can process is delivered, exactly once, to the caller that asked |
| StreamProtocol.WriteEffect | bin/orca_node/src/network/event_loop.rs:478-515 | a written stream is on the wire and its id is stored next; one that cannot be written leaves no wire and no entry |
| StreamProtocol.ExchangeCompletes | bin/orca_node/src/network/network_client.rs:153-173 | an undisturbed exchange delivers the server's answer to the caller |
| LoopWaits.ForwardedRequestsAreAnsweredOnce | bin/orca_node/src/network/event_loop.rs:534-559 | forwarded stream requests are answered in order, each exactly once |
| LoopWaits.MutualWaitNeedsANetworkArm | bin/orca_node/src/request_handler.rs:69-91 | any mutual wait has the handler in an arm that itself waits on the network loop |
| LoopWaits.StreamRunsNeverDeadlock | bin/orca_node/src/request_handler.rs:69-79 | with stream requests only the loops never wait on each other |
| LoopWaits.StreamRunsComplete | bin/orca_node/src/network/event_loop.rs:534-559 | with stream requests only, three more steps leave both loops free and every request answered |
| LoopWaits.MutualWaitIff | bin/orca_node/src/request_handler.rs:42-54 | the loops end a run waiting on each other if and only if in it a request arrived while the handler waited on the network loop, or the handler took a local network event while a request was on offer |
| LoopWaits.MutualWaitIsForever | bin/orca_node/src/network/network_client.rs:50-57 | once both wait neither moves again, whatever other callers submit |
| LoopWaits.IncomingRequestLocksNetworkArm | bin/orca_node/src/request_handler.rs:156-161 | while an arm waits on the network, any incoming request locks both loops |
| LoopWaits.LocalEventLocksOfferedRequest | bin/orca_node/src/request_handler.rs:80-97 | while a request is on offer, any local event whose arm calls the network locks both loops |
| LoopWaits.LockingEvents | bin/orca_node/src/request_handler.rs:80-200 | exactly providing a stored file, stopping a file, starting and stopping a provider lock a request on offer, and are locked by the next one |
| LoopWaits.OfferedRequests | bin/orca_node/src/request_handler.rs:58-79 | the arm of a plain request is locked by the next request, that of a stream request answers it and waits on nothing |
| LoopWaits.ServedArms | bin/orca_node/src/network/network_client.rs:50-65 | after its command is taken an arm waits on exactly if it provides a key |
| LoopWaits.TwoRequestsDeadlock | bin/orca_node/src/request_handler.rs:58-68 | two plain requests in succession can lock the node, and so can one request and one local event |
| LoopWaits.QueryReturnsIff | bin/orca_node/src/network/network_client.rs:50-57 | an arm waiting for its provide query is released in a run exactly when the swarm reports the success of that query |
| LoopWaits.FailedProvideStrandsHandler | bin/orca_node/src/network/event_loop.rs:353-356 | after a failed provide query the handler never moves again in any run and no request is answered; the loops wait on each other from the next request on |
| LoopWaits.StrandedIffQueryFailed | bin/orca_node/src/network/network_client.rs:50-57 | an arm waiting for its query is stranded at the end of a run if and only if that query failed during it |
| LoopWaits.OnlyProvidingStrands | bin/orca_node/src/request_handler.rs:80-97 | only storing a file or starting the proxy as a provider can be stranded |
| LoopWaits.ProvidingCanStrand | bin/orca_node/src/request_handler.rs:88-91 | from any state with both loops free, providing a file and the failure of its query strand the handler |
| Tunnel.ContainsDelimiter | bin/orca_node/src/common/utils.rs:159-161 | the window scan finds a blank line exactly when there is one |
| Tunnel.ReadStreamToEnd | bin/orca_node/src/common/utils.rs:149-165 | returns exactly what was consumed, stops at the first read completing the delimiter, over-reads at most 1023 bytes, ends exactly on streams that contain it, and panics exactly on the first failing read |
| Tunnel.RunStops | bin/orca_node/src/proxy/proxy_handlers.rs:446-468 | by bytes alone, the copy loop is closed exactly by the first turn that reads the end of a side whose bytes have all been taken, and broken exactly by the first failing turn |
| Tunnel.CustomCopyBidirectional | bin/orca_node/src/proxy/proxy_handlers.rs:432-473 | for every schedule, when it is done and when it has failed, and that streams and counters end as the turn-by-turn copy says |
| Tunnel.RunIsFaithful | bin/orca_node/src/proxy/proxy_handlers.rs:432-473 | at every point each side has received an in-order exact prefix of the other and the counters are its length |
| Tunnel.TunnelStreams | bin/orca_node/src/proxy/proxy_handlers.rs:402-426 | usage is reported exactly when some side's end is read before any failure; then everything that side had sent is delivered and the usage is exactly the bytes written |
| TwoHop.TunnelDeliversPrefixes | bin/orca_node/src/proxy/proxy_handlers.rs:183-241 | through both proxies and the reply read the destination gets a prefix of the browser's bytes, the reply read takes the header and at most 1023 tunnel bytes, the browser gets the destination's bytes after those, and the receiving hop never counts more than the sending one |
| TwoHop.TunnelOpensIff | bin/orca_node/src/proxy/proxy_handlers.rs:341-349 | a reply read in full opens the tunnel exactly if it begins with the status line of a 200 |
| TwoHop.ReplyReadStep | bin/orca_node/src/proxy/proxy_handlers.rs:341-349 | one read waits on exactly while header bytes are missing; a failing one ends the attempt |
| TwoHop.BrowserGetsPrefixWithoutOverRead | bin/orca_node/src/proxy/proxy_handlers.rs:311-399 | bytes are missing at the browser if and only if some read of the reply went past its header; otherwise, and whenever the destination is silent until the reply is read, it gets a prefix of the destination's bytes |
| TwoHop.OverReadShiftsTheStream | bin/orca_node/src/proxy/proxy_handlers.rs:341-349 | for every 200 reply and every k from 1 to 1023 a run skips exactly k bytes, and the browser gets a prefix only if byte k equals byte 0 |
| NodeState.NamespaceIsIdempotent | bin/orca_node/src/common/utils.rs:42-48 | namespacing twice is namespacing once |
| NodeState.NamespaceIsInjective | bin/orca_node/src/common/utils.rs:42-48 | distinct un-namespaced keys stay distinct, and exactly which namespaced key collides with a plain one |
| NodeState.HexKeys | bin/orca_node/src/common/config.rs:31-38 | hex file ids never collide with the proxy key |
| NodeState.RequestHandlerLoop.AdvertiseProvidedFiles | bin/orca_node/src/network/network_client.rs:206-222 | advertising adds exactly the keys of the active rows |
| NodeState.RequestHandlerLoop.HandleEvent | bin/orca_node/src/request_handler.rs:80-200 | each event changes table, keys, sender and configuration as OnEvent says, database and configuration failures included |
| NodeState.StopEffect | bin/orca_node/src/request_handler.rs:98-124 | a permanent stop deletes the row, a temporary one keeps it inactive with its path, both withdraw the key even if the table could not be changed |
| NodeState.ProvideEffect | bin/orca_node/src/request_handler.rs:80-97 | a file is provided exactly if it exists and its row could be inserted; then the row is active and the key provided |
| NodeState.ResumeEffect | bin/orca_node/src/http_server/endpoints/file_endpoints.rs:151-168 | resuming needs a row, makes it active and provides its key |
| NodeState.ResumeUndoesStop | bin/orca_node/src/http_server/endpoints/file_endpoints.rs:151-168 | resuming after a temporary stop restores table and keys |
| NodeState.AdvertiseEffect | bin/orca_node/src/network/network_client.rs:206-222 | advertising adds the key of every active row and nothing else |
| NodeState.ProxyEffect | bin/orca_node/src/request_handler.rs:142-200 | what starting and stopping the proxy do to sender, stored mode, key and counters, and when they abort |
| NodeState.ProvidedKeysAreActiveRows | bin/orca_node/src/request_handler.rs:80-125 | in every run, whatever ids are stopped, every provided file key belongs to an active row, and advertising makes the two sets equal |
| NodeState.ProxyStaysInStep | bin/orca_node/src/request_handler.rs:142-200 | with or without a stored mode a sender is held exactly when a mode is configured, spawns minus effective stops is 0 or 1, and the key is provided exactly for a provider if and only if it was not withdrawn by a file stop |
| NodeState.FileEventsKeepStep | bin/orca_node/src/http_server/endpoints/file_endpoints.rs:134-147 | no run in which no stop names the proxy key goes out of step |
| NodeState.FileStopKeepsStepIff | bin/orca_node/src/request_handler.rs:98-124 | a file stop keeps the agreement if and only if it does not name a running provider's key |
| NodeState.StoppedKeyLeavesProxyRunning | bin/orca_node/src/http_server/endpoints/file_endpoints.rs:134-147 | on every node, starting the provider and stopping its key as a file leaves it running without the key |
| NodeState.StopPanicsIff | bin/orca_node/src/request_handler.rs:174-176 | a stop aborts the handler exactly when no mode is configured or the configuration cannot be written |
| Download.Downloader.HandleFileContentResponse | bin/orca_node/src/common/utils.rs:170-257 | a content response leads to at most one transfer and one row, any other response to none |
| Download.Downloader.DownloadFile | bin/orca_node/src/network/network_client.rs:104-127 | only the first provider that can be dialled is paid and recorded, at most once and only if it answers; a dropped reply channel panics the caller unpaid |
| Download.PriceIsExactToHalfASatoshi | bin/orca_node/src/common/utils.rs:192-249 | money goes out exactly for a file, once, to the address in its metadata, within half a satoshi of rate times length over a thousand, and the row records that price, size, rate, peer and transaction |

## Left out

- Floating point: amounts are exact reals, nothing is said about `f64` rounding error.
- Dishonest clients and replayed notifications: the code marks checking them as future work. The reference discipline holds for any sender; the ledger theorems are about an honest session among arbitrary other clients.
- Confirmation of payments on the chain: no code updates confirmed totals, so they stay zero in a session.
- Timestamps, file names and log output: they do not influence what is proved.
- SQLite and Diesel internals: tables are maps with their primary keys and the unique index on tokens; each statement is one step that happens or fails.
- Uuids: the exact conditions of `PaymentCollisions` and `PaymentSession` assume that a new uuid differs from those already in use; conservation, the reference discipline and the bounds of `PaymentBounds` do not.
- libp2p, Kademlia and transports: the swarm is an environment that issues fresh ids and events. Receivers of replies are assumed to be still waiting; opening and writing a stream is one step that succeeds or fails.
- `todo!()` on a second dial to a peer, and the proxy's clean-up step that waits for its own cancellation: the first ends the modelled loop, the second is not modelled.
- Handler steps of `NodeState` are atomic: waiting for a provide query inside a step is treated in `LoopWaits` only.
- Endpoints, command line, setup scripts, the boot node and the relay server: plumbing around the modelled parts. The resume endpoint and the boot start are modelled as events.
- Wire encodings, SHA-256 and authorization header parsing: library behaviour or finite cases.
