/**
 The provider's side of the two-phase proxy payment (request_handler.rs,
 `handle_payment_request`). Database outcomes and the new uuid are inputs.
 */
module PaymentHandler {
  import opened Amounts
  import opened Options
  import opened Tables

  // ---- Messages (common/types.rs) ----

  datatype PaymentNotification = PaymentNotification(
    senderAddress: string, receiverAddress: string, amountTransferred: real,
    txId: string, paymentReference: string)

  datatype PaymentRequest = PaymentRequest(amountToSend: real, paymentReference: string, recipientAddress: string)

  datatype PrePaymentResponse =
    | Accepted(request: PaymentRequest)
    | RejectedDataTransferDiffers
    | RejectedFeeOwedDiffers
    | ServerTerminatingConnection(request: PaymentRequest)

  datatype Request =
    | PrePaymentRequest(clientId: string, authToken: string, dataTransferredKb: real, feeOwed: real)
    | PostPaymentNotification(clientId: string, authToken: string, notification: PaymentNotification)

  datatype Error = InternalServerError | PaymentReferenceMismatch

  datatype Response =
    | PrePaymentReply(dataTransferredKb: real, feeOwed: real, decision: PrePaymentResponse)
    | ErrorReply(error: Error)
    | NullResponse

  // ---- Tolerances (common/config.rs) ----

  /** Percent differences: beyond `termination` the connection should end; the others are allowances. */
  datatype Limits = Limits(termination: real, feeOwed: real, dataTransfer: real)

  const CONFIGURED_LIMITS := Limits(300.0, 300.0, 300.0)

  datatype Verdict = OverTermination | FeeOverLimit | DataOverLimit | InTolerance

  function Judge(limits: Limits, feeDiff: real, dataDiff: real): Verdict {
    if feeDiff > limits.termination || dataDiff > limits.termination then OverTermination
    else if feeDiff > limits.feeOwed then FeeOverLimit
    else if dataDiff > limits.dataTransfer then DataOverLimit
    else InTolerance
  }

  // ---- The handler as a function of the provider's tables ----

  datatype Provider = Provider(clients: Clients, payments: Payments, address: string)

  /** Outcomes the environment decides: each statement may fail; `reference` is the new uuid. */
  datatype HandlerEnv = HandlerEnv(
    lookupDb: bool, reference: string, insertDb: bool, findDb: bool, updateDb: bool, creditDb: bool)

  function ExpectedPayment(reference: string, address: string, amount: real, peer: string): PaymentInfo {
    PaymentInfo(reference, None, None, address, Some(amount), None, Receive, AwaitingClientConfirmation,
                None, Some(peer), None)
  }

  function NotifiedPayment(row: PaymentInfo, note: PaymentNotification): PaymentInfo {
    row.(txId := Some(note.txId), fromAddress := Some(note.senderAddress), status := TransactionPending)
  }

  function VerdictFor(c: ProxyClientInfo, dataKb: real, feeOwed: real, limits: Limits): Verdict {
    Judge(limits, PercentDiff(feeOwed, c.GetFeeOwed()), PercentDiff(dataKb, c.dataTransferredKb))
  }

  ghost function HandlePrePayment(p: Provider, token: string, dataKb: real, feeOwed: real, peer: string,
                                  env: HandlerEnv, limits: Limits): (Provider, Response)
  {
    if !env.lookupDb || !TokenTaken(p.clients, token) then (p, ErrorReply(InternalServerError))
    else
      var c := FindByToken(p.clients, token).value;
      var fee := c.GetFeeOwed();
      var request := PaymentRequest(fee, env.reference, p.address);
      match VerdictFor(c, dataKb, feeOwed, limits)
      case OverTermination => (p, PrePaymentReply(c.dataTransferredKb, fee, Accepted(request)))
      case FeeOverLimit => (p, PrePaymentReply(c.dataTransferredKb, fee, RejectedDataTransferDiffers))
      case DataOverLimit => (p, PrePaymentReply(c.dataTransferredKb, fee, RejectedFeeOwedDiffers))
      case InTolerance =>
        if env.insertDb && env.reference !in p.payments then
          (p.(payments := p.payments[env.reference := ExpectedPayment(env.reference, p.address, fee, peer)]),
           PrePaymentReply(c.dataTransferredKb, fee, Accepted(request)))
        else (p, ErrorReply(InternalServerError))
  }

  ghost function HandlePostPayment(p: Provider, token: string, note: PaymentNotification, env: HandlerEnv)
    : (Provider, Response)
  {
    var ref := note.paymentReference;
    if !env.lookupDb || !TokenTaken(p.clients, token) then (p, ErrorReply(InternalServerError))
    else if !env.findDb || ref !in p.payments then (p, ErrorReply(PaymentReferenceMismatch))
    else if !env.updateDb then (p, ErrorReply(InternalServerError))
    else
      var c := FindByToken(p.clients, token).value;
      var change := NotifiedPayment(p.payments[ref], note);
      var id := change.paymentId;
      var updated := if id !in p.payments then p
                     else p.(payments := p.payments[id := Changeset(p.payments[id], change)]);
      if !env.creditDb then (updated, ErrorReply(InternalServerError))
      else (updated.(clients := CreditClient(p.clients, c.clientId, note.amountTransferred)), NullResponse)
  }

  ghost function HandlePayment(p: Provider, request: Request, peer: string, env: HandlerEnv, limits: Limits)
    : (Provider, Response)
  {
    match request
    case PrePaymentRequest(_, token, dataKb, feeOwed) =>
      HandlePrePayment(p, token, dataKb, feeOwed, peer, env, limits)
    case PostPaymentNotification(_, token, note) => HandlePostPayment(p, token, note, env)
  }

  // ---- The handler as code over the tables ----

  class PaymentRequestHandler {
    const clients: ProxyClientsTable
    const payments: PaymentsTable
    const btcAddress: string

    ghost function State(): Provider
      reads clients, payments
    {
      Provider(clients.rows, payments.rows, btcAddress)
    }

    constructor (clients: ProxyClientsTable, payments: PaymentsTable, btcAddress: string)
      ensures this.clients == clients && this.payments == payments && this.btcAddress == btcAddress
    {
      this.clients, this.payments, this.btcAddress := clients, payments, btcAddress;
    }

    /** An `Err` from a `?` becomes an internal server error (`handle_event`). */
    method HandlePaymentRequest(request: Request, peer: string, env: HandlerEnv, limits: Limits)
      returns (response: Response)
      requires ValidClients(clients.rows)
      modifies clients, payments
      ensures (State(), response) == HandlePayment(old(State()), request, peer, env, limits)
      ensures request.PrePaymentRequest? ==> clients.rows == old(clients.rows)
    {
      match request {
        case PrePaymentRequest(_, token, dataKb, feeOwedClient) =>
          var found := clients.GetClientByAuthToken(token, env.lookupDb);
          if found.Err? { return ErrorReply(InternalServerError); }
          var client := found.value;
          var feeOwed := client.GetFeeOwed();
          var feeDiff := PercentDiff(feeOwedClient, feeOwed);
          var dataDiff := PercentDiff(dataKb, client.dataTransferredKb);
          var decision;
          if feeDiff > limits.termination || dataDiff > limits.termination {
            decision := Accepted(PaymentRequest(feeOwed, env.reference, btcAddress));
          } else if feeDiff > limits.feeOwed {
            decision := RejectedDataTransferDiffers;
          } else if dataDiff > limits.dataTransfer {
            decision := RejectedFeeOwedDiffers;
          } else {
            var info := ExpectedPayment(env.reference, btcAddress, feeOwed, peer);
            var inserted := payments.InsertPaymentInfo(info, env.insertDb);
            if inserted.Err? { return ErrorReply(InternalServerError); }
            decision := Accepted(PaymentRequest(feeOwed, env.reference, btcAddress));
          }
          response := PrePaymentReply(client.dataTransferredKb, feeOwed, decision);

        case PostPaymentNotification(_, token, note) =>
          var found := clients.GetClientByAuthToken(token, env.lookupDb);
          if found.Err? { return ErrorReply(InternalServerError); }
          var payment := payments.GetPaymentInfo(note.paymentReference, env.findDb);
          if payment.Err? { return ErrorReply(PaymentReferenceMismatch); }
          var change := NotifiedPayment(payment.value, note);
          var updated := payments.UpdatePaymentInfo(change, env.updateDb);
          if updated.Err? { return ErrorReply(InternalServerError); }
          var credited := clients.UpdateTotalFeeReceivedUnconfirmed(
            found.value.clientId, note.amountTransferred, env.creditDb);
          if credited.Err? { return ErrorReply(InternalServerError); }
          response := NullResponse;
      }
    }
  }

  // ---- What one request does ----

  ghost predicate ValidPayments(rows: Payments) {
    forall k :: k in rows ==> rows[k].paymentId == k
  }

  ghost predicate ValidProvider(p: Provider) {
    ValidClients(p.clients) && ValidPayments(p.payments)
  }

  /** A reply that asks for money asks for exactly the fee the provider computes, a whole non-negative amount. */
  ghost predicate AsksFor(response: Response, fee: real) {
    response.PrePaymentReply? && response.decision.Accepted? ==>
      response.decision.request.amountToSend == response.feeOwed == fee && WholeAmount(fee)
  }

  /** The claim is in tolerance and every statement succeeds, so that the provider records what it asks for. */
  ghost predicate Records(p: Provider, token: string, dataKb: real, feeOwed: real, env: HandlerEnv, limits: Limits) {
    && env.lookupDb && env.insertDb && env.reference !in p.payments
    && TokenTaken(p.clients, token)
    && VerdictFor(FindByToken(p.clients, token).value, dataKb, feeOwed, limits).InTolerance?
  }

  /**
   A pre-payment changes no client row and at most adds one expected payment; a
   row is added exactly when the claim is in tolerance and the insert succeeds,
   and then the reply carries the same reference and amount. The only accepting
   reply without a row is the one beyond the termination threshold.
   */
  lemma PrePaymentEffect(p: Provider, token: string, dataKb: real, feeOwed: real, peer: string,
                         env: HandlerEnv, limits: Limits)
    requires ValidProvider(p)
    ensures var (after, reply) := HandlePrePayment(p, token, dataKb, feeOwed, peer, env, limits);
            && ValidProvider(after) && after.clients == p.clients && after.address == p.address
            && (forall k :: k in p.payments ==> k in after.payments && after.payments[k] == p.payments[k])
            && (after.payments != p.payments <==> Records(p, token, dataKb, feeOwed, env, limits))
            && (after.payments != p.payments ==>
                  && after.payments.Keys == p.payments.Keys + {env.reference}
                  && reply.PrePaymentReply? && reply.decision.Accepted?
                  && after.payments[env.reference].expectedAmountBtc == Some(reply.decision.request.amountToSend)
                  && after.payments[env.reference].status == AwaitingClientConfirmation)
            && (TokenTaken(p.clients, token) ==> AsksFor(reply, FindByToken(p.clients, token).value.GetFeeOwed()))
            && (reply.PrePaymentReply? && reply.decision.Accepted? ==>
                  && TokenTaken(p.clients, token)
                  && reply.decision.request.paymentReference == env.reference
                  && (after.payments == p.payments ==>
                        VerdictFor(FindByToken(p.clients, token).value, dataKb, feeOwed, limits).OverTermination?))
  {
    if TokenTaken(p.clients, token) {
      var c := FindByToken(p.clients, token).value;
      FeeOwedFacts(c.dataTransferredKb, c.feeRatePerKb, c.totalFeeReceived, c.totalFeeReceivedUnconfirmed);
    }
  }

  /**
   A notification credits exactly one client by the notified amount when it
   succeeds and none otherwise; an unknown reference leaves every table unchanged.
   */
  lemma PostPaymentEffect(p: Provider, token: string, note: PaymentNotification, env: HandlerEnv)
    requires ValidProvider(p)
    ensures var (after, reply) := HandlePostPayment(p, token, note, env);
            && ValidProvider(after) && after.address == p.address
            && after.payments.Keys == p.payments.Keys
            && (note.paymentReference !in p.payments ==> after == p && reply != NullResponse)
            && (reply != NullResponse ==> after.clients == p.clients)
            && (reply == NullResponse ==>
                  && TokenTaken(p.clients, token)
                  && after.clients == CreditClient(p.clients, FindByToken(p.clients, token).value.clientId,
                                                   note.amountTransferred)
                  && after.payments[note.paymentReference] == NotifiedPayment(p.payments[note.paymentReference], note))
            && (forall k :: k in p.payments ==>
                  after.payments[k] == p.payments[k] || after.payments[k] == NotifiedPayment(p.payments[k], note))
  {
    if TokenTaken(p.clients, token) {
      CreditThroughToken(p.clients, token, note.amountTransferred);
    }
  }

  /**
   How a pre-payment is answered: with an error exactly when the client is unknown or
   a statement it needs fails; otherwise with the provider's own usage and fee. A
   recorded request is a payment to this provider's address, expected from the
   asking peer and nothing else known of it yet.
   */
  lemma PrePaymentReplies(p: Provider, token: string, dataKb: real, feeOwed: real, peer: string,
                          env: HandlerEnv, limits: Limits)
    ensures var (after, reply) := HandlePrePayment(p, token, dataKb, feeOwed, peer, env, limits);
            var found := env.lookupDb && TokenTaken(p.clients, token);
            && (!found ==> reply == ErrorReply(InternalServerError))
            && (found ==>
                  && var c := FindByToken(p.clients, token).value;
                     var records := VerdictFor(c, dataKb, feeOwed, limits).InTolerance?;
                  && (reply.PrePaymentReply? <==> (records ==> env.insertDb && env.reference !in p.payments))
                  && (!reply.PrePaymentReply? ==> reply == ErrorReply(InternalServerError))
                  && (reply.PrePaymentReply? ==>
                        reply.dataTransferredKb == c.dataTransferredKb && reply.feeOwed == c.GetFeeOwed())
                  && (reply.PrePaymentReply? && reply.decision.Accepted? ==>
                        reply.decision.request == PaymentRequest(c.GetFeeOwed(), env.reference, p.address))
                  && (reply.PrePaymentReply? && records ==>
                        && after.payments.Keys == p.payments.Keys + {env.reference}
                        && var row := after.payments[env.reference];
                        && row.paymentId == env.reference && row.toAddress == p.address
                        && row.expectedAmountBtc == Some(c.GetFeeOwed()) && row.fromPeer == Some(peer)
                        && row.category == Receive && row.status == AwaitingClientConfirmation
                        && row.txId.None? && row.fromAddress.None? && row.amountBtc.None?
                        && row.paymentReference.None? && row.toPeer.None?))
  {}

  /**
   How a notification is answered: the statements run in order and the first that
   fails decides. The row is marked pending with the notified transaction and sender
   as soon as its update succeeds, even if the credit then fails; the credit is made
   exactly when everything succeeds.
   */
  lemma PostPaymentReplies(p: Provider, token: string, note: PaymentNotification, env: HandlerEnv)
    requires ValidProvider(p)
    ensures var (after, reply) := HandlePostPayment(p, token, note, env);
            var ref := note.paymentReference;
            var found := env.lookupDb && TokenTaken(p.clients, token);
            var known := env.findDb && ref in p.payments;
            && (reply == NullResponse <==> found && known && env.updateDb && env.creditDb)
            && (reply == ErrorReply(PaymentReferenceMismatch) <==> found && !known)
            && (reply == ErrorReply(InternalServerError) <==> !found || (known && !(env.updateDb && env.creditDb)))
            && after.payments ==
                 (if found && known && env.updateDb
                  then p.payments[ref := p.payments[ref].(txId := Some(note.txId),
                                                          fromAddress := Some(note.senderAddress),
                                                          status := TransactionPending)]
                  else p.payments)
            && after.clients ==
                 (if reply == NullResponse
                  then CreditClient(p.clients, FindByToken(p.clients, token).value.clientId, note.amountTransferred)
                  else p.clients)
  {}

  // ---- Reference discipline over all runs ----

  datatype Call = Call(request: Request, peer: string, env: HandlerEnv)

  /** The provider after serving `calls` in order, whoever sends them. */
  ghost function Serve(p: Provider, calls: seq<Call>, limits: Limits): Provider
    decreases |calls|
  {
    if calls == [] then p
    else Serve(HandlePayment(p, calls[0].request, calls[0].peer, calls[0].env, limits).0, calls[1..], limits)
  }

  lemma {:induction false} ServeKeepsRows(p: Provider, calls: seq<Call>, limits: Limits)
    requires ValidProvider(p)
    ensures var after := Serve(p, calls, limits);
            && ValidProvider(after)
            && forall k :: k in p.payments ==>
                 && k in after.payments
                 && after.payments[k].expectedAmountBtc == p.payments[k].expectedAmountBtc
                 && after.payments[k].category == p.payments[k].category
                 && (after.payments[k].status == p.payments[k].status || after.payments[k].status == TransactionPending)
    decreases |calls|
  {
    if calls != [] {
      var call := calls[0];
      var next := HandlePayment(p, call.request, call.peer, call.env, limits).0;
      match call.request {
        case PrePaymentRequest(_, token, dataKb, feeOwed) =>
          PrePaymentEffect(p, token, dataKb, feeOwed, call.peer, call.env, limits);
        case PostPaymentNotification(_, token, note) =>
          PostPaymentEffect(p, token, note, call.env);
      }
      ServeKeepsRows(next, calls[1..], limits);
    }
  }

  /** The claim `call` makes is in tolerance for the client it names. */
  ghost predicate ClaimInTolerance(p: Provider, call: Call, limits: Limits) {
    && call.request.PrePaymentRequest?
    && TokenTaken(p.clients, call.request.authToken)
    && VerdictFor(FindByToken(p.clients, call.request.authToken).value,
                  call.request.dataTransferredKb, call.request.feeOwed, limits).InTolerance?
  }

  /**
   Whatever is served before and after, a reference issued for an in-tolerance
   claim keeps a row that expects exactly the requested amount. Its status is
   awaiting or pending, and once pending it stays pending.
   */
  lemma IssuedReferenceKeepsItsRow(p: Provider, before: seq<Call>, call: Call, after: seq<Call>, later: seq<Call>,
                                   limits: Limits)
    requires ValidProvider(p)
    ensures var q := Serve(p, before, limits);
            var (issued, reply) := HandlePayment(q, call.request, call.peer, call.env, limits);
            ClaimInTolerance(q, call, limits) && reply.PrePaymentReply? ==>
              && reply.decision.Accepted?
              && var ref := reply.decision.request.paymentReference;
                 var end := Serve(issued, after, limits);
                 var beyond := Serve(end, later, limits);
                 && ref !in q.payments
                 && ref in end.payments && ref in beyond.payments
                 && end.payments[ref].expectedAmountBtc == Some(reply.decision.request.amountToSend)
                 && end.payments[ref].category == Receive
                 && end.payments[ref].status != TransactionConfirmed
                 && (end.payments[ref].status == TransactionPending ==>
                       beyond.payments[ref].status == TransactionPending)
  {
    ServeKeepsRows(p, before, limits);
    var q := Serve(p, before, limits);
    if ClaimInTolerance(q, call, limits) {
      var r := call.request;
      PrePaymentEffect(q, r.authToken, r.dataTransferredKb, r.feeOwed, call.peer, call.env, limits);
      var issued := HandlePayment(q, r, call.peer, call.env, limits).0;
      ServeKeepsRows(issued, after, limits);
      ServeKeepsRows(Serve(issued, after, limits), later, limits);
    }
  }

  /**
   A claim above the termination threshold is answered `Accepted` although no
   payment row is created: the reference it carries is unknown, so paying it can
   only be answered with a reference mismatch.
   */
  lemma OverThresholdReferenceIsUnknown(p: Provider, call: Call, limits: Limits, note: PaymentNotification,
                                        env: HandlerEnv)
    requires ValidProvider(p)
    requires call.request.PrePaymentRequest? && call.env.lookupDb && TokenTaken(p.clients, call.request.authToken)
    requires VerdictFor(FindByToken(p.clients, call.request.authToken).value,
                        call.request.dataTransferredKb, call.request.feeOwed, limits).OverTermination?
    requires call.env.reference !in p.payments
    requires note.paymentReference == call.env.reference && env.lookupDb
    ensures var (after, reply) := HandlePayment(p, call.request, call.peer, call.env, limits);
            && after == p && reply.PrePaymentReply? && reply.decision.Accepted?
            && reply.decision.request.paymentReference == note.paymentReference
            && HandlePostPayment(after, call.request.authToken, note, env)
                 == (after, ErrorReply(PaymentReferenceMismatch))
  {}

  // ---- What the tolerance test decides ----

  /** `value` is more than `percent` away from a positive `target`; a zero target tolerates every claim. */
  predicate OutsideBand(value: real, target: real, percent: real) {
    target > 0.0 && (value < target * (1.0 - percent / 100.0) || value > target * (1.0 + percent / 100.0))
  }

  lemma DiffIsBand(value: real, target: real, percent: real)
    requires target >= 0.0 && percent >= 0.0
    ensures PercentDiff(value, target) > percent <==> OutsideBand(value, target, percent)
  {
    if target > 0.0 {
      PercentDiffBand(value, target, percent);
    }
  }

  /**
   The claim is judged by bands around the provider's own figures, the wide
   termination band first. The two refusals are named after the other quantity:
   a fee out of band is answered "data transfer differs" and the other way round.
   */
  lemma ToleranceDecision(p: Provider, token: string, dataKb: real, feeOwed: real, peer: string,
                          env: HandlerEnv, limits: Limits)
    requires TokenTaken(p.clients, token) && env.lookupDb
    requires FindByToken(p.clients, token).value.dataTransferredKb >= 0.0
    requires limits.termination >= 0.0 && limits.feeOwed >= 0.0 && limits.dataTransfer >= 0.0
    ensures var c := FindByToken(p.clients, token).value;
            var (after, reply) := HandlePrePayment(p, token, dataKb, feeOwed, peer, env, limits);
            var fee := c.GetFeeOwed();
            var tooFar := OutsideBand(feeOwed, fee, limits.termination)
                          || OutsideBand(dataKb, c.dataTransferredKb, limits.termination);
            var feeOff := OutsideBand(feeOwed, fee, limits.feeOwed);
            var dataOff := OutsideBand(dataKb, c.dataTransferredKb, limits.dataTransfer);
            && (tooFar ==> after == p && reply.PrePaymentReply? && reply.decision.Accepted?)
            && (!tooFar && feeOff ==>
                  after == p && reply.PrePaymentReply? && reply.decision == RejectedDataTransferDiffers)
            && (!tooFar && !feeOff && dataOff ==>
                  after == p && reply.PrePaymentReply? && reply.decision == RejectedFeeOwedDiffers)
            && (!tooFar && !feeOff && !dataOff && env.insertDb && env.reference !in p.payments ==>
                  && env.reference in after.payments && reply.PrePaymentReply? && reply.decision.Accepted?
                  && reply.decision.request == PaymentRequest(fee, env.reference, p.address))
  {
    var c := FindByToken(p.clients, token).value;
    FeeOwedFacts(c.dataTransferredKb, c.feeRatePerKb, c.totalFeeReceived, c.totalFeeReceivedUnconfirmed);
    DiffIsBand(feeOwed, c.GetFeeOwed(), limits.termination);
    DiffIsBand(feeOwed, c.GetFeeOwed(), limits.feeOwed);
    DiffIsBand(dataKb, c.dataTransferredKb, limits.termination);
    DiffIsBand(dataKb, c.dataTransferredKb, limits.dataTransfer);
  }

  // ---- The client's unimplemented answers ----

  predicate Unimplemented(decision: PrePaymentResponse) { !decision.Accepted? }

  predicate AllowancesCoverTermination(limits: Limits) {
    limits.feeOwed >= limits.termination && limits.dataTransfer >= limits.termination
  }
}
