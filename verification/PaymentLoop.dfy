/**
 The client's side of the two-phase proxy payment (proxy/proxy_payment.rs). One
 call of `process_payment` is cut at its await and failure points into the steps
 below, so that the other party can act in between.
 */
module PaymentLoop {
  import opened Options
  import opened Tables
  import opened PaymentHandler

  datatype Transfer = Transfer(txId: string, toAddress: string, amount: real)

  /** Where `process_payment` stands. `Panicked` is one of its `todo!()` arms. */
  datatype Phase =
    | Idle
    | AwaitingPre(session: ProxySessionInfo)
    | Paying(session: ProxySessionInfo, request: PaymentRequest)
    | Recording(session: ProxySessionInfo, request: PaymentRequest, txId: string)
    | Counting(session: ProxySessionInfo, request: PaymentRequest, txId: string)
    | Notifying(session: ProxySessionInfo, request: PaymentRequest, txId: string)
    | AwaitingPost
    | Panicked

  datatype Client = Client(sessions: Sessions, payments: Payments, chain: seq<Transfer>, phase: Phase)

  // ---- The steps ----

  function Tick(c: Client, sessionId: string, db: bool): Client
    requires c.phase.Idle?
  {
    if db && sessionId in c.sessions && c.sessions[sessionId].GetFeeOwed() != 0.0
    then c.(phase := AwaitingPre(c.sessions[sessionId])) else c
  }

  function PreRequest(session: ProxySessionInfo): Request {
    PrePaymentRequest(session.clientId, session.authToken, session.dataTransferredKb, session.GetFeeOwed())
  }

  /** `None`: the request failed or timed out. */
  function OnPreReply(c: Client, reply: Option<Response>): Client
    requires c.phase.AwaitingPre?
  {
    match reply
    case Some(PrePaymentReply(_, _, Accepted(request))) => c.(phase := Paying(c.phase.session, request))
    case Some(PrePaymentReply(_, _, _)) => c.(phase := Panicked)
    case _ => c.(phase := Idle)
  }

  /** `None`: `sendtoaddress` failed. */
  function Pay(c: Client, txId: Option<string>): Client
    requires c.phase.Paying?
  {
    var Paying(session, request) := c.phase;
    if txId.None? then c.(phase := Idle)
    else c.(chain := c.chain + [Transfer(txId.value, request.recipientAddress, request.amountToSend)],
            phase := Recording(session, request, txId.value))
  }

  function SentPayment(paymentId: string, session: ProxySessionInfo, request: PaymentRequest, txId: string)
    : PaymentInfo
  {
    PaymentInfo(paymentId, Some(txId), None, request.recipientAddress, None, Some(request.amountToSend), Send,
                TransactionPending, Some(request.paymentReference), None, Some(session.providerPeerId))
  }

  function Record(c: Client, paymentId: string, db: bool): Client
    requires c.phase.Recording?
  {
    var Recording(session, request, txId) := c.phase;
    if db && paymentId !in c.payments
    then c.(payments := c.payments[paymentId := SentPayment(paymentId, session, request, txId)],
            phase := Counting(session, request, txId))
    else c.(phase := Idle)
  }

  function Count(c: Client, sessionId: string, db: bool): Client
    requires c.phase.Counting?
  {
    var Counting(session, request, txId) := c.phase;
    if db then c.(sessions := CountSent(c.sessions, sessionId, request.amountToSend),
                  phase := Notifying(session, request, txId))
    else c.(phase := Idle)
  }

  function Note(request: PaymentRequest, txId: string, senderAddress: string): PaymentNotification {
    PaymentNotification(senderAddress, request.recipientAddress, request.amountToSend, txId, request.paymentReference)
  }

  function PostRequest(session: ProxySessionInfo, note: PaymentNotification): Request {
    PostPaymentNotification(session.clientId, session.authToken, note)
  }

  // ---- One whole round ----

  /** Everything the outside decides during one call, including the provider's reply. */
  datatype RoundEnv = RoundEnv(
    sessionDb: bool, preReply: Option<Response>, txId: Option<string>, paymentId: string, insertDb: bool, countDb: bool)

  datatype RoundResult =
    | NothingOwed
    | Failed
    | Paid(reference: string, notified: Request)
    | Todo

  function PaymentRound(c: Client, sessionId: string, senderAddress: string, env: RoundEnv): (Client, RoundResult)
    requires c.phase.Idle?
  {
    var c1 := Tick(c, sessionId, env.sessionDb);
    if c1.phase.Idle? then (c1, if env.sessionDb && sessionId in c.sessions then NothingOwed else Failed)
    else
      var c2 := OnPreReply(c1, env.preReply);
      if c2.phase.Panicked? then (c2, Todo)
      else if c2.phase.Idle? then (c2, Failed)
      else
        var c3 := Pay(c2, env.txId);
        if c3.phase.Idle? then (c3, Failed)
        else
          var c4 := Record(c3, env.paymentId, env.insertDb);
          if c4.phase.Idle? then (c4, Failed)
          else
            var c5 := Count(c4, sessionId, env.countDb);
            if c5.phase.Idle? then (c5, Failed)
            else
              var Notifying(session, request, txId) := c5.phase;
              (c5.(phase := Idle),
               Paid(request.paymentReference, PostRequest(session, Note(request, txId, senderAddress))))
  }

  /** The request the provider's reply asks the client to pay, if it does. */
  function AskedFor(reply: Option<Response>): Option<PaymentRequest> {
    match reply
    case Some(PrePaymentReply(_, _, Accepted(request))) => Some(request)
    case _ => None
  }

  // What one call gets to, from its inputs alone

  predicate Owing(c: Client, sessionId: string, env: RoundEnv) {
    env.sessionDb && sessionId in c.sessions && c.sessions[sessionId].GetFeeOwed() != 0.0
  }

  /** The provider asks for something that is then sent. */
  predicate Sends(c: Client, sessionId: string, env: RoundEnv) {
    Owing(c, sessionId, env) && AskedFor(env.preReply).Some? && env.txId.Some?
  }

  predicate Stores(c: Client, sessionId: string, env: RoundEnv) {
    Sends(c, sessionId, env) && env.insertDb && env.paymentId !in c.payments
  }

  predicate Counts(c: Client, sessionId: string, env: RoundEnv) { Stores(c, sessionId, env) && env.countDb }

  /**
   How a call ends: with nothing owed, in a `todo!()` exactly for an answer that is not
   accepting, and with a notification of exactly what was sent exactly when every
   step succeeded; in all other cases it fails.
   */
  lemma RoundOutcome(c: Client, sessionId: string, senderAddress: string, env: RoundEnv)
    requires c.phase.Idle?
    ensures var (after, result) := PaymentRound(c, sessionId, senderAddress, env);
            && (result.NothingOwed? <==> env.sessionDb && sessionId in c.sessions && !Owing(c, sessionId, env))
            && (result.Todo? <==> && Owing(c, sessionId, env) && AskedFor(env.preReply).None?
                                  && env.preReply.Some? && env.preReply.value.PrePaymentReply?)
            && (result.Paid? <==> Counts(c, sessionId, env))
            && after.phase == (if result.Todo? then Panicked else Idle)
            && (result.Paid? ==>
                  && var session, request := c.sessions[sessionId], AskedFor(env.preReply).value;
                  && result.reference == request.paymentReference
                  && result.notified == PostPaymentNotification(
                       session.clientId, session.authToken,
                       PaymentNotification(senderAddress, request.recipientAddress, request.amountToSend,
                                           env.txId.value, request.paymentReference)))
  {}

  /**
   What a call leaves behind: exactly the asked amount goes to the asked address, then
   the payment is recorded, then counted in this session, each only if everything
   before it succeeded; nothing else changes.
   */
  lemma RoundEffect(c: Client, sessionId: string, senderAddress: string, env: RoundEnv)
    requires c.phase.Idle?
    ensures var after := PaymentRound(c, sessionId, senderAddress, env).0;
            && (!Sends(c, sessionId, env) ==> after.chain == c.chain)
            && (!Stores(c, sessionId, env) ==> after.payments == c.payments)
            && (!Counts(c, sessionId, env) ==> after.sessions == c.sessions)
    ensures Sends(c, sessionId, env) ==>
              && var after, request := PaymentRound(c, sessionId, senderAddress, env).0, AskedFor(env.preReply).value;
              && after.chain == c.chain + [Transfer(env.txId.value, request.recipientAddress, request.amountToSend)]
              && (Stores(c, sessionId, env) ==>
                    && after.payments.Keys == c.payments.Keys + {env.paymentId}
                    && (forall k :: k in c.payments ==> after.payments[k] == c.payments[k])
                    && RecordsSending(after.payments[env.paymentId], env.paymentId, env.txId, request,
                                      c.sessions[sessionId].providerPeerId))
              && (Counts(c, sessionId, env) ==>
                    after.sessions == c.sessions[sessionId := c.sessions[sessionId].(
                      totalFeeSentUnconfirmed := c.sessions[sessionId].totalFeeSentUnconfirmed + request.amountToSend)])
  {}

  predicate RecordsSending(row: PaymentInfo, paymentId: string, txId: Option<string>, request: PaymentRequest,
                           peer: string)
  {
    && row.paymentId == paymentId && row.category == Send && row.status == TransactionPending
    && row.txId == txId && row.amountBtc == Some(request.amountToSend)
    && row.toAddress == request.recipientAddress && row.paymentReference == Some(request.paymentReference)
    && row.toPeer == Some(peer) && row.fromPeer.None? && row.fromAddress.None? && row.expectedAmountBtc.None?
  }

  /** The claim a round starts with. */
  lemma ClaimIsOwnRow(c: Client, sessionId: string, db: bool)
    requires c.phase.Idle? && Tick(c, sessionId, db).phase.AwaitingPre?
    ensures sessionId in c.sessions
    ensures var session := c.sessions[sessionId];
            PreRequest(Tick(c, sessionId, db).phase.session)
              == PrePaymentRequest(session.clientId, session.authToken, session.dataTransferredKb, session.GetFeeOwed())
  {}

  /** What the payment loop's `select!` sees next. */
  datatype LoopEvent = Cancelled | IntervalTick(env: RoundEnv)

  /** A failed round is logged and the loop goes on; cancellation and a `todo!()` end it. */
  function PaymentRounds(c: Client, sessionId: string, senderAddress: string, events: seq<LoopEvent>): Client
    requires c.phase.Idle?
    decreases |events|
  {
    if events == [] || events[0].Cancelled? then c
    else
      var (after, result) := PaymentRound(c, sessionId, senderAddress, events[0].env);
      if result.Todo? then after else PaymentRounds(after, sessionId, senderAddress, events[1..])
  }

  /** One tick takes the client from one state to the next; the last component says how it ended. */
  predicate Round(c: Client, sessionId: string, senderAddress: string, e: LoopEvent, next: Client, result: RoundResult)
    requires c.phase.Idle?
  {
    e.IntervalTick? && PaymentRound(c, sessionId, senderAddress, e.env) == (next, result)
  }

  /**
   `states` is a complete history of the loop over `events`: consecutive states are
   one round apart, in the order of the events, failed rounds included, and the
   history ends with the events, at the first cancellation, or in a `todo!()`.
   */
  ghost predicate History(sessionId: string, senderAddress: string, events: seq<LoopEvent>, states: seq<Client>,
                          results: seq<RoundResult>)
  {
    && |states| == |results| + 1 && |results| <= |events|
    && (forall i :: 0 <= i < |results| ==>
          && states[i].phase.Idle?
          && Round(states[i], sessionId, senderAddress, events[i], states[i + 1], results[i])
          && (results[i].Todo? ==> i == |results| - 1))
    && (|results| == |events| || events[|results|].Cancelled? || (results != [] && results[|results| - 1].Todo?))
  }

  /** The rounds' function has such a history for every list of events. */
  lemma {:induction false} RoundsHaveHistory(c: Client, sessionId: string, senderAddress: string,
                                             events: seq<LoopEvent>)
    returns (states: seq<Client>, results: seq<RoundResult>)
    requires c.phase.Idle?
    ensures History(sessionId, senderAddress, events, states, results) && states[0] == c
    ensures PaymentRounds(c, sessionId, senderAddress, events) == states[|states| - 1]
    decreases |events|
  {
    states, results := [c], [];
    if events != [] && events[0].IntervalTick? {
      var (after, result) := PaymentRound(c, sessionId, senderAddress, events[0].env);
      RoundOutcome(c, sessionId, senderAddress, events[0].env);
      if result.Todo? {
        states, results := [c, after], [result];
      } else {
        var later, ends := RoundsHaveHistory(after, sessionId, senderAddress, events[1..]);
        states, results := [c] + later, [result] + ends;
        EarlierRound(sessionId, senderAddress, events, c, result, later, ends);
      }
    }
  }

  /** A history stays one when a round that goes on is put before it. */
  lemma EarlierRound(sessionId: string, senderAddress: string, events: seq<LoopEvent>, c: Client, result: RoundResult,
                     states: seq<Client>, results: seq<RoundResult>)
    requires events != [] && c.phase.Idle? && History(sessionId, senderAddress, events[1..], states, results)
    requires Round(c, sessionId, senderAddress, events[0], states[0], result) && !result.Todo?
    ensures History(sessionId, senderAddress, events, [c] + states, [result] + results)
  {
    var s, r := [c] + states, [result] + results;
    forall i | 0 <= i < |r|
      ensures s[i].phase.Idle? && Round(s[i], sessionId, senderAddress, events[i], s[i + 1], r[i])
      ensures r[i].Todo? ==> i == |r| - 1
    {
      if i > 0 {
        assert s[i] == states[i - 1] && s[i + 1] == states[i] && r[i] == results[i - 1];
        assert events[i] == events[1..][i - 1];
      }
    }
  }

  /** A round that fails without having moved anything is as if its tick had not come, wherever it comes. */
  lemma {:induction false} FailedRoundIsSkipped(c: Client, sessionId: string, senderAddress: string,
                                                before: seq<LoopEvent>, e: LoopEvent, after: seq<LoopEvent>)
    requires c.phase.Idle? && e.IntervalTick?
    requires var s := PaymentRounds(c, sessionId, senderAddress, before);
             s.phase.Idle? ==> PaymentRound(s, sessionId, senderAddress, e.env) == (s, Failed)
    ensures PaymentRounds(c, sessionId, senderAddress, before + [e] + after)
            == PaymentRounds(c, sessionId, senderAddress, before + after)
    decreases |before|
  {
    if before == [] {
      assert ([e] + after)[1..] == after;
      assert before + [e] + after == [e] + after && before + after == after;
    } else {
      assert (before + [e] + after)[1..] == before[1..] + [e] + after && (before + after)[1..] == before[1..] + after;
      if before[0].IntervalTick? {
        var (next, result) := PaymentRound(c, sessionId, senderAddress, before[0].env);
        RoundOutcome(c, sessionId, senderAddress, before[0].env);
        if !result.Todo? {
          FailedRoundIsSkipped(next, sessionId, senderAddress, before[1..], e, after);
        }
      }
    }
  }

  class Wallet {
    var transfers: seq<Transfer>

    constructor ()
      ensures transfers == []
    {
      transfers := [];
    }

    /** `txId` is what the node returns; `None` when the call fails. */
    method SendToAddress(address: string, amount: real, txId: Option<string>) returns (r: Option<string>)
      modifies this
      ensures r == txId
      ensures transfers == if txId.None? then old(transfers)
                           else old(transfers) + [Transfer(txId.value, address, amount)]
    {
      if txId.Some? {
        transfers := transfers + [Transfer(txId.value, address, amount)];
      }
      r := txId;
    }
  }

  class ProxyPaymentLoop {
    const sessionId: string
    const btcAddress: string
    const sessions: ProxySessionsTable
    const payments: PaymentsTable
    const wallet: Wallet

    ghost function State(): Client
      reads sessions, payments, wallet
    {
      Client(sessions.rows, payments.rows, wallet.transfers, Idle)
    }

    constructor (sessionId: string, btcAddress: string, sessions: ProxySessionsTable, payments: PaymentsTable,
                 wallet: Wallet)
      ensures this.sessionId == sessionId && this.btcAddress == btcAddress
      ensures this.sessions == sessions && this.payments == payments && this.wallet == wallet
    {
      this.sessionId, this.btcAddress := sessionId, btcAddress;
      this.sessions, this.payments, this.wallet := sessions, payments, wallet;
    }

    method ProcessPayment(env: RoundEnv) returns (result: RoundResult)
      modifies sessions, payments, wallet
      ensures State() == PaymentRound(old(State()), sessionId, btcAddress, env).0.(phase := Idle)
      ensures result == PaymentRound(old(State()), sessionId, btcAddress, env).1
      ensures result.Todo? <==> PaymentRound(old(State()), sessionId, btcAddress, env).0.phase.Panicked?
    {
      var found := sessions.GetSessionInfo(sessionId, env.sessionDb);
      if found.Err? { return Failed; }
      var session := found.value;
      if session.GetFeeOwed() == 0.0 { return NothingOwed; }

      // Pre-payment step
      if env.preReply.None? { return Failed; }
      var request;
      match env.preReply.value {
        case PrePaymentReply(_, _, decision) =>
          if !decision.Accepted? { return Todo; }
          request := decision.request;
        case ErrorReply(_) => return Failed;
        case NullResponse => return Failed;
      }

      var tx := wallet.SendToAddress(request.recipientAddress, request.amountToSend, env.txId);
      if tx.None? { return Failed; }

      var info := SentPayment(env.paymentId, session, request, tx.value);
      var inserted := payments.InsertPaymentInfo(info, env.insertDb);
      if inserted.Err? { return Failed; }

      var counted := sessions.UpdateTotalFeeSentUnconfirmed(sessionId, request.amountToSend, env.countDb);
      if counted.Err? { return Failed; }

      // The answer to the notification is ignored
      result := Paid(request.paymentReference, PostRequest(session, Note(request, tx.value, btcAddress)));
    }

    /** Runs until the events end, the loop is cancelled or a `todo!()` is reached. */
    method StartLoop(events: seq<LoopEvent>) returns (ghost states: seq<Client>, ghost results: seq<RoundResult>)
      modifies sessions, payments, wallet
      ensures History(sessionId, btcAddress, events, states, results)
      ensures states[0] == old(State()) && State() == states[|states| - 1].(phase := Idle)
      ensures states[|states| - 1] == PaymentRounds(old(State()), sessionId, btcAddress, events)
    {
      ghost var start := State();
      for k := 0 to |events|
        invariant PaymentRounds(start, sessionId, btcAddress, events)
                  == PaymentRounds(State(), sessionId, btcAddress, events[k..])
      {
        assert events[k..][0] == events[k] && events[k..][1..] == events[k + 1..];
        if events[k].Cancelled? { break; }
        var result := ProcessPayment(events[k].env);
        if result.Todo? { break; }
      }
      assert State() == PaymentRounds(start, sessionId, btcAddress, events).(phase := Idle);
      states, results := RoundsHaveHistory(start, sessionId, btcAddress, events);
    }
  }
}
