/**
 One failure-free round: from agreeing books it takes the branch that records the
 payment, is recorded alike by both sides and leaves both owing nothing.
 */
module PaymentLockstep {
  import opened Amounts
  import opened Options
  import opened Tables
  import opened PaymentHandler
  import opened PaymentLoop
  import opened PaymentProtocol

  // ---- Opening a session ----

  datatype ProvideReply = ProvideReply(
    proxyAddress: string, feeRatePerKb: real, recipientAddress: string, clientId: string, authToken: string)

  /** `handle_http_proxy_request` reads the configured rate twice: for the metadata and for the new row. */
  function Provide(p: Provider, providing: bool, clientId: string, token: string, peer: string, proxyAddress: string,
                   metadataRate: real, rowRate: real, db: bool): (Provider, Option<ProvideReply>)
  {
    var info := ProxyClientInfo.WithDefaults(clientId, token, peer, rowRate);
    if providing && db && clientId !in p.clients && !TokenTaken(p.clients, token)
    then (p.(clients := p.clients[clientId := info]),
          Some(ProvideReply(proxyAddress, metadataRate, p.address, clientId, token)))
    else (p, None)
  }

  function FromConnectResponse(sessionId: string, peer: string, r: ProvideReply): ProxySessionInfo {
    ProxySessionInfo(sessionId, r.clientId, r.authToken, r.proxyAddress, 0.0, 0.0, 0.0, r.feeRatePerKb, peer,
                     r.recipientAddress, 1)
  }

  // ---- Agreement between rounds ----

  /** Between rounds: no reply is on its way and the next request id is new. */
  predicate Quiet(s: System) {
    s.client.phase.Idle? && s.reply.None? && forall id :: id in s.requests ==> id <= s.awaited
  }

  /** Between rounds, with both books telling the same story. */
  ghost predicate Synced(cfg: Session, s: System) {
    && Identities(cfg, s)
    && Quiet(s)
    && var row := s.provider.clients[cfg.clientId];
       var session := s.client.sessions[cfg.sessionId];
    && row.dataTransferredKb == session.dataTransferredKb
    && row.feeRatePerKb == session.feeRatePerKb
    && row.totalFeeReceived == session.totalFeeSent
    && row.totalFeeReceivedUnconfirmed == session.totalFeeSentUnconfirmed
  }

  function OwedByClient(cfg: Session, s: System): real
    requires cfg.sessionId in s.client.sessions
  {
    s.client.sessions[cfg.sessionId].GetFeeOwed()
  }

  function OwedToProvider(cfg: Session, s: System): real
    requires cfg.clientId in s.provider.clients
  {
    s.provider.clients[cfg.clientId].GetFeeOwed()
  }

  /** A node that is not configured as provider, or cannot store the client, changes nothing and opens no session. */
  lemma ProvideSucceedsIff(p: Provider, providing: bool, clientId: string, token: string, peer: string,
                           proxyAddress: string, metadataRate: real, rowRate: real, db: bool)
    ensures var (after, reply) := Provide(p, providing, clientId, token, peer, proxyAddress, metadataRate, rowRate, db);
            && (reply.Some? <==> providing && db && clientId !in p.clients && !TokenTaken(p.clients, token))
            && (reply.None? ==> after == p)
            && after.payments == p.payments && after.address == p.address
  {}

  /**
   From a provide response onward: both sides have a fresh active row under the same
   id and token, with the other's peer id and the addresses of the provider; and the
   session starts in agreement exactly if the configured rate did not change while
   the provider set the client up.
   */
  lemma ProvideStartsInAgreement(cfg: Session, p: Provider, client: Client, providerPeer: string,
                                 proxyAddress: string, metadataRate: real, rowRate: real, db: bool, s: System)
    requires ValidProvider(p)
    requires var (after, reply) := Provide(p, true, cfg.clientId, cfg.token, cfg.clientPeer, proxyAddress,
                                           metadataRate, rowRate, db);
             && reply.Some?
             && s.provider == after
             && s.client == client.(
                  sessions := client.sessions[cfg.sessionId :=
                    FromConnectResponse(cfg.sessionId, providerPeer, reply.value)])
    requires client.phase.Idle? && client.chain == [] && s.attempts == [] && s.requests == map[] && s.reply.None?
    ensures Initial(cfg, s)
    ensures Synced(cfg, s) <==> metadataRate == rowRate
    ensures var row, session := s.provider.clients[cfg.clientId], s.client.sessions[cfg.sessionId];
            && row.clientId == session.clientId == cfg.clientId && session.sessionId == cfg.sessionId
            && row.clientPeerId == cfg.clientPeer && session.providerPeerId == providerPeer
            && session.proxyAddress == proxyAddress && session.recipientAddress == p.address
            && row.feeRatePerKb == rowRate && session.feeRatePerKb == metadataRate
            && row.status == session.status == 1
    ensures forall k :: k in p.clients ==> k in s.provider.clients && s.provider.clients[k] == p.clients[k]
  {}

  // ---- One failure-free round ----

  /** Fresh names for one round: the provider's reference, the transaction, the client's row. */
  datatype Names = Names(reference: string, txId: string, paymentId: string)

  const NO_FAILURE: string -> HandlerEnv := reference => HandlerEnv(true, reference, true, true, true, true)

  function AgreeSteps(awaited: nat, names: Names): seq<Step> {
    [StartRound(true), DeliverPre(awaited + 1, NO_FAILURE(names.reference), true), TakeReply]
  }

  function PaySteps(names: Names): seq<Step> {
    [PayOnChain(Some(names.txId)), InsertRow(names.paymentId, true), CountRow(true)]
  }

  function CreditSteps(i: nat, names: Names): seq<Step> {
    [SendNotice, DeliverNotice(i, NO_FAILURE(names.reference)), TakeAnswer]
  }

  function RoundSteps(s: System, names: Names): seq<Step> {
    AgreeSteps(s.awaited, names) + PaySteps(names) + CreditSteps(|s.attempts|, names)
  }

  /** The provider records and asks for what its own books say; the client is about to pay that. */
  lemma AgreementPhase(cfg: Session, s: System, names: Names) returns (t: System)
    requires Identities(cfg, s) && Quiet(s)
    requires OwedByClient(cfg, s) != 0.0 && names.reference !in s.provider.payments
    requires VerdictFor(s.provider.clients[cfg.clientId], s.client.sessions[cfg.sessionId].dataTransferredKb,
                        OwedByClient(cfg, s), cfg.limits).InTolerance?
    ensures t == Exec(cfg, s, AgreeSteps(s.awaited, names))
    ensures t == s.(
              client := s.client.(phase := Paying(s.client.sessions[cfg.sessionId],
                                     PaymentRequest(OwedToProvider(cfg, s), names.reference, s.provider.address))),
              provider := s.provider.(payments := s.provider.payments[names.reference :=
                ExpectedPayment(names.reference, s.provider.address, OwedToProvider(cfg, s), cfg.clientPeer)]),
              awaited := s.awaited + 1, basis := t.basis)
  {
    var env := NO_FAILURE(names.reference);
    var s1 := Apply(cfg, s, StartRound(true));
    FoundRow(s.provider.clients, cfg.clientId);
    var s2 := Apply(cfg, s1, DeliverPre(s.awaited + 1, env, true));
    assert s1.requests - {s.awaited + 1} == s.requests;
    t := Apply(cfg, s2, TakeReply);
    ExecThree(cfg, s, AgreeSteps(s.awaited, names));
  }

  lemma SameClaimIsInTolerance(c: ProxyClientInfo, limits: Limits)
    requires Within(limits)
    ensures VerdictFor(c, c.dataTransferredKb, c.GetFeeOwed(), limits).InTolerance?
  {
    SameValueDiffersByZero(c.GetFeeOwed());
    SameValueDiffersByZero(c.dataTransferredKb);
  }

  predicate Within(limits: Limits) {
    limits.termination >= 0.0 && limits.feeOwed >= 0.0 && limits.dataTransfer >= 0.0
  }

  /** The limits let a client claim less than the provider computes. */
  predicate AllowsUnderclaim(limits: Limits) {
    limits.termination >= 100.0 && limits.feeOwed >= 100.0 && limits.dataTransfer >= 100.0
  }

  lemma SameValueDiffersByZero(x: real)
    ensures PercentDiff(x, x) == 0.0
  {
    if x != 0.0 {
      assert (x - x) / x == 0.0;
    }
  }

  /** The client pays, records, counts, notifies; the provider credits. */
  lemma PaymentPhase(cfg: Session, t: System, names: Names) returns (u: System)
    requires Identities(cfg, t) && t.client.phase.Paying? && t.reply.None?
    requires names.paymentId !in t.client.payments
    ensures u == Exec(cfg, t, PaySteps(names))
    ensures var request := t.client.phase.request;
            && u.provider == t.provider && u.requests == t.requests && u.awaited == t.awaited && u.reply == t.reply
            && u.client.phase == Notifying(t.client.phase.session, request, names.txId)
            && u.client.sessions == CountSent(t.client.sessions, cfg.sessionId, request.amountToSend)
            && u.client.chain == t.client.chain + [Transfer(names.txId, request.recipientAddress, request.amountToSend)]
            && u.client.payments == t.client.payments[names.paymentId :=
                 SentPayment(names.paymentId, t.client.phase.session, request, names.txId)]
            && u.attempts == t.attempts + [Attempt(Note(request, names.txId, cfg.senderAddress), Counted)]
  {
    u := Apply(cfg, Apply(cfg, Apply(cfg, t, PayOnChain(Some(names.txId))),
                          InsertRow(names.paymentId, true)), CountRow(true));
    ExecThree(cfg, t, PaySteps(names));
  }

  /** Both phases together, up to the point where the notification is about to be sent. */
  lemma AskAndPay(cfg: Session, s: System, names: Names) returns (u: System)
    requires Identities(cfg, s) && Quiet(s)
    requires OwedByClient(cfg, s) != 0.0
    requires names.reference !in s.provider.payments && names.paymentId !in s.client.payments
    requires VerdictFor(s.provider.clients[cfg.clientId], s.client.sessions[cfg.sessionId].dataTransferredKb,
                        OwedByClient(cfg, s), cfg.limits).InTolerance?
    ensures u == Exec(cfg, Exec(cfg, s, AgreeSteps(s.awaited, names)), PaySteps(names))
    ensures Identities(cfg, u)
    ensures u.requests == s.requests && u.awaited == s.awaited + 1 && u.reply.None?
    ensures u.client.phase.Notifying?
    ensures var fee := OwedToProvider(cfg, s);
            var request := PaymentRequest(fee, names.reference, s.provider.address);
            && u.client.phase.request == request
            && u.client.sessions == CountSent(s.client.sessions, cfg.sessionId, fee)
            && u.client.payments == s.client.payments[names.paymentId :=
                 SentPayment(names.paymentId, s.client.sessions[cfg.sessionId], request, names.txId)]
            && u.client.chain == s.client.chain + [Transfer(names.txId, s.provider.address, fee)]
            && u.provider == s.provider.(payments := s.provider.payments[names.reference :=
                 ExpectedPayment(names.reference, s.provider.address, fee, cfg.clientPeer)])
            && u.attempts == s.attempts + [Attempt(Note(request, names.txId, cfg.senderAddress), Counted)]
  {
    var t := AgreementPhase(cfg, s, names);
    u := PaymentPhase(cfg, t, names);
  }

  lemma NoticeCredited(cfg: Session, s: System, i: nat, names: Names) returns (t: System)
    requires Identities(cfg, s) && i < |s.attempts| && s.attempts[i].stage == InFlight
    requires s.attempts[i].note.paymentReference in s.provider.payments
    ensures t == Apply(cfg, s, DeliverNotice(i, NO_FAILURE(names.reference)))
    ensures Identities(cfg, t)
    ensures t.provider.clients == CreditClient(s.provider.clients, cfg.clientId, s.attempts[i].note.amountTransferred)
    ensures t.provider.payments.Keys == s.provider.payments.Keys
    ensures t == s.(provider := t.provider, attempts := SetStage(s.attempts, i, Credited))
    ensures var note := s.attempts[i].note;
            t.provider.payments[note.paymentReference]
              == NotifiedPayment(s.provider.payments[note.paymentReference], note)
  {
    PostPaymentEffect(s.provider, cfg.token, s.attempts[i].note, NO_FAILURE(names.reference));
    FoundRow(s.provider.clients, cfg.clientId);
    t := Apply(cfg, s, DeliverNotice(i, NO_FAILURE(names.reference)));
  }

  lemma SendAndCredit(cfg: Session, u: System, i: nat, names: Names) returns (u1: System, u2: System)
    requires Identities(cfg, u) && u.client.phase.Notifying? && |u.attempts| == i + 1
    requires u.attempts[i].note.paymentReference in u.provider.payments
    ensures u1 == Apply(cfg, u, SendNotice)
    ensures u2 == Apply(cfg, u1, DeliverNotice(i, NO_FAILURE(names.reference)))
    ensures u2 == u.(client := u.client.(phase := AwaitingPost), provider := u2.provider, attempts := u2.attempts)
    ensures Identities(cfg, u2) && u2.attempts == SetStage(u.attempts, i, Credited)
    ensures var note := u.attempts[i].note;
            && u2.provider.clients == CreditClient(u.provider.clients, cfg.clientId, note.amountTransferred)
            && u2.provider.payments.Keys == u.provider.payments.Keys
            && u2.provider.payments[note.paymentReference]
                 == NotifiedPayment(u.provider.payments[note.paymentReference], note)
  {
    u1 := u.(client := u.client.(phase := AwaitingPost), attempts := SetLast(u.attempts, InFlight));
    u2 := NoticeCredited(cfg, u1, i, names);
  }

  lemma AnswerTaken(cfg: Session, u: System) returns (v: System)
    requires Identities(cfg, u) && u.client.phase.AwaitingPost? && LastIsAnswered(u.attempts)
    ensures v == Apply(cfg, u, TakeAnswer)
    ensures v == u.(client := u.client.(phase := Idle)) && Identities(cfg, v)
  {
    v := Apply(cfg, u, TakeAnswer);
  }

  /** The notification is sent, delivered and credited. */
  lemma CreditPhase(cfg: Session, u: System, i: nat, names: Names) returns (v: System)
    requires Identities(cfg, u) && u.client.phase.Notifying? && |u.attempts| == i + 1
    requires u.attempts[i].note.paymentReference in u.provider.payments
    ensures v == Exec(cfg, u, CreditSteps(i, names))
    ensures v == u.(client := u.client.(phase := Idle), provider := v.provider, attempts := v.attempts)
    ensures Identities(cfg, v)
    ensures var note := u.attempts[i].note;
            && v.provider.clients == CreditClient(u.provider.clients, cfg.clientId, note.amountTransferred)
            && v.provider.payments.Keys == u.provider.payments.Keys
            && v.provider.payments[note.paymentReference]
                 == NotifiedPayment(u.provider.payments[note.paymentReference], note)
  {
    var u1, u2 := SendAndCredit(cfg, u, i, names);
    v := AnswerTaken(cfg, u2);
    CreditIsThreeSteps(cfg, u, u1, u2, v, i, names);
  }

  lemma CreditIsThreeSteps(cfg: Session, u: System, u1: System, u2: System, v: System, i: nat, names: Names)
    requires u1 == Apply(cfg, u, SendNotice)
    requires u2 == Apply(cfg, u1, DeliverNotice(i, NO_FAILURE(names.reference)))
    requires v == Apply(cfg, u2, TakeAnswer)
    ensures v == Exec(cfg, u, CreditSteps(i, names))
  {
    ExecThree(cfg, u, CreditSteps(i, names));
  }

  /** An idle tick changes nothing at all. */
  lemma {:induction false} IdleRound(cfg: Session, s: System, names: Names)
    requires Synced(cfg, s) && OwedByClient(cfg, s) == 0.0
    ensures Exec(cfg, s, RoundSteps(s, names)) == s
  {
    Stutter(cfg, s, RoundSteps(s, names));
  }

  lemma {:induction false} Stutter(cfg: Session, s: System, steps: seq<Step>)
    requires forall i :: 0 <= i < |steps| ==> Apply(cfg, s, steps[i]) == s
    ensures Exec(cfg, s, steps) == s
    decreases |steps|
  {
    if steps != [] {
      Stutter(cfg, s, steps[1..]);
    }
  }

  lemma PaidInFull(usageKb: real, rate: real, paid: real, unconfirmed: real)
    ensures FeeOwed(usageKb, rate, paid, unconfirmed + FeeOwed(usageKb, rate, paid, unconfirmed)) == 0.0
  {
    FeeOwedFacts(usageKb, rate, paid, unconfirmed);
  }

  /** Both payment tables hold the payment: same amount, reference, transaction and addresses. */
  predicate BothRecorded(cfg: Session, s: System, v: System, names: Names)
    requires cfg.sessionId in s.client.sessions
  {
    && names.reference in v.provider.payments && names.paymentId in v.client.payments
    && var expected := v.provider.payments[names.reference];
       var sent := v.client.payments[names.paymentId];
    && expected.expectedAmountBtc == sent.amountBtc == Some(OwedByClient(cfg, s))
    && expected.txId == sent.txId == Some(names.txId)
    && expected.status == sent.status == TransactionPending
    && expected.toAddress == sent.toAddress == s.provider.address
    && expected.fromAddress == Some(cfg.senderAddress) && sent.paymentReference == Some(names.reference)
    && expected.category == Receive && sent.category == Send
    && expected.fromPeer == Some(cfg.clientPeer)
    && sent.toPeer == Some(s.client.sessions[cfg.sessionId].providerPeerId)
  }

  lemma BusyRound(cfg: Session, s: System, names: Names) returns (v: System)
    requires Synced(cfg, s) && Within(cfg.limits) && OwedByClient(cfg, s) != 0.0
    requires names.reference !in s.provider.payments && names.paymentId !in s.client.payments
    ensures v == Exec(cfg, s, RoundSteps(s, names))
    ensures ValidProvider(v.provider) && Quiet(v) && v.requests == s.requests
    ensures v.client.sessions == CountSent(s.client.sessions, cfg.sessionId, OwedByClient(cfg, s))
    ensures v.provider.clients == CreditClient(s.provider.clients, cfg.clientId, OwedByClient(cfg, s))
    ensures BothRecorded(cfg, s, v, names)
    ensures v.client.chain == s.client.chain + [Transfer(names.txId, s.provider.address, OwedByClient(cfg, s))]
  {
    var row := s.provider.clients[cfg.clientId];
    assert VerdictFor(row, row.dataTransferredKb, row.GetFeeOwed(), cfg.limits).InTolerance? by {
      SameClaimIsInTolerance(row, cfg.limits);
    }
    var u := AskAndPay(cfg, s, names);
    v := CreditPhase(cfg, u, |s.attempts|, names);
    ExecConcat3(cfg, s, AgreeSteps(s.awaited, names), PaySteps(names), CreditSteps(|s.attempts|, names));
  }

  /**
   A round from agreement ends in agreement with both sides owing nothing; the
   client paid exactly what both said was owed, and both payment tables record
   that payment alike.
   */
  lemma LockstepRound(cfg: Session, s: System, names: Names)
    requires Synced(cfg, s) && Within(cfg.limits)
    requires names.reference !in s.provider.payments && names.paymentId !in s.client.payments
    ensures var v := Exec(cfg, s, RoundSteps(s, names));
            && Synced(cfg, v)
            && OwedByClient(cfg, v) == OwedToProvider(cfg, v) == 0.0
            && (OwedByClient(cfg, s) == 0.0 ==> v == s)
            && (OwedByClient(cfg, s) != 0.0 ==>
                  && BothRecorded(cfg, s, v, names)
                  && v.client.chain
                       == s.client.chain + [Transfer(names.txId, s.provider.address, OwedByClient(cfg, s))])
  {
    if OwedByClient(cfg, s) == 0.0 {
      IdleRound(cfg, s, names);
    } else {
      var v := BusyRound(cfg, s, names);
      PaidRoundSettles(cfg, s, v);
    }
  }

  lemma PaidRoundSettles(cfg: Session, s: System, v: System)
    requires Synced(cfg, s) && ValidProvider(v.provider) && Quiet(v) && v.requests == s.requests
    requires v.client.sessions == CountSent(s.client.sessions, cfg.sessionId, OwedByClient(cfg, s))
    requires v.provider.clients == CreditClient(s.provider.clients, cfg.clientId, OwedByClient(cfg, s))
    ensures Synced(cfg, v) && OwedByClient(cfg, v) == OwedToProvider(cfg, v) == 0.0
  {
    var row := s.provider.clients[cfg.clientId];
    PaidInFull(row.dataTransferredKb, row.feeRatePerKb, row.totalFeeReceived, row.totalFeeReceivedUnconfirmed);
  }
}
