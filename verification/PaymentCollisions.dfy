/**
 When exactly the provider credits more than was used. The bound on the credit is
 lost at a collision: the provider records a request for more money while money
 it would still credit is in flight. Without one it holds in every run; after one
 it can always be broken.
 */
module PaymentCollisions {
  import opened Amounts
  import opened Options
  import opened Tables
  import opened PaymentHandler
  import opened PaymentLoop
  import opened PaymentProtocol
  import opened PaymentBounds
  import opened PaymentLockstep

  // ---- Collisions ----

  /** A notification in flight that the provider would credit: it has a row for its reference. */
  predicate Creditable(s: System, i: nat) {
    && i < |s.attempts| && s.attempts[i].stage == InFlight
    && s.attempts[i].note.paymentReference in s.provider.payments
    && s.attempts[i].note.amountTransferred > 0.0
  }

  ghost predicate RecordsRequest(cfg: Session, s: System, step: Step)
    requires step.DeliverPre? && step.id in s.requests && s.requests[step.id].PrePaymentRequest?
  {
    var r := s.requests[step.id];
    Records(s.provider, r.authToken, r.dataTransferredKb, r.feeOwed, step.env, cfg.limits)
  }

  /**
   The provider answers the client's request, records it and asks for something,
   while an earlier notification is still to be credited. All of it is decided by
   the state before the answer.
   */
  ghost predicate Collides(cfg: Session, s: System, step: Step) {
    && Answers(s, step) && s.requests[step.id].PrePaymentRequest?
    && cfg.clientId in s.provider.clients
    && RecordsRequest(cfg, s, step)
    && OwedToProvider(cfg, s) > 0.0
    && exists i: nat :: Creditable(s, i)
  }

  ghost predicate CollisionFree(cfg: Session, s: System, steps: seq<Step>)
    decreases |steps|
  {
    steps != [] ==> !Collides(cfg, s, steps[0]) && CollisionFree(cfg, Apply(cfg, s, steps[0]), steps[1..])
  }

  ghost predicate Overcredited(cfg: Session, s: System) {
    cfg.clientId in s.provider.clients && !WithinUsage(s.provider.clients[cfg.clientId])
  }

  /** From `s` on, without a collision, the provider can come to credit too much. */
  ghost predicate CanOvercredit(cfg: Session, s: System) {
    exists rest :: FreshReferences(cfg, s, rest) && CollisionFree(cfg, s, rest) && Overcredited(cfg, Exec(cfg, s, rest))
  }

  // ---- Uuids are new ----

  /** The client has been given `ref`. */
  predicate Uses(s: System, ref: string) {
    || (Asks(s.reply) && s.reply.value.decision.request.paymentReference == ref)
    || (Holds(s.client.phase) && s.client.phase.request.paymentReference == ref)
    || exists i :: 0 <= i < |s.attempts| && s.attempts[i].note.paymentReference == ref
  }

  predicate FreshReference(s: System, step: Step) {
    match step
    case DeliverPre(_, env, _) => !Uses(s, env.reference) && env.reference !in s.provider.payments
    case OtherRequest(PrePaymentRequest(_, _, _, _), _, env) => !Uses(s, env.reference)
    case _ => true
  }

  /** Every uuid the provider draws differs from those it has given to the client and from its rows. */
  ghost predicate FreshReferences(cfg: Session, s: System, steps: seq<Step>)
    decreases |steps|
  {
    steps != [] ==> FreshReference(s, steps[0]) && FreshReferences(cfg, Apply(cfg, s, steps[0]), steps[1..])
  }

  // ---- What may still be credited ----

  function KnownPart(a: Attempt, known: set<string>): real {
    if a.stage == InFlight && a.note.paymentReference in known then a.note.amountTransferred else 0.0
  }

  function KnownTotal(attempts: seq<Attempt>, known: set<string>): real {
    if attempts == [] then 0.0
    else KnownTotal(attempts[..|attempts| - 1], known) + KnownPart(attempts[|attempts| - 1], known)
  }

  function RequestPart(request: PaymentRequest, known: set<string>): real {
    if request.paymentReference in known then request.amountToSend else 0.0
  }

  function AskedPart(reply: Option<Response>, known: set<string>): real {
    if Asks(reply) then RequestPart(reply.value.decision.request, known) else 0.0
  }

  function HeldPart(phase: Phase, known: set<string>): real {
    if Holds(phase) then RequestPart(phase.request, known) else 0.0
  }

  /** Money that can still reach the credit: asked for, in the client's hands or in flight, with a row. */
  function Pledged(s: System): real {
    var known := s.provider.payments.Keys;
    AskedPart(s.reply, known) + HeldPart(s.client.phase, known) + KnownTotal(s.attempts, known)
  }

  ghost predicate Covered(cfg: Session, s: System)
    requires cfg.clientId in s.provider.clients
  {
    var c := s.provider.clients[cfg.clientId];
    c.feeRatePerKb >= 0.0 && CreditedTotal(c) + Pledged(s) <= Charge(c) + HALF_SATOSHI
  }

  lemma {:induction false} KnownUpdate(attempts: seq<Attempt>, i: nat, a: Attempt, known: set<string>)
    requires i < |attempts|
    ensures KnownTotal(attempts[i := a], known)
            == KnownTotal(attempts, known) - KnownPart(attempts[i], known) + KnownPart(a, known)
  {
    var n := |attempts| - 1;
    if i == n {
      assert attempts[i := a][..n] == attempts[..n];
    } else {
      KnownUpdate(attempts[..n], i, a, known);
      assert attempts[i := a][..n] == attempts[..n][i := a];
    }
  }

  lemma KnownAppend(attempts: seq<Attempt>, a: Attempt, known: set<string>)
    ensures KnownTotal(attempts + [a], known) == KnownTotal(attempts, known) + KnownPart(a, known)
  {
    assert (attempts + [a])[..|attempts|] == attempts;
  }

  /** A new row for a reference no attempt carries makes nothing creditable. */
  lemma {:induction false} KnownNewRow(attempts: seq<Attempt>, known: set<string>, ref: string)
    requires forall i :: 0 <= i < |attempts| ==> attempts[i].note.paymentReference != ref
    ensures KnownTotal(attempts, known + {ref}) == KnownTotal(attempts, known)
  {
    if attempts != [] {
      KnownNewRow(attempts[..|attempts| - 1], known, ref);
    }
  }

  lemma {:induction false} KnownIsNonNegative(attempts: seq<Attempt>, known: set<string>)
    requires forall i :: 0 <= i < |attempts| ==> WholeAmount(attempts[i].note.amountTransferred)
    ensures KnownTotal(attempts, known) >= 0.0
    ensures (forall i :: 0 <= i < |attempts| ==> KnownPart(attempts[i], known) == 0.0) ==>
              KnownTotal(attempts, known) == 0.0
  {
    if attempts != [] {
      KnownIsNonNegative(attempts[..|attempts| - 1], known);
      assert WholeAmount(attempts[|attempts| - 1].note.amountTransferred);
    }
  }

  // ---- Every step without a collision keeps the money covered ----

  /** The whole provider side of a step that only adds rows: nothing new is pledged. */
  lemma NewRowKeepsCovered(cfg: Session, s: System, after: System, ref: string)
    requires cfg.clientId in s.provider.clients && Covered(cfg, s)
    requires cfg.clientId in after.provider.clients
    requires after.provider.clients[cfg.clientId] == s.provider.clients[cfg.clientId]
    requires after.client == s.client && after.reply == s.reply && after.attempts == s.attempts
    requires after.provider.payments.Keys == s.provider.payments.Keys
             || (after.provider.payments.Keys == s.provider.payments.Keys + {ref} && !Uses(s, ref))
    ensures Covered(cfg, after)
  {
    if !Uses(s, ref) {
      KnownNewRow(s.attempts, s.provider.payments.Keys, ref);
    }
  }

  lemma OtherPartyKeepsCovered(cfg: Session, sentBefore: real, s: System, step: Step)
    requires Inv(cfg, sentBefore, s) && Covered(cfg, s) && (step.OtherRequest? || step.OtherClient?)
    requires FreshReference(s, step)
    ensures cfg.clientId in Apply(cfg, s, step).provider.clients && Covered(cfg, Apply(cfg, s, step))
  {
    ProviderStepKeepsInv(cfg, sentBefore, s, step);
    var after := Apply(cfg, s, step);
    if step.OtherRequest? && Enabled(cfg, s, step) {
      OtherRequestKeys(s.provider, step.request, step.peer, step.env, cfg.limits);
      NewRowKeepsCovered(cfg, s, after, step.env.reference);
    } else {
      NewRowKeepsCovered(cfg, s, after, "");
    }
  }

  lemma OtherRequestKeys(p: Provider, request: Request, peer: string, env: HandlerEnv, limits: Limits)
    requires ValidProvider(p)
    ensures var after := HandlePayment(p, request, peer, env, limits).0;
            || after.payments.Keys == p.payments.Keys
            || (request.PrePaymentRequest? && after.payments.Keys == p.payments.Keys + {env.reference})
  {
    match request {
      case PrePaymentRequest(_, token, dataKb, feeOwed) =>
        PrePaymentEffect(p, token, dataKb, feeOwed, peer, env, limits);
      case PostPaymentNotification(_, token, note) => PostPaymentEffect(p, token, note, env);
    }
  }

  /** What a delivered pre-payment request does to the provider, and to the reply if it is the awaited one. */
  lemma DeliveredFacts(cfg: Session, sentBefore: real, s: System, step: Step) returns (after: System)
    requires Inv(cfg, sentBefore, s) && step.DeliverPre? && Enabled(cfg, s, step)
    ensures after == Apply(cfg, s, step)
    ensures after == s.(provider := after.provider, requests := after.requests, reply := after.reply,
                        basis := after.basis)
    ensures after.provider.clients == s.provider.clients
    ensures if RecordsRequest(cfg, s, step)
            then after.provider.payments.Keys == s.provider.payments.Keys + {step.env.reference}
            else after.provider.payments.Keys == s.provider.payments.Keys
    ensures !Answers(s, step) ==> after.reply == s.reply
    ensures Answers(s, step) && Asks(after.reply) ==>
              && after.reply.value.decision.request.paymentReference == step.env.reference
              && after.reply.value.decision.request.amountToSend == OwedToProvider(cfg, s)
    ensures Answers(s, step) && RecordsRequest(cfg, s, step) ==> Asks(after.reply)
  {
    var r := s.requests[step.id];
    PrePaymentEffect(s.provider, r.authToken, r.dataTransferredKb, r.feeOwed, cfg.clientPeer, step.env, cfg.limits);
    FoundRow(s.provider.clients, cfg.clientId);
    after := Apply(cfg, s, step);
  }

  lemma AnswerKeepsCovered(cfg: Session, sentBefore: real, s: System, step: Step)
    requires Inv(cfg, sentBefore, s) && Covered(cfg, s) && Answers(s, step)
    requires FreshReference(s, step) && !Collides(cfg, s, step)
    ensures cfg.clientId in Apply(cfg, s, step).provider.clients && Covered(cfg, Apply(cfg, s, step))
  {
    var after := DeliveredFacts(cfg, sentBefore, s, step);
    var fee, due := RowFee(s.provider.clients[cfg.clientId]);
    var before, known, ref := s.provider.payments.Keys, after.provider.payments.Keys, step.env.reference;
    KnownNewRow(s.attempts, before, ref);
    assert KnownTotal(s.attempts, known) == KnownTotal(s.attempts, before);
    if AskedPart(after.reply, known) != 0.0 {
      assert ref in known;
      NothingInFlight(s);
    }
  }

  lemma NothingInFlight(s: System)
    requires forall i :: 0 <= i < |s.attempts| ==> WholeAmount(s.attempts[i].note.amountTransferred)
    requires forall i: nat :: !Creditable(s, i)
    ensures KnownTotal(s.attempts, s.provider.payments.Keys) == 0.0
  {
    var known := s.provider.payments.Keys;
    forall i | 0 <= i < |s.attempts|
      ensures KnownPart(s.attempts[i], known) == 0.0
    {
      assert !Creditable(s, i) && WholeAmount(s.attempts[i].note.amountTransferred);
    }
    KnownIsNonNegative(s.attempts, known);
  }

  lemma DeliveryKeepsCovered(cfg: Session, sentBefore: real, s: System, step: Step)
    requires Inv(cfg, sentBefore, s) && Covered(cfg, s) && step.DeliverPre?
    requires FreshReference(s, step) && !Collides(cfg, s, step)
    ensures cfg.clientId in Apply(cfg, s, step).provider.clients && Covered(cfg, Apply(cfg, s, step))
  {
    if Answers(s, step) {
      AnswerKeepsCovered(cfg, sentBefore, s, step);
    } else if Enabled(cfg, s, step) {
      var after := DeliveredFacts(cfg, sentBefore, s, step);
      NewRowKeepsCovered(cfg, s, after, step.env.reference);
    }
  }

  lemma MeterKeepsCovered(cfg: Session, sentBefore: real, s: System, step: Step)
    requires Inv(cfg, sentBefore, s) && Covered(cfg, s) && step.MeterAtProvider?
    ensures cfg.clientId in Apply(cfg, s, step).provider.clients && Covered(cfg, Apply(cfg, s, step))
  {
    if Enabled(cfg, s, step) && step.db {
      var c, after := s.provider.clients[cfg.clientId], Apply(cfg, s, step);
      MeteredCharge(c, step.kb);
      ChargedMoreIsCovered(cfg, s, after, after.provider.clients[cfg.clientId]);
    }
  }

  lemma ChargedMoreIsCovered(cfg: Session, s: System, after: System, now: ProxyClientInfo)
    requires cfg.clientId in s.provider.clients && Covered(cfg, s) && after == s.(provider := after.provider)
    requires cfg.clientId in after.provider.clients && after.provider.clients[cfg.clientId] == now
    requires after.provider.payments == s.provider.payments
    requires now == s.provider.clients[cfg.clientId].(dataTransferredKb := now.dataTransferredKb)
    requires Charge(now) >= Charge(s.provider.clients[cfg.clientId])
    ensures Covered(cfg, after)
  {}

  /** A step of the client that pledges no more than before. */
  lemma ClientKeepsCovered(cfg: Session, s: System, after: System)
    requires cfg.clientId in s.provider.clients && Covered(cfg, s) && after.provider == s.provider
    requires Pledged(after) <= Pledged(s)
    ensures Covered(cfg, after)
  {}

  lemma LocalStepKeepsCovered(cfg: Session, sentBefore: real, s: System, step: Step)
    requires Inv(cfg, sentBefore, s) && Covered(cfg, s)
    requires step.MeterAtClient? || step.StartRound? || step.LosePre? || step.TakeAnswer? || step.GiveUp?
             || step.TakeReply? || step.FailPre?
    ensures cfg.clientId in Apply(cfg, s, step).provider.clients && Covered(cfg, Apply(cfg, s, step))
  {
    var after := Apply(cfg, s, step);
    assert after.attempts == s.attempts && after.provider == s.provider;
    ClientKeepsCovered(cfg, s, after);
  }

  /** A new attempt that is not in flight yet; the client still holds the request. */
  lemma NewAttemptIsCovered(cfg: Session, s: System, after: System, a: Attempt)
    requires cfg.clientId in s.provider.clients && Covered(cfg, s) && after.provider == s.provider
    requires after.reply == s.reply && after.attempts == s.attempts + [a] && a.stage == Transferred
    requires Holds(s.client.phase) && Holds(after.client.phase)
    requires after.client.phase.request == s.client.phase.request
    ensures Covered(cfg, after)
  {
    KnownAppend(s.attempts, a, s.provider.payments.Keys);
  }

  lemma DroppedRequestIsCovered(cfg: Session, s: System, after: System)
    requires cfg.clientId in s.provider.clients && Covered(cfg, s) && after.provider == s.provider
    requires after.reply == s.reply && after.attempts == s.attempts && after.client.phase.Idle?
    requires Holds(s.client.phase) && s.client.phase.request.amountToSend >= 0.0
    ensures Covered(cfg, after)
  {}

  lemma TransferKeepsCovered(cfg: Session, sentBefore: real, s: System, step: Step)
    requires Inv(cfg, sentBefore, s) && Covered(cfg, s) && step.PayOnChain?
    ensures cfg.clientId in Apply(cfg, s, step).provider.clients && Covered(cfg, Apply(cfg, s, step))
  {
    if Enabled(cfg, s, step) {
      var after := Apply(cfg, s, step);
      if step.txId.Some? {
        NewAttemptIsCovered(cfg, s, after, after.attempts[|s.attempts|]);
      } else {
        DroppedRequestIsCovered(cfg, s, after);
      }
    }
  }

  /** The last attempt moves one stage on, or the client gives up. */
  lemma CarriedCovered(cfg: Session, s: System, after: System)
    requires cfg.clientId in s.provider.clients && Covered(cfg, s) && after.provider == s.provider
    requires after.reply == s.reply && Holds(s.client.phase) && s.client.phase.request.amountToSend >= 0.0
    requires s.attempts != [] && s.attempts[|s.attempts| - 1].stage != InFlight
    requires var n := |s.attempts| - 1;
             || (after.attempts == s.attempts && after.client.phase.Idle?)
             || (&& Holds(after.client.phase) && after.client.phase.request == s.client.phase.request
                 && (after.attempts == SetStage(s.attempts, n, Recorded)
                     || after.attempts == SetStage(s.attempts, n, Counted)))
             || (&& after.client.phase.AwaitingPost? && after.attempts == SetStage(s.attempts, n, InFlight)
                 && s.attempts[n].note.amountTransferred == s.client.phase.request.amountToSend
                 && s.attempts[n].note.paymentReference == s.client.phase.request.paymentReference)
    ensures Covered(cfg, after)
  {
    var n := |s.attempts| - 1;
    if after.attempts != s.attempts {
      KnownUpdate(s.attempts, n, after.attempts[n], s.provider.payments.Keys);
    }
    ClientKeepsCovered(cfg, s, after);
  }

  lemma MoneyStepKeepsCovered(cfg: Session, sentBefore: real, s: System, step: Step)
    requires Inv(cfg, sentBefore, s) && Covered(cfg, s)
    requires step.InsertRow? || step.CountRow? || step.SendNotice?
    ensures cfg.clientId in Apply(cfg, s, step).provider.clients && Covered(cfg, Apply(cfg, s, step))
  {
    if Enabled(cfg, s, step) {
      assert WholeAmount(s.attempts[|s.attempts| - 1].note.amountTransferred);
      CarriedCovered(cfg, s, Apply(cfg, s, step));
    }
  }

  lemma LossKeepsCovered(cfg: Session, sentBefore: real, s: System, step: Step)
    requires Inv(cfg, sentBefore, s) && Covered(cfg, s) && step.LoseNotice? && Enabled(cfg, s, step)
    ensures cfg.clientId in Apply(cfg, s, step).provider.clients && Covered(cfg, Apply(cfg, s, step))
  {
    assert WholeAmount(s.attempts[step.i].note.amountTransferred);
    SettledPledge(cfg, s, Apply(cfg, s, step), step.i);
  }

  lemma NoticeKeepsCovered(cfg: Session, sentBefore: real, s: System, step: Step)
    requires Inv(cfg, sentBefore, s) && Covered(cfg, s) && step.DeliverNotice? && Enabled(cfg, s, step)
    ensures cfg.clientId in Apply(cfg, s, step).provider.clients && Covered(cfg, Apply(cfg, s, step))
  {
    assert WholeAmount(s.attempts[step.i].note.amountTransferred);
    var after := NoticeOutcome(cfg, s, step.i, step.env);
    PostPaymentEffect(s.provider, cfg.token, s.attempts[step.i].note, step.env);
    SettledPledge(cfg, s, after, step.i);
  }

  lemma SettledPledge(cfg: Session, s: System, after: System, i: nat)
    requires cfg.clientId in s.provider.clients && Covered(cfg, s)
    requires i < |s.attempts| && s.attempts[i].stage == InFlight
    requires |after.attempts| == |s.attempts| && after.attempts[i].stage in {Lost, Refused, Credited}
    requires after == s.(provider := after.provider, attempts := SetStage(s.attempts, i, after.attempts[i].stage))
    requires after.provider.payments.Keys == s.provider.payments.Keys
    requires after.provider.clients == if after.attempts[i].stage == Credited
             then CreditClient(s.provider.clients, cfg.clientId, s.attempts[i].note.amountTransferred)
             else s.provider.clients
    requires after.attempts[i].stage == Credited ==> s.attempts[i].note.paymentReference in s.provider.payments
    requires s.attempts[i].note.amountTransferred >= 0.0
    ensures cfg.clientId in after.provider.clients && Covered(cfg, after)
  {
    KnownUpdate(s.attempts, i, after.attempts[i], s.provider.payments.Keys);
  }

  lemma StepKeepsCovered(cfg: Session, sentBefore: real, s: System, step: Step)
    requires Inv(cfg, sentBefore, s) && Covered(cfg, s)
    requires FreshReference(s, step) && !Collides(cfg, s, step)
    ensures cfg.clientId in Apply(cfg, s, step).provider.clients && Covered(cfg, Apply(cfg, s, step))
  {
    match step
    case DeliverPre(_, _, _) => DeliveryKeepsCovered(cfg, sentBefore, s, step);
    case DeliverNotice(_, _) =>
      if Enabled(cfg, s, step) {
        NoticeKeepsCovered(cfg, sentBefore, s, step);
      }
    case LoseNotice(_) =>
      if Enabled(cfg, s, step) {
        LossKeepsCovered(cfg, sentBefore, s, step);
      }
    case MeterAtProvider(_, _) => MeterKeepsCovered(cfg, sentBefore, s, step);
    case PayOnChain(_) => TransferKeepsCovered(cfg, sentBefore, s, step);
    case InsertRow(_, _) => MoneyStepKeepsCovered(cfg, sentBefore, s, step);
    case CountRow(_) => MoneyStepKeepsCovered(cfg, sentBefore, s, step);
    case SendNotice => MoneyStepKeepsCovered(cfg, sentBefore, s, step);
    case OtherRequest(_, _, _) => OtherPartyKeepsCovered(cfg, sentBefore, s, step);
    case OtherClient(_, _) => OtherPartyKeepsCovered(cfg, sentBefore, s, step);
    case _ => LocalStepKeepsCovered(cfg, sentBefore, s, step);
  }

  lemma {:induction false} RunKeepsCovered(cfg: Session, sentBefore: real, s: System, steps: seq<Step>)
    requires Inv(cfg, sentBefore, s) && Covered(cfg, s)
    requires FreshReferences(cfg, s, steps) && CollisionFree(cfg, s, steps)
    ensures Inv(cfg, sentBefore, Exec(cfg, s, steps)) && Covered(cfg, Exec(cfg, s, steps))
    decreases |steps|
  {
    if steps != [] {
      StepKeepsInv(cfg, sentBefore, s, steps[0]);
      StepKeepsCovered(cfg, sentBefore, s, steps[0]);
      RunKeepsCovered(cfg, sentBefore, Apply(cfg, s, steps[0]), steps[1..]);
    }
  }

  lemma CoveredIsNotOvercredited(cfg: Session, sentBefore: real, s: System)
    requires Inv(cfg, sentBefore, s) && Covered(cfg, s)
    ensures !Overcredited(cfg, s)
  {
    KnownIsNonNegative(s.attempts, s.provider.payments.Keys);
    if Holds(s.client.phase) && !s.client.phase.Paying? {
      assert WholeAmount(s.attempts[|s.attempts| - 1].note.amountTransferred);
    }
    WithinCharge(s.provider.clients[cfg.clientId]);
  }

  // ---- After a collision it can always be broken ----

  /** The client pays what it is asked for and both notifications arrive. */
  function Collect(n: nat, i: nat, names: Names): seq<Step> {
    [TakeReply] + PaySteps(names)
      + [SendNotice, DeliverNotice(n, NO_FAILURE(names.reference)), DeliverNotice(i, NO_FAILURE(names.reference))]
  }

  lemma CollisionIsPaid(cfg: Session, sentBefore: real, s: System, step: Step, names: Names)
    returns (after: System, paid: System)
    requires Inv(cfg, sentBefore, s) && Collides(cfg, s, step)
    requires names.paymentId !in s.client.payments
    ensures after == Apply(cfg, s, step)
    ensures paid == Exec(cfg, Exec(cfg, after, [TakeReply]), PaySteps(names))
    ensures Identities(cfg, paid) && paid.client.phase.Notifying?
    ensures paid.provider.clients == s.provider.clients
    ensures s.provider.payments.Keys <= paid.provider.payments.Keys
    ensures var n := |s.attempts|;
            && |paid.attempts| == n + 1 && paid.attempts[..n] == s.attempts
            && paid.attempts[n].note.amountTransferred == OwedToProvider(cfg, s)
            && paid.attempts[n].note.paymentReference in paid.provider.payments
  {
    StepKeepsInv(cfg, sentBefore, s, step);
    after := DeliveredFacts(cfg, sentBefore, s, step);
    var asked := Apply(cfg, after, TakeReply);
    ExecCons(cfg, after, [TakeReply]);
    paid := PaymentPhase(cfg, asked, names);
  }

  lemma CollisionOvercredits(cfg: Session, sentBefore: real, s: System, step: Step, i: nat, names: Names)
    requires Inv(cfg, sentBefore, s) && Collides(cfg, s, step) && Creditable(s, i)
    requires names.paymentId !in s.client.payments
    ensures Overcredited(cfg, Exec(cfg, Apply(cfg, s, step), Collect(|s.attempts|, i, names)))
  {
    var n := |s.attempts|;
    var after, paid := CollisionIsPaid(cfg, sentBefore, s, step, names);
    assert paid.attempts[i] == paid.attempts[..n][i];
    var end := BothCredited(cfg, paid, n, i, names);
    ExecConcat3(cfg, after, [TakeReply], PaySteps(names),
                [SendNotice, DeliverNotice(n, NO_FAILURE(names.reference)),
                 DeliverNotice(i, NO_FAILURE(names.reference))]);
    assert WholeAmount(s.attempts[i].note.amountTransferred);
    CreditedOver(s.provider.clients[cfg.clientId], s.attempts[i].note.amountTransferred,
                 end.provider.clients[cfg.clientId]);
  }

  /** The whole fee and any whole amount on top of it are too much. */
  lemma CreditedOver(c: ProxyClientInfo, amount: real, now: ProxyClientInfo)
    requires WholeAmount(amount) && amount > 0.0
    requires now == c.(totalFeeReceivedUnconfirmed := c.totalFeeReceivedUnconfirmed + c.GetFeeOwed() + amount)
    ensures !WithinUsage(now)
  {
    FeeOwedFacts(c.dataTransferredKb, c.feeRatePerKb, c.totalFeeReceived, c.totalFeeReceivedUnconfirmed);
    WholeAmounts(amount, amount);
  }

  lemma BothCredited(cfg: Session, u: System, n: nat, i: nat, names: Names) returns (v: System)
    requires Identities(cfg, u) && u.client.phase.Notifying? && |u.attempts| == n + 1 && i < n
    requires u.attempts[n].note.paymentReference in u.provider.payments
    requires u.attempts[i].stage == InFlight && u.attempts[i].note.paymentReference in u.provider.payments
    ensures v == Exec(cfg, u, [SendNotice, DeliverNotice(n, NO_FAILURE(names.reference)),
                               DeliverNotice(i, NO_FAILURE(names.reference))])
    ensures v.provider.clients
            == CreditClient(CreditClient(u.provider.clients, cfg.clientId, u.attempts[n].note.amountTransferred),
                            cfg.clientId, u.attempts[i].note.amountTransferred)
  {
    var steps := [SendNotice, DeliverNotice(n, NO_FAILURE(names.reference)),
                  DeliverNotice(i, NO_FAILURE(names.reference))];
    var u1, u2 := SendAndCredit(cfg, u, n, names);
    v := NoticeCredited(cfg, u2, i, names);
    ExecThree(cfg, u, steps);
  }

  lemma {:induction false} QuietRun(cfg: Session, s: System, steps: seq<Step>)
    requires forall i :: 0 <= i < |steps| ==> !steps[i].DeliverPre? && !steps[i].OtherRequest?
    ensures FreshReferences(cfg, s, steps) && CollisionFree(cfg, s, steps)
    decreases |steps|
  {
    if steps != [] {
      QuietRun(cfg, Apply(cfg, s, steps[0]), steps[1..]);
    }
  }

  // ---- Main results ----

  lemma InitialIsCovered(cfg: Session, s0: System)
    requires Initial(cfg, s0) && s0.provider.clients[cfg.clientId].feeRatePerKb >= 0.0
    ensures Inv(cfg, SumBy(s0.client.payments, SentAmount), s0) && Covered(cfg, s0)
  {}

  /** Whatever is abandoned, lost or late: without a collision the provider never credits more than was used. */
  lemma CollisionFreeRunsNeverOvercredit(cfg: Session, s0: System, steps: seq<Step>)
    requires Initial(cfg, s0) && s0.provider.clients[cfg.clientId].feeRatePerKb >= 0.0
    requires FreshReferences(cfg, s0, steps) && CollisionFree(cfg, s0, steps)
    ensures !Overcredited(cfg, Exec(cfg, s0, steps))
  {
    var sentBefore := SumBy(s0.client.payments, SentAmount);
    InitialIsCovered(cfg, s0);
    RunKeepsCovered(cfg, sentBefore, s0, steps);
    CoveredIsNotOvercredited(cfg, sentBefore, Exec(cfg, s0, steps));
  }

  /**
   The condition is exact. After any run without a collision, the next step can
   lead to overcrediting, without any collision later, if and only if it is a
   collision itself.
   */
  lemma OvercreditIffCollision(cfg: Session, s0: System, before: seq<Step>, step: Step, names: Names, s: System)
    requires Initial(cfg, s0) && s0.provider.clients[cfg.clientId].feeRatePerKb >= 0.0
    requires FreshReferences(cfg, s0, before) && CollisionFree(cfg, s0, before) && s == Exec(cfg, s0, before)
    requires FreshReference(s, step) && names.paymentId !in s.client.payments
    ensures Collides(cfg, s, step) <==> CanOvercredit(cfg, Apply(cfg, s, step))
  {
    var sentBefore := SumBy(s0.client.payments, SentAmount);
    InitialIsCovered(cfg, s0);
    RunKeepsCovered(cfg, sentBefore, s0, before);
    if Collides(cfg, s, step) {
      CollisionCanOvercredit(cfg, sentBefore, s, step, names);
    } else {
      SafeStepCannotOvercredit(cfg, sentBefore, s, step);
    }
  }

  lemma CollisionCanOvercredit(cfg: Session, sentBefore: real, s: System, step: Step, names: Names)
    requires Inv(cfg, sentBefore, s) && Collides(cfg, s, step) && names.paymentId !in s.client.payments
    ensures CanOvercredit(cfg, Apply(cfg, s, step))
  {
    var i: nat :| Creditable(s, i);
    var rest := Collect(|s.attempts|, i, names);
    CollisionOvercredits(cfg, sentBefore, s, step, i, names);
    QuietRun(cfg, Apply(cfg, s, step), rest);
  }

  lemma SafeStepCannotOvercredit(cfg: Session, sentBefore: real, s: System, step: Step)
    requires Inv(cfg, sentBefore, s) && Covered(cfg, s)
    requires FreshReference(s, step) && !Collides(cfg, s, step)
    ensures !CanOvercredit(cfg, Apply(cfg, s, step))
  {
    StepKeepsInv(cfg, sentBefore, s, step);
    StepKeepsCovered(cfg, sentBefore, s, step);
    var after := Apply(cfg, s, step);
    forall rest | FreshReferences(cfg, after, rest) && CollisionFree(cfg, after, rest)
      ensures !Overcredited(cfg, Exec(cfg, after, rest))
    {
      RunKeepsCovered(cfg, sentBefore, after, rest);
      CoveredIsNotOvercredited(cfg, sentBefore, Exec(cfg, after, rest));
    }
  }
}
