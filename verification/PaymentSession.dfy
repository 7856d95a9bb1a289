/**
 Sessions in which nothing fails, step by step: client, provider, metering on both
 sides and other clients interleave in any way. Every request is answered, paid and
 notified; the two books then agree between rounds exactly as long as no claim was
 beyond the termination threshold when the provider answered it.
 */
module PaymentSession {
  import opened Amounts
  import opened Options
  import opened Tables
  import opened PaymentHandler
  import opened PaymentLoop
  import opened PaymentProtocol
  import opened PaymentBounds
  import opened PaymentLockstep
  import opened PaymentCollisions

  // ---- Steps of a session in which nothing fails ----

  predicate HandlerWorks(env: HandlerEnv) {
    env.lookupDb && env.insertDb && env.findDb && env.updateDb && env.creditDb
  }

  /** No statement of the session fails, no message is lost, the client waits, uuids are new. */
  ghost predicate Calm(cfg: Session, s: System, step: Step) {
    match step
    case MeterAtClient(_, db) => db
    case MeterAtProvider(_, db) => db
    case StartRound(db) => db
    case DeliverPre(_, env, kept) => kept && HandlerWorks(env) && FreshReference(s, step)
    case LosePre(_) => false
    case FailPre => false
    case PayOnChain(txId) => txId.Some?
    case InsertRow(paymentId, db) => db && paymentId !in s.client.payments
    case CountRow(db) => db
    case GiveUp => false
    case DeliverNotice(_, env) => HandlerWorks(env)
    case LoseNotice(_) => false
    case _ => FreshReference(s, step)
  }

  ghost predicate CalmRun(cfg: Session, s: System, steps: seq<Step>)
    decreases |steps|
  {
    steps != [] ==> Calm(cfg, s, steps[0]) && CalmRun(cfg, Apply(cfg, s, steps[0]), steps[1..])
  }

  /** A request of this session arrives at the provider. */
  ghost predicate Delivers(cfg: Session, s: System, step: Step) {
    && step.DeliverPre? && step.id in s.requests && s.requests[step.id].PrePaymentRequest?
    && cfg.clientId in s.provider.clients
  }

  /** What the provider makes of the claim that arrives, by its own row at that moment. */
  ghost function VerdictOn(cfg: Session, s: System, step: Step): Verdict
    requires Delivers(cfg, s, step)
  {
    var r := s.requests[step.id];
    VerdictFor(s.provider.clients[cfg.clientId], r.dataTransferredKb, r.feeOwed, cfg.limits)
  }

  /** The guard of the branch that accepts without a row, with something to pay. */
  ghost predicate Drifts(cfg: Session, s: System, step: Step) {
    Delivers(cfg, s, step) && VerdictOn(cfg, s, step).OverTermination? && OwedToProvider(cfg, s) > 0.0
  }

  ghost predicate SomeDrift(cfg: Session, s: System, steps: seq<Step>)
    decreases |steps|
  {
    steps != [] && (Drifts(cfg, s, steps[0]) || SomeDrift(cfg, Apply(cfg, s, steps[0]), steps[1..]))
  }

  // ---- The invariant ----

  predicate Rows(row: ProxyClientInfo, session: ProxySessionInfo) {
    row.feeRatePerKb == session.feeRatePerKb && row.totalFeeReceived == session.totalFeeSent == 0.0
  }

  predicate Settled(stage: Stage) { stage == Credited || stage == Refused }

  predicate LastMayBe(phase: Phase, stage: Stage) {
    match phase
    case Recording(_, _, _) => stage == Transferred
    case Counting(_, _, _) => stage == Recorded
    case Notifying(_, _, _) => stage == Counted
    case AwaitingPost => stage == InFlight || Settled(stage)
    case _ => Settled(stage)
  }

  predicate NeedsAttempt(phase: Phase) {
    phase.Recording? || phase.Counting? || phase.Notifying? || phase.AwaitingPost?
  }

  /** Every payment but the one being made has been answered by the provider. */
  predicate Trail(phase: Phase, attempts: seq<Attempt>) {
    && (NeedsAttempt(phase) ==> attempts != [])
    && (forall i :: 0 <= i < |attempts| - 1 ==> Settled(attempts[i].stage))
    && (attempts != [] ==> LastMayBe(phase, attempts[|attempts| - 1].stage))
  }

  /** At most the awaited request is on its way. */
  predicate OneRequest(s: System) {
    && s.requests == (if s.client.phase.AwaitingPre? && s.reply.None?
                      then map[s.awaited := PreRequest(s.client.phase.session)] else map[])
    && (s.reply.Some? ==> s.reply.value.PrePaymentReply? && s.client.phase.AwaitingPre?)
  }

  predicate Unpaid(request: PaymentRequest, known: set<string>) {
    request.paymentReference !in known && request.amountToSend > 0.0
  }

  predicate LostAttempt(a: Attempt, known: set<string>) {
    && a.note.amountTransferred > 0.0
    && (a.stage == Refused || (a.stage == InFlight && a.note.paymentReference !in known))
  }

  /** Money that was or will be paid for a reference without a row. */
  predicate LostMoney(s: System) {
    var known := s.provider.payments.Keys;
    || (Asks(s.reply) && Unpaid(s.reply.value.decision.request, known))
    || (Holds(s.client.phase) && Unpaid(s.client.phase.request, known))
    || exists i :: 0 <= i < |s.attempts| && LostAttempt(s.attempts[i], known)
  }

  /** What is asked for, in hand or in flight. */
  function Pending(s: System): real {
    Promised(s.reply) + InHand(s.client.phase)
      + (if s.attempts != [] then Part(s.attempts[|s.attempts| - 1], {InFlight}) else 0.0)
  }

  /** Some request of the provider has been answered in this session. */
  predicate Started(s: System) { s.attempts != [] || Asks(s.reply) || Holds(s.client.phase) }

  /** Credit and pending money leave less than half a satoshi of the last answered charge, if that was not refused. */
  predicate Settling(cfg: Session, s: System)
    requires cfg.clientId in s.provider.clients
  {
    Started(s) && (s.reply.Some? ==> Asks(s.reply)) && !s.client.phase.Panicked? ==>
      s.basis - CreditedTotal(s.provider.clients[cfg.clientId]) - Pending(s) < HALF_SATOSHI
  }

  ghost predicate Steady(cfg: Session, s: System, drifted: bool) {
    && cfg.clientId in s.provider.clients && cfg.sessionId in s.client.sessions
    && Rows(s.provider.clients[cfg.clientId], s.client.sessions[cfg.sessionId])
    && Trail(s.client.phase, s.attempts)
    && OneRequest(s)
    && (drifted <==> LostMoney(s))
    && (!drifted ==> Settling(cfg, s))
  }

  // ---- Every step keeps it ----

  /** A provider that only gains rows nobody in this session refers to, and may meter. */
  lemma ProviderStepKeepsSteady(cfg: Session, s: System, after: System, ref: string, drifted: bool)
    requires Steady(cfg, s, drifted) && after == s.(provider := after.provider)
    requires cfg.clientId in after.provider.clients
    requires after.provider.payments.Keys == s.provider.payments.Keys
             || (after.provider.payments.Keys == s.provider.payments.Keys + {ref} && !Uses(s, ref))
    requires var row, now := s.provider.clients[cfg.clientId], after.provider.clients[cfg.clientId];
             now == row.(dataTransferredKb := now.dataTransferredKb)
    ensures Steady(cfg, after, drifted)
  {
    assert LostMoney(after) <==> LostMoney(s) by {
      NewRowLosesNothing(s, after, ref);
    }
  }

  lemma NewRowLosesNothing(s: System, after: System, ref: string)
    requires after.client == s.client && after.reply == s.reply && after.attempts == s.attempts
    requires after.provider.payments.Keys == s.provider.payments.Keys
             || (after.provider.payments.Keys == s.provider.payments.Keys + {ref} && !Uses(s, ref))
    ensures LostMoney(after) <==> LostMoney(s)
  {
    forall i | 0 <= i < |s.attempts|
      ensures LostAttempt(s.attempts[i], after.provider.payments.Keys)
              <==> LostAttempt(s.attempts[i], s.provider.payments.Keys)
    {
    }
  }

  lemma OtherRequestKeepsSteady(cfg: Session, sentBefore: real, s: System, step: Step, drifted: bool)
    requires Inv(cfg, sentBefore, s) && Steady(cfg, s, drifted)
    requires step.OtherRequest? && Enabled(cfg, s, step) && FreshReference(s, step)
    ensures Steady(cfg, Apply(cfg, s, step), drifted)
  {
    OtherRequestKeepsRow(cfg, s.provider, step.request, step.peer, step.env);
    OtherRequestKeys(s.provider, step.request, step.peer, step.env, cfg.limits);
    var after := Apply(cfg, s, step);
    assert after == s.(provider := after.provider);
    ProviderStepKeepsSteady(cfg, s, after, step.env.reference, drifted);
  }

  lemma RowStepKeepsSteady(cfg: Session, s: System, step: Step, drifted: bool)
    requires Steady(cfg, s, drifted) && (step.OtherClient? || step.MeterAtProvider?)
    ensures Steady(cfg, Apply(cfg, s, step), drifted)
  {
    ProviderStepKeepsSteady(cfg, s, Apply(cfg, s, step), "", drifted);
  }

  /** A step of the client that touches neither the provider, nor replies, nor attempts. */
  lemma ClientStepKeepsSteady(cfg: Session, s: System, step: Step, drifted: bool)
    requires Steady(cfg, s, drifted) && (step.MeterAtClient? || step.TakeAnswer?)
    ensures Steady(cfg, Apply(cfg, s, step), drifted)
  {
    var after := Apply(cfg, s, step);
    assert after.attempts == s.attempts && after.provider == s.provider;
    assert LostMoney(after) <==> LostMoney(s);
  }

  lemma StartKeepsSteady(cfg: Session, s: System, step: Step, drifted: bool)
    requires Steady(cfg, s, drifted) && step.StartRound?
    ensures Steady(cfg, Apply(cfg, s, step), drifted)
  {
    var after := Apply(cfg, s, step);
    assert after.attempts == s.attempts && after.provider == s.provider;
  }

  /** How the provider answers when nothing fails: by verdict alone. */
  lemma AnswerByVerdict(cfg: Session, sentBefore: real, s: System, step: Step) returns (after: System)
    requires Inv(cfg, sentBefore, s) && OneRequest(s)
    requires step.DeliverPre? && Enabled(cfg, s, step) && Calm(cfg, s, step)
    ensures Delivers(cfg, s, step) && Answers(s, step)
    ensures after == Apply(cfg, s, step) && after.requests == map[] && after.provider.clients == s.provider.clients
    ensures after == s.(provider := after.provider, requests := map[], reply := after.reply, basis := after.basis)
    ensures after.reply.Some? && after.reply.value.PrePaymentReply?
    ensures after.basis == Charge(s.provider.clients[cfg.clientId])
    ensures var verdict := VerdictOn(cfg, s, step);
            && (Asks(after.reply) <==> verdict.InTolerance? || verdict.OverTermination?)
            && after.provider.payments.Keys
                 == s.provider.payments.Keys + (if verdict.InTolerance? then {step.env.reference} else {})
    ensures Asks(after.reply) ==>
              && after.reply.value.decision.request.paymentReference == step.env.reference
              && after.reply.value.decision.request.amountToSend == OwedToProvider(cfg, s)
  {
    assert s.requests[step.id] == PreRequest(s.client.phase.session);
    FoundRow(s.provider.clients, cfg.clientId);
    after := DeliveredFacts(cfg, sentBefore, s, step);
    AnswerFacts(cfg, sentBefore, s, step);
    assert RecordsRequest(cfg, s, step) <==> VerdictOn(cfg, s, step).InTolerance?;
    assert after.requests == map[];
  }

  lemma DeliverPreKeepsSteady(cfg: Session, sentBefore: real, s: System, step: Step, drifted: bool)
    requires Inv(cfg, sentBefore, s) && Steady(cfg, s, drifted)
    requires step.DeliverPre? && Enabled(cfg, s, step) && Calm(cfg, s, step)
    ensures Steady(cfg, Apply(cfg, s, step), drifted || Drifts(cfg, s, step))
  {
    var after := AnswerByVerdict(cfg, sentBefore, s, step);
    var fee, due := RowFee(s.provider.clients[cfg.clientId]);
    AnswerLoses(s, after, step.env.reference);
    assert Steady(cfg, after, drifted || Drifts(cfg, s, step));
  }

  /** An answer adds to what is lost exactly what it asks for without a row. */
  lemma AnswerLoses(s: System, after: System, ref: string)
    requires s.client.phase.AwaitingPre? && s.reply.None? && !Uses(s, ref)
    requires after.client == s.client && after.attempts == s.attempts
    requires after.provider.payments.Keys == s.provider.payments.Keys
             || after.provider.payments.Keys == s.provider.payments.Keys + {ref}
    ensures LostMoney(after) <==>
              || LostMoney(s)
              || (Asks(after.reply) && Unpaid(after.reply.value.decision.request, after.provider.payments.Keys))
  {
    forall i | 0 <= i < |s.attempts|
      ensures LostAttempt(s.attempts[i], after.provider.payments.Keys)
              <==> LostAttempt(s.attempts[i], s.provider.payments.Keys)
    {
    }
  }

  lemma TakeReplyKeepsSteady(cfg: Session, s: System, step: Step, drifted: bool)
    requires Steady(cfg, s, drifted) && step.TakeReply?
    ensures Steady(cfg, Apply(cfg, s, step), drifted)
  {
    var after := Apply(cfg, s, step);
    assert after.attempts == s.attempts && after.provider == s.provider;
  }

  lemma TransferKeepsSteady(cfg: Session, s: System, step: Step, drifted: bool)
    requires Steady(cfg, s, drifted) && step.PayOnChain? && step.txId.Some? && Enabled(cfg, s, step)
    ensures Steady(cfg, Apply(cfg, s, step), drifted)
  {
    var after, n := Apply(cfg, s, step), |s.attempts|;
    assert after.attempts[..n] == s.attempts && after.attempts[n].stage == Transferred;
    SameLoss(s, after, n);
  }

  /** Attempts before `n` are the same, later ones are not lost, and the client holds the same request. */
  lemma SameLoss(s: System, after: System, n: nat)
    requires after.provider == s.provider && after.reply == s.reply
    requires Holds(s.client.phase) && Holds(after.client.phase) && after.client.phase.request == s.client.phase.request
    requires n <= |s.attempts| && n <= |after.attempts| && after.attempts[..n] == s.attempts[..n]
    requires forall i :: n <= i < |s.attempts| ==> s.attempts[i].stage != InFlight && !Settled(s.attempts[i].stage)
    requires forall i :: n <= i < |after.attempts| ==>
               after.attempts[i].stage != InFlight && !Settled(after.attempts[i].stage)
    ensures LostMoney(after) <==> LostMoney(s)
  {
    assert forall i :: 0 <= i < n ==>
             after.attempts[i] == after.attempts[..n][i] == s.attempts[..n][i] == s.attempts[i];
  }

  lemma BookStepKeepsSteady(cfg: Session, s: System, step: Step, drifted: bool)
    requires Steady(cfg, s, drifted) && Calm(cfg, s, step) && Enabled(cfg, s, step)
    requires step.InsertRow? || step.CountRow?
    ensures Steady(cfg, Apply(cfg, s, step), drifted)
  {
    var after, n := Apply(cfg, s, step), |s.attempts| - 1;
    assert after.attempts[..n] == s.attempts[..n];
    SameLoss(s, after, n);
  }

  lemma SendNoticeKeepsSteady(cfg: Session, sentBefore: real, s: System, step: Step, drifted: bool)
    requires Inv(cfg, sentBefore, s) && Steady(cfg, s, drifted) && step.SendNotice? && Enabled(cfg, s, step)
    ensures Steady(cfg, Apply(cfg, s, step), drifted)
  {
    var after, n, known := Apply(cfg, s, step), |s.attempts| - 1, s.provider.payments.Keys;
    assert LostAttempt(after.attempts[n], known) <==> Unpaid(s.client.phase.request, known);
    assert !LostAttempt(s.attempts[n], known);
    assert forall i :: 0 <= i < n ==> after.attempts[i] == s.attempts[i];
    assert LostMoney(after) <==> LostMoney(s);
  }

  /** With a row the notification is credited, without one it is refused; nothing else depends on it. */
  lemma NoticeBySettled(cfg: Session, s: System, i: nat, env: HandlerEnv) returns (after: System)
    requires Identities(cfg, s) && i < |s.attempts| && s.attempts[i].stage == InFlight && HandlerWorks(env)
    ensures after == Apply(cfg, s, DeliverNotice(i, env)) && Identities(cfg, after)
    ensures after.provider.payments.Keys == s.provider.payments.Keys
    ensures var known := s.attempts[i].note.paymentReference in s.provider.payments;
            && after == s.(provider := after.provider,
                           attempts := SetStage(s.attempts, i, if known then Credited else Refused))
            && after.provider.clients
                 == if known then CreditClient(s.provider.clients, cfg.clientId, s.attempts[i].note.amountTransferred)
                    else s.provider.clients
  {
    PostPaymentEffect(s.provider, cfg.token, s.attempts[i].note, env);
    FoundRow(s.provider.clients, cfg.clientId);
    after := Apply(cfg, s, DeliverNotice(i, env));
  }

  lemma DeliverNoticeKeepsSteady(cfg: Session, sentBefore: real, s: System, step: Step, drifted: bool)
    requires Inv(cfg, sentBefore, s) && Steady(cfg, s, drifted)
    requires step.DeliverNotice? && Calm(cfg, s, step) && Enabled(cfg, s, step)
    ensures Steady(cfg, Apply(cfg, s, step), drifted)
  {
    var n := |s.attempts| - 1;
    assert step.i == n && s.client.phase.AwaitingPost?;
    var after := NoticeBySettled(cfg, s, n, step.env);
    assert WholeAmount(s.attempts[n].note.amountTransferred);
    SettledLoss(s, after);
  }

  lemma SettledLoss(s: System, after: System)
    requires s.attempts != [] && |after.attempts| == |s.attempts|
    requires var n, known := |s.attempts| - 1, s.provider.payments.Keys;
             && s.attempts[n].stage == InFlight && after.provider.payments.Keys == known
             && after.attempts == SetStage(s.attempts, n, if s.attempts[n].note.paymentReference in known
                                                          then Credited else Refused)
    requires after.client == s.client && after.reply == s.reply
    ensures LostMoney(after) <==> LostMoney(s)
  {
    var known := s.provider.payments.Keys;
    forall i | 0 <= i < |s.attempts|
      ensures LostAttempt(s.attempts[i], known) <==> LostAttempt(after.attempts[i], known)
    {
    }
  }

  lemma StepKeepsSteady(cfg: Session, sentBefore: real, s: System, step: Step, drifted: bool)
    requires Inv(cfg, sentBefore, s) && Steady(cfg, s, drifted) && Calm(cfg, s, step)
    ensures Steady(cfg, Apply(cfg, s, step), drifted || Drifts(cfg, s, step))
  {
    if Enabled(cfg, s, step) {
      match step
      case MeterAtClient(_, _) => ClientStepKeepsSteady(cfg, s, step, drifted);
      case StartRound(_) => StartKeepsSteady(cfg, s, step, drifted);
      case TakeAnswer => ClientStepKeepsSteady(cfg, s, step, drifted);
      case MeterAtProvider(_, _) => RowStepKeepsSteady(cfg, s, step, drifted);
      case OtherClient(_, _) => RowStepKeepsSteady(cfg, s, step, drifted);
      case OtherRequest(_, _, _) => OtherRequestKeepsSteady(cfg, sentBefore, s, step, drifted);
      case DeliverPre(_, _, _) => DeliverPreKeepsSteady(cfg, sentBefore, s, step, drifted);
      case TakeReply => TakeReplyKeepsSteady(cfg, s, step, drifted);
      case PayOnChain(_) => TransferKeepsSteady(cfg, s, step, drifted);
      case InsertRow(_, _) => BookStepKeepsSteady(cfg, s, step, drifted);
      case CountRow(_) => BookStepKeepsSteady(cfg, s, step, drifted);
      case SendNotice => SendNoticeKeepsSteady(cfg, sentBefore, s, step, drifted);
      case DeliverNotice(_, _) => DeliverNoticeKeepsSteady(cfg, sentBefore, s, step, drifted);
    }
  }

  lemma {:induction false} RunKeepsSteady(cfg: Session, sentBefore: real, s: System, steps: seq<Step>, drifted: bool)
    requires Inv(cfg, sentBefore, s) && Steady(cfg, s, drifted) && CalmRun(cfg, s, steps)
    ensures Inv(cfg, sentBefore, Exec(cfg, s, steps))
    ensures Steady(cfg, Exec(cfg, s, steps), drifted || SomeDrift(cfg, s, steps))
    decreases |steps|
  {
    if steps != [] {
      StepKeepsInv(cfg, sentBefore, s, steps[0]);
      StepKeepsSteady(cfg, sentBefore, s, steps[0], drifted);
      RunKeepsSteady(cfg, sentBefore, Apply(cfg, s, steps[0]), steps[1..], drifted || Drifts(cfg, s, steps[0]));
    }
  }

  // ---- The books between rounds ----

  predicate RefusedMoney(a: Attempt) { a.stage == Refused && a.note.amountTransferred > 0.0 }

  lemma {:induction false} SettledTotals(attempts: seq<Attempt>, stages: set<Stage>)
    requires forall i :: 0 <= i < |attempts| ==> Settled(attempts[i].stage)
    requires forall i :: 0 <= i < |attempts| ==> WholeAmount(attempts[i].note.amountTransferred)
    requires {Credited, Refused} <= stages
    ensures Total(attempts, stages) == Total(attempts, {Credited}) + Total(attempts, {Refused})
    ensures Total(attempts, {Refused}) >= 0.0
    ensures Total(attempts, {Refused}) > 0.0 <==>
              exists i :: 0 <= i < |attempts| && RefusedMoney(attempts[i])
  {
    if attempts != [] {
      var n := |attempts| - 1;
      var init := attempts[..n];
      SettledTotals(init, stages);
      assert WholeAmount(attempts[n].note.amountTransferred);
      assert forall i :: 0 <= i < n ==> init[i] == attempts[i];
      assert RefusedMoney(attempts[n]) <==> Part(attempts[n], {Refused}) > 0.0;
    }
  }

  /** Between rounds chain, rows and session total are the same, and differ from the credit exactly by a drift. */
  lemma BooksBetweenRounds(cfg: Session, sentBefore: real, s: System, drifted: bool)
    requires Inv(cfg, sentBefore, s) && Steady(cfg, s, drifted) && s.client.phase.Idle?
    ensures var sent := s.client.sessions[cfg.sessionId].totalFeeSentUnconfirmed;
            var credit := s.provider.clients[cfg.clientId].totalFeeReceivedUnconfirmed;
            && ChainTotal(s.client.chain) == sent
            && SumBy(s.client.payments, SentAmount) - sentBefore == sent
            && sent == credit + Total(s.attempts, {Refused})
            && (sent > credit <==> drifted)
            && (sent == credit <==> !drifted)
  {
    forall i | 0 <= i < |s.attempts|
      ensures Settled(s.attempts[i].stage)
    {
      assert i == |s.attempts| - 1 || i < |s.attempts| - 1;
    }
    SettledTotals(s.attempts, ON_CHAIN);
    SettledTotals(s.attempts, IN_ROWS);
    SettledTotals(s.attempts, IN_SESSION);
    LossIsRefusal(s);
  }

  lemma LossIsRefusal(s: System)
    requires !Asks(s.reply) && !Holds(s.client.phase)
    requires forall i :: 0 <= i < |s.attempts| ==> Settled(s.attempts[i].stage)
    ensures LostMoney(s) <==>
              exists i :: 0 <= i < |s.attempts| && RefusedMoney(s.attempts[i])
  {
    var known := s.provider.payments.Keys;
    forall i | 0 <= i < |s.attempts|
      ensures LostAttempt(s.attempts[i], known) <==> RefusedMoney(s.attempts[i])
    {
    }
  }

  // ---- Main results ----

  ghost predicate SameRate(cfg: Session, s0: System)
    requires cfg.clientId in s0.provider.clients && cfg.sessionId in s0.client.sessions
  {
    s0.provider.clients[cfg.clientId].feeRatePerKb == s0.client.sessions[cfg.sessionId].feeRatePerKb
  }

  lemma StartsSteady(cfg: Session, s0: System)
    requires Initial(cfg, s0) && SameRate(cfg, s0)
    ensures Inv(cfg, SumBy(s0.client.payments, SentAmount), s0) && Steady(cfg, s0, false)
  {}

  /**
   From a provide response onward, if the rate did not change during setup and
   nothing fails, then at every point between rounds, whatever was metered where
   and in whatever order: what the client put on the chain, its payment rows and
   its session total are the same amount; the provider's credit is that amount too
   if and only if no claim was beyond the termination threshold with something to
   pay when the provider answered it. If none was, then equal usage gives equal
   fees, and without traffic at the provider since its last answer it is owed
   nothing.
   */
  lemma Lockstep(cfg: Session, s0: System, steps: seq<Step>)
    requires Initial(cfg, s0) && SameRate(cfg, s0) && CalmRun(cfg, s0, steps)
    ensures var s := Exec(cfg, s0, steps);
            && cfg.sessionId in s.client.sessions && cfg.clientId in s.provider.clients
            && (s.client.phase.Idle? ==>
                  && var row, session := s.provider.clients[cfg.clientId], s.client.sessions[cfg.sessionId];
                  && ChainTotal(s.client.chain) == session.totalFeeSentUnconfirmed
                  && SumBy(s.client.payments, SentAmount) - SumBy(s0.client.payments, SentAmount)
                       == session.totalFeeSentUnconfirmed
                  && session.totalFeeSentUnconfirmed >= row.totalFeeReceivedUnconfirmed
                  && (session.totalFeeSentUnconfirmed == row.totalFeeReceivedUnconfirmed
                      <==> !SomeDrift(cfg, s0, steps))
                  && (!SomeDrift(cfg, s0, steps) ==>
                        && (session.dataTransferredKb == row.dataTransferredKb ==>
                              OwedByClient(cfg, s) == OwedToProvider(cfg, s))
                        && (s.attempts != [] && s.basis == Charge(row) ==> OwedToProvider(cfg, s) == 0.0)))
  {
    var sentBefore := SumBy(s0.client.payments, SentAmount);
    StartsSteady(cfg, s0);
    RunKeepsSteady(cfg, sentBefore, s0, steps, false);
    var s := Exec(cfg, s0, steps);
    if s.client.phase.Idle? {
      BooksBetweenRounds(cfg, sentBefore, s, SomeDrift(cfg, s0, steps));
      if !SomeDrift(cfg, s0, steps) {
        NothingOwed(cfg, s);
      }
    }
  }

  lemma NothingOwed(cfg: Session, s: System)
    requires Steady(cfg, s, false) && s.client.phase.Idle?
    ensures s.attempts != [] && s.basis == Charge(s.provider.clients[cfg.clientId]) ==> OwedToProvider(cfg, s) == 0.0
  {
    var row := s.provider.clients[cfg.clientId];
    FeeOwedFacts(row.dataTransferredKb, row.feeRatePerKb, row.totalFeeReceived, row.totalFeeReceivedUnconfirmed);
    if s.attempts != [] {
      assert Settled(s.attempts[|s.attempts| - 1].stage);
      assert Pending(s) == 0.0;
    }
  }

  /**
   After any such run a delivered request is answered by verdict alone: the provider
   records it exactly when the claim is in tolerance, and then with a new row that
   expects the fee it asks for; beyond the termination threshold it asks for that
   fee too, without a row.
   */
  lemma RecordedIffInTolerance(cfg: Session, s0: System, steps: seq<Step>, step: Step, s: System)
    requires Initial(cfg, s0) && SameRate(cfg, s0) && CalmRun(cfg, s0, steps) && s == Exec(cfg, s0, steps)
    requires step.DeliverPre? && Enabled(cfg, s, step) && Calm(cfg, s, step)
    ensures Delivers(cfg, s, step)
    ensures var after, verdict := Apply(cfg, s, step), VerdictOn(cfg, s, step);
            && (after.provider.payments != s.provider.payments <==> verdict.InTolerance?)
            && (Asks(after.reply) <==> verdict.InTolerance? || verdict.OverTermination?)
            && (Asks(after.reply) ==>
                  && var request := after.reply.value.decision.request;
                  && request.amountToSend == OwedToProvider(cfg, s)
                  && request.paymentReference !in s.provider.payments
                  && (request.paymentReference in after.provider.payments <==> verdict.InTolerance?)
                  && (verdict.InTolerance? ==>
                        after.provider.payments[request.paymentReference].expectedAmountBtc
                          == Some(request.amountToSend)))
  {
    var sentBefore := SumBy(s0.client.payments, SentAmount);
    StartsSteady(cfg, s0);
    RunKeepsSteady(cfg, sentBefore, s0, steps, false);
    var after := AnswerByVerdict(cfg, sentBefore, s, step);
    var r := s.requests[step.id];
    PrePaymentEffect(s.provider, r.authToken, r.dataTransferredKb, r.feeOwed, cfg.clientPeer, step.env, cfg.limits);
  }

  // ---- Metering in order keeps claims in tolerance ----

  /** The client does not meter traffic that the provider has not metered yet. */
  predicate InOrderStep(cfg: Session, s: System, step: Step) {
    step.MeterAtClient? ==>
      && cfg.sessionId in s.client.sessions && cfg.clientId in s.provider.clients
      && s.client.sessions[cfg.sessionId].dataTransferredKb + step.kb
           <= s.provider.clients[cfg.clientId].dataTransferredKb
  }

  ghost predicate InOrderRun(cfg: Session, s: System, steps: seq<Step>)
    decreases |steps|
  {
    steps != [] ==> InOrderStep(cfg, s, steps[0]) && InOrderRun(cfg, Apply(cfg, s, steps[0]), steps[1..])
  }

  predicate Behind(row: ProxyClientInfo, session: ProxySessionInfo) {
    && Rows(row, session) && row.feeRatePerKb >= 0.0
    && 0.0 <= session.dataTransferredKb <= row.dataTransferredKb
  }

  /** The client's rows, and its copy of them during a round, are not ahead of the provider's. */
  ghost predicate InOrder(cfg: Session, s: System)
    requires cfg.clientId in s.provider.clients && cfg.sessionId in s.client.sessions
  {
    var row := s.provider.clients[cfg.clientId];
    && Behind(row, s.client.sessions[cfg.sessionId])
    && (s.client.phase.AwaitingPre? ==>
          && Behind(row, s.client.phase.session)
          && s.client.phase.session.totalFeeSentUnconfirmed == row.totalFeeReceivedUnconfirmed)
  }

  lemma SmallerClaim(used: real, more: real, rate: real, paid: real)
    requires used <= more && rate >= 0.0
    ensures 0.0 <= FeeOwed(used, rate, 0.0, paid) <= FeeOwed(more, rate, 0.0, paid)
  {
    NonNegative(more - used, rate);
    assert more * rate == used * rate + (more - used) * rate;
    FeeForMonotone(UsageCharge(used, rate) - 0.0 - paid, UsageCharge(more, rate) - 0.0 - paid);
    FeeForFacts(UsageCharge(used, rate) - 0.0 - paid);
  }

  lemma ClaimIsInTolerance(row: ProxyClientInfo, session: ProxySessionInfo, limits: Limits)
    requires Behind(row, session) && AllowsUnderclaim(limits)
    requires session.totalFeeSentUnconfirmed == row.totalFeeReceivedUnconfirmed
    ensures VerdictFor(row, session.dataTransferredKb, session.GetFeeOwed(), limits).InTolerance?
  {
    SmallerClaim(session.dataTransferredKb, row.dataTransferredKb, row.feeRatePerKb, row.totalFeeReceivedUnconfirmed);
    ClaimBelowTarget(session.GetFeeOwed(), row.GetFeeOwed());
    ClaimBelowTarget(session.dataTransferredKb, row.dataTransferredKb);
  }

  lemma InOrderDoesNotDrift(cfg: Session, s: System, step: Step)
    requires cfg.clientId in s.provider.clients && cfg.sessionId in s.client.sessions
    requires InOrder(cfg, s) && OneRequest(s) && AllowsUnderclaim(cfg.limits)
    ensures !Drifts(cfg, s, step)
  {
    if Delivers(cfg, s, step) {
      ClaimIsInTolerance(s.provider.clients[cfg.clientId], s.client.phase.session, cfg.limits);
    }
  }

  /** A row that meters more, or is credited outside a round's question, stays ahead. */
  lemma ProviderKeepsOrder(cfg: Session, s: System, after: System)
    requires cfg.clientId in s.provider.clients && cfg.sessionId in s.client.sessions && InOrder(cfg, s)
    requires cfg.clientId in after.provider.clients && after.client == s.client
    requires var row, now := s.provider.clients[cfg.clientId], after.provider.clients[cfg.clientId];
             && now == row.(dataTransferredKb := now.dataTransferredKb,
                            totalFeeReceivedUnconfirmed := now.totalFeeReceivedUnconfirmed)
             && now.dataTransferredKb >= row.dataTransferredKb
             && (s.client.phase.AwaitingPre? ==> now.totalFeeReceivedUnconfirmed == row.totalFeeReceivedUnconfirmed)
    ensures InOrder(cfg, after)
  {}

  predicate AtProvider(step: Step) {
    step.MeterAtProvider? || step.OtherRequest? || step.OtherClient? || step.DeliverPre? || step.DeliverNotice?
  }

  lemma RowStepKeepsOrder(cfg: Session, s: System, step: Step)
    requires cfg.clientId in s.provider.clients && cfg.sessionId in s.client.sessions && InOrder(cfg, s)
    requires step.MeterAtProvider? || step.OtherClient?
    ensures cfg.clientId in Apply(cfg, s, step).provider.clients && InOrder(cfg, Apply(cfg, s, step))
  {
    ProviderKeepsOrder(cfg, s, Apply(cfg, s, step));
  }

  lemma ProviderStepKeepsOrder(cfg: Session, sentBefore: real, s: System, step: Step)
    requires Inv(cfg, sentBefore, s) && Steady(cfg, s, false) && InOrder(cfg, s) && Calm(cfg, s, step)
    requires AtProvider(step)
    ensures cfg.clientId in Apply(cfg, s, step).provider.clients && InOrder(cfg, Apply(cfg, s, step))
  {
    if step.MeterAtProvider? || step.OtherClient? {
      RowStepKeepsOrder(cfg, s, step);
    } else if Enabled(cfg, s, step) {
      var after := Apply(cfg, s, step);
      if step.OtherRequest? {
        OtherRequestKeepsRow(cfg, s.provider, step.request, step.peer, step.env);
      } else if step.DeliverPre? {
        after := AnswerByVerdict(cfg, sentBefore, s, step);
      } else if step.DeliverNotice? {
        after := NoticeBySettled(cfg, s, step.i, step.env);
      }
      ProviderKeepsOrder(cfg, s, after);
    }
  }

  lemma ClientStepKeepsOrder(cfg: Session, sentBefore: real, s: System, step: Step)
    requires Inv(cfg, sentBefore, s) && Steady(cfg, s, false) && InOrder(cfg, s)
    requires Calm(cfg, s, step) && InOrderStep(cfg, s, step)
    requires !AtProvider(step)
    ensures Apply(cfg, s, step).provider == s.provider && cfg.sessionId in Apply(cfg, s, step).client.sessions
    ensures InOrder(cfg, Apply(cfg, s, step))
  {
    if step.StartRound? && Enabled(cfg, s, step) {
      BooksBetweenRounds(cfg, sentBefore, s, false);
    }
  }

  lemma {:induction false} InOrderRunsDoNotDrift(cfg: Session, sentBefore: real, s: System, steps: seq<Step>)
    requires Inv(cfg, sentBefore, s) && Steady(cfg, s, false) && InOrder(cfg, s) && AllowsUnderclaim(cfg.limits)
    requires CalmRun(cfg, s, steps) && InOrderRun(cfg, s, steps)
    ensures !SomeDrift(cfg, s, steps)
    ensures var end := Exec(cfg, s, steps);
            Inv(cfg, sentBefore, end) && Steady(cfg, end, false) && InOrder(cfg, end)
    decreases |steps|
  {
    if steps != [] {
      var step := steps[0];
      InOrderDoesNotDrift(cfg, s, step);
      StepKeepsInv(cfg, sentBefore, s, step);
      StepKeepsSteady(cfg, sentBefore, s, step, false);
      if AtProvider(step) {
        ProviderStepKeepsOrder(cfg, sentBefore, s, step);
      } else {
        ClientStepKeepsOrder(cfg, sentBefore, s, step);
      }
      InOrderRunsDoNotDrift(cfg, sentBefore, Apply(cfg, s, step), steps[1..]);
    }
  }

  /**
   With limits that allow claiming less, as the configured ones do, a client that
   meters no earlier than the provider never drifts, so its books stay in lockstep,
   and between rounds it never owes more than the provider computes.
   */
  lemma MeteringInOrderKeepsLockstep(cfg: Session, s0: System, steps: seq<Step>)
    requires Initial(cfg, s0) && SameRate(cfg, s0) && s0.provider.clients[cfg.clientId].feeRatePerKb >= 0.0
    requires CalmRun(cfg, s0, steps) && InOrderRun(cfg, s0, steps) && AllowsUnderclaim(cfg.limits)
    ensures !SomeDrift(cfg, s0, steps)
    ensures var s := Exec(cfg, s0, steps);
            && cfg.sessionId in s.client.sessions && cfg.clientId in s.provider.clients
            && (s.client.phase.Idle? ==> OwedByClient(cfg, s) <= OwedToProvider(cfg, s))
  {
    var sentBefore := SumBy(s0.client.payments, SentAmount);
    StartsSteady(cfg, s0);
    InOrderRunsDoNotDrift(cfg, sentBefore, s0, steps);
    var s := Exec(cfg, s0, steps);
    if s.client.phase.Idle? {
      BooksBetweenRounds(cfg, sentBefore, s, false);
      var row, session := s.provider.clients[cfg.clientId], s.client.sessions[cfg.sessionId];
      SmallerClaim(session.dataTransferredKb, row.dataTransferredKb, row.feeRatePerKb, row.totalFeeReceivedUnconfirmed);
    }
  }
}
