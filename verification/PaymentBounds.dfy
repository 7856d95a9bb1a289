/**
 Rounding never accumulates: bounds on what the provider credits, over every run
 in which no notification is still in flight when the provider answers the next
 pre-payment request; that is so whenever the client waits for its notifications.
 */
module PaymentBounds {
  import opened Amounts
  import opened Options
  import opened Tables
  import opened PaymentHandler
  import opened PaymentLoop
  import opened PaymentProtocol

  function CreditedTotal(c: ProxyClientInfo): real { c.totalFeeReceived + c.totalFeeReceivedUnconfirmed }

  /** The reply asks the client for money. */
  predicate Asks(reply: Option<Response>) {
    reply.Some? && reply.value.PrePaymentReply? && reply.value.decision.Accepted?
  }

  /** The client is working off a payment request. */
  predicate Holds(phase: Phase) { phase.Paying? || phase.Recording? || phase.Counting? || phase.Notifying? }

  function Promised(reply: Option<Response>): real {
    if Asks(reply) then reply.value.decision.request.amountToSend else 0.0
  }

  function InHand(phase: Phase): real { if Holds(phase) then phase.request.amountToSend else 0.0 }

  /** Money the provider has asked for and may still be notified of. */
  function Outstanding(s: System): real {
    Promised(s.reply) + InHand(s.client.phase) + Total(s.attempts, {InFlight})
  }

  predicate NoneInFlight(s: System) {
    forall i :: 0 <= i < |s.attempts| ==> s.attempts[i].stage != InFlight
  }

  /** Some payment request of the provider is still being worked off. */
  predicate Live(s: System) {
    || Asks(s.reply)
    || Holds(s.client.phase)
    || !NoneInFlight(s)
  }

  /** The provider answers the request the client waits for. */
  predicate Answers(s: System, step: Step) {
    && step.DeliverPre? && step.replyKept && step.id in s.requests
    && step.id == s.awaited && s.client.phase.AwaitingPre? && s.reply.None?
  }

  /** At most one payment reference outstanding, at every point of the run. */
  ghost predicate Disciplined(cfg: Session, s: System, steps: seq<Step>)
    decreases |steps|
  {
    steps != [] ==>
      && (Answers(s, steps[0]) ==> NoneInFlight(s))
      && Disciplined(cfg, Apply(cfg, s, steps[0]), steps[1..])
  }

  /** At most one payment request is being worked off. */
  predicate Single(s: System) {
    && (s.reply.Some? || Holds(s.client.phase) ==> NoneInFlight(s))
    && (forall i, j | 0 <= i < |s.attempts| && 0 <= j < |s.attempts| ::
          s.attempts[i].stage == InFlight && s.attempts[j].stage == InFlight ==> i == j)
  }

  /** Credit plus everything outstanding is at most the usage charge plus half a satoshi. */
  ghost predicate Bounded(cfg: Session, s: System)
    requires cfg.clientId in s.provider.clients
  {
    var c := s.provider.clients[cfg.clientId];
    && Single(s)
    && c.feeRatePerKb >= 0.0
    && CreditedTotal(c) + Outstanding(s) <= Charge(c) + HALF_SATOSHI
    && (Live(s) ==> Abs(CreditedTotal(c) + Outstanding(s) - s.basis) <= HALF_SATOSHI)
  }

  lemma {:induction false} NoneInFlightTotal(attempts: seq<Attempt>)
    ensures (forall i :: 0 <= i < |attempts| ==> attempts[i].stage != InFlight) ==> Total(attempts, {InFlight}) == 0.0
  {
    if attempts != [] {
      NoneInFlightTotal(attempts[..|attempts| - 1]);
    }
  }

  lemma InFlightTotalIsNonNegative(attempts: seq<Attempt>)
    requires forall i :: 0 <= i < |attempts| ==> attempts[i].note.amountTransferred >= 0.0
    ensures Total(attempts, {InFlight}) >= 0.0
  {
    TotalSplit(attempts, {}, {InFlight});
  }

  // ---- Steps ----

  /** What the answer adds: nothing, or exactly the fee owed by the provider's books. */
  lemma AnswerFacts(cfg: Session, sentBefore: real, s: System, step: Step)
    requires Inv(cfg, sentBefore, s) && Answers(s, step)
    ensures var after := Apply(cfg, s, step);
            var c := s.provider.clients[cfg.clientId];
            && after.provider.clients == s.provider.clients
            && after == s.(provider := after.provider, requests := after.requests, reply := after.reply,
                           basis := after.basis)
            && after.basis == Charge(c)
            && after.reply.Some?
            && (Promised(after.reply) == 0.0 || Promised(after.reply) == c.GetFeeOwed())
            && (Asks(after.reply) ==> Promised(after.reply) == c.GetFeeOwed())
  {
    var r := s.requests[step.id];
    PrePaymentEffect(s.provider, r.authToken, r.dataTransferredKb, r.feeOwed, cfg.clientPeer, step.env, cfg.limits);
    FoundRow(s.provider.clients, cfg.clientId);
  }

  /** `FeeOwedFacts` for a client row. */
  lemma RowFee(c: ProxyClientInfo) returns (fee: real, due: real)
    ensures fee == c.GetFeeOwed() && due == Charge(c) - CreditedTotal(c)
    ensures WholeAmount(fee) && due - fee < HALF_SATOSHI
    ensures due >= -HALF_SATOSHI ==> Abs(fee - due) <= HALF_SATOSHI
  {
    FeeOwedFacts(c.dataTransferredKb, c.feeRatePerKb, c.totalFeeReceived, c.totalFeeReceivedUnconfirmed);
    fee, due := c.GetFeeOwed(), Charge(c) - CreditedTotal(c);
  }

  lemma AnswerKeepsBound(cfg: Session, sentBefore: real, s: System, step: Step)
    requires Inv(cfg, sentBefore, s) && Bounded(cfg, s) && Answers(s, step) && NoneInFlight(s)
    ensures cfg.clientId in Apply(cfg, s, step).provider.clients && Bounded(cfg, Apply(cfg, s, step))
  {
    AnswerFacts(cfg, sentBefore, s, step);
    var fee, due := RowFee(s.provider.clients[cfg.clientId]);
    AskedBound(cfg, s, Apply(cfg, s, step), fee);
  }

  lemma AskedBound(cfg: Session, s: System, after: System, fee: real)
    requires cfg.clientId in s.provider.clients && Bounded(cfg, s)
    requires s.client.phase.AwaitingPre? && s.reply.None? && NoneInFlight(s)
    requires after == s.(provider := after.provider, requests := after.requests, reply := after.reply,
                         basis := after.basis)
    requires after.provider.clients == s.provider.clients
    requires var c := s.provider.clients[cfg.clientId];
             var due := Charge(c) - CreditedTotal(c);
             && after.basis == Charge(c)
             && fee >= 0.0 && (due >= -HALF_SATOSHI ==> Abs(fee - due) <= HALF_SATOSHI)
    requires Promised(after.reply) == fee || (Promised(after.reply) == 0.0 && !Live(after))
    ensures Bounded(cfg, after)
  {
    NoneInFlightTotal(s.attempts);
  }

  lemma SilentDeliveryKeepsBound(cfg: Session, sentBefore: real, s: System, step: Step)
    requires Inv(cfg, sentBefore, s) && Bounded(cfg, s) && step.DeliverPre? && !Answers(s, step)
    ensures cfg.clientId in Apply(cfg, s, step).provider.clients && Bounded(cfg, Apply(cfg, s, step))
  {
    if Enabled(cfg, s, step) {
      var r := s.requests[step.id];
      PrePaymentEffect(s.provider, r.authToken, r.dataTransferredKb, r.feeOwed, cfg.clientPeer, step.env, cfg.limits);
    }
  }

  /** Settling the one notification in flight leaves nothing outstanding. */
  lemma SettledBound(cfg: Session, s: System, after: System, i: nat, stage: Stage)
    requires cfg.clientId in s.provider.clients && Bounded(cfg, s)
    requires cfg.clientId in after.provider.clients
    requires i < |s.attempts| && s.attempts[i].stage == InFlight && stage != InFlight
    requires after == s.(provider := after.provider, attempts := SetStage(s.attempts, i, stage))
    requires var c := s.provider.clients[cfg.clientId];
             var gain := if stage == Credited then s.attempts[i].note.amountTransferred else 0.0;
             after.provider.clients[cfg.clientId]
               == c.(totalFeeReceivedUnconfirmed := c.totalFeeReceivedUnconfirmed + gain)
    requires s.attempts[i].note.amountTransferred >= 0.0
    ensures Bounded(cfg, after)
    ensures stage == Credited ==> Abs(CreditedTotal(after.provider.clients[cfg.clientId]) - s.basis) <= HALF_SATOSHI
  {
    TotalUpdate(s.attempts, i, after.attempts[i], {InFlight});
    assert NoneInFlight(after);
    NoneInFlightTotal(after.attempts);
  }

  lemma NoticeKeepsBound(cfg: Session, sentBefore: real, s: System, step: Step)
    requires Inv(cfg, sentBefore, s) && Bounded(cfg, s) && (step.DeliverNotice? || step.LoseNotice?)
    ensures var after := Apply(cfg, s, step);
            && cfg.clientId in after.provider.clients && Bounded(cfg, after)
            && (Enabled(cfg, s, step) && after.attempts[step.i].stage == Credited ==>
                  Abs(CreditedTotal(after.provider.clients[cfg.clientId]) - s.basis) <= HALF_SATOSHI)
  {
    if Enabled(cfg, s, step) {
      assert WholeAmount(s.attempts[step.i].note.amountTransferred);
      var after := Apply(cfg, s, step);
      if step.DeliverNotice? {
        after := NoticeOutcome(cfg, s, step.i, step.env);
      }
      SettledBound(cfg, s, after, step.i, after.attempts[step.i].stage);
    }
  }

  /** More usage is charged more. */
  lemma MeteredCharge(c: ProxyClientInfo, kb: real)
    requires c.feeRatePerKb >= 0.0 && kb >= 0.0
    ensures Charge(c.(dataTransferredKb := c.dataTransferredKb + kb)) >= Charge(c)
  {
    NonNegative(kb, c.feeRatePerKb);
    assert (c.dataTransferredKb + kb) * c.feeRatePerKb == Charge(c) + kb * c.feeRatePerKb;
  }

  lemma MeterKeepsBound(cfg: Session, sentBefore: real, s: System, step: Step)
    requires Inv(cfg, sentBefore, s) && Bounded(cfg, s) && step.MeterAtProvider?
    ensures cfg.clientId in Apply(cfg, s, step).provider.clients && Bounded(cfg, Apply(cfg, s, step))
  {
    if Enabled(cfg, s, step) && step.db {
      var c, after := s.provider.clients[cfg.clientId], Apply(cfg, s, step);
      MeteredCharge(c, step.kb);
      ChargedMore(cfg, s, after, after.provider.clients[cfg.clientId]);
    }
  }

  lemma ChargedMore(cfg: Session, s: System, after: System, now: ProxyClientInfo)
    requires cfg.clientId in s.provider.clients && Bounded(cfg, s) && after == s.(provider := after.provider)
    requires cfg.clientId in after.provider.clients && after.provider.clients[cfg.clientId] == now
    requires now == s.provider.clients[cfg.clientId].(dataTransferredKb := now.dataTransferredKb)
    requires Charge(now) >= Charge(s.provider.clients[cfg.clientId])
    ensures Bounded(cfg, after)
  {}

  /** The client carries the amount one step further, or gives up. */
  lemma CarriedBound(cfg: Session, s: System, after: System)
    requires cfg.clientId in s.provider.clients && Bounded(cfg, s) && Holds(s.client.phase) && s.reply.None?
    requires InHand(s.client.phase) >= 0.0
    requires after == s.(client := after.client, attempts := after.attempts)
    requires NoneInFlight(after)
    requires || after.client.phase.Idle?
             || (Holds(after.client.phase) && InHand(after.client.phase) == InHand(s.client.phase))
    ensures Bounded(cfg, after)
  {
    NoneInFlightTotal(s.attempts);
    NoneInFlightTotal(after.attempts);
  }

  lemma NotifiedBound(cfg: Session, s: System, after: System)
    requires cfg.clientId in s.provider.clients && Bounded(cfg, s) && Holds(s.client.phase) && s.reply.None?
    requires |s.attempts| > 0 && s.attempts[|s.attempts| - 1].note.amountTransferred == InHand(s.client.phase)
    requires after == s.(client := after.client, attempts := SetLast(s.attempts, InFlight))
    requires after.client.phase.AwaitingPost?
    ensures Bounded(cfg, after)
  {
    NoneInFlightTotal(s.attempts);
    var n := |s.attempts| - 1;
    TotalUpdate(s.attempts, n, after.attempts[n], {InFlight});
    assert after.attempts[n].stage == InFlight;
  }

  lemma ClientMoneyStepKeepsBound(cfg: Session, sentBefore: real, s: System, step: Step)
    requires Inv(cfg, sentBefore, s) && Bounded(cfg, s)
    requires step.PayOnChain? || step.InsertRow? || step.CountRow? || step.SendNotice?
    ensures cfg.clientId in Apply(cfg, s, step).provider.clients && Bounded(cfg, Apply(cfg, s, step))
  {
    if Enabled(cfg, s, step) {
      if !s.client.phase.Paying? {
        assert WholeAmount(s.attempts[|s.attempts| - 1].note.amountTransferred);
      }
      if step.SendNotice? {
        NotifiedBound(cfg, s, Apply(cfg, s, step));
      } else {
        CarriedBound(cfg, s, Apply(cfg, s, step));
      }
    }
  }

  lemma OtherPartyKeepsBound(cfg: Session, sentBefore: real, s: System, step: Step)
    requires Inv(cfg, sentBefore, s) && Bounded(cfg, s) && (step.OtherRequest? || step.OtherClient?)
    ensures cfg.clientId in Apply(cfg, s, step).provider.clients && Bounded(cfg, Apply(cfg, s, step))
  {
    ProviderStepKeepsInv(cfg, sentBefore, s, step);
    var after := Apply(cfg, s, step);
    assert after == s.(provider := after.provider);
  }

  lemma ClientStepKeepsBound(cfg: Session, sentBefore: real, s: System, step: Step)
    requires Inv(cfg, sentBefore, s) && Bounded(cfg, s)
    requires step.MeterAtClient? || step.StartRound? || step.LosePre? || step.TakeAnswer? || step.GiveUp?
    ensures cfg.clientId in Apply(cfg, s, step).provider.clients && Bounded(cfg, Apply(cfg, s, step))
  {
    var after := Apply(cfg, s, step);
    assert Outstanding(after) == Outstanding(s) && (Live(after) <==> Live(s));
  }

  lemma ReplyStepKeepsBound(cfg: Session, sentBefore: real, s: System, step: Step)
    requires Inv(cfg, sentBefore, s) && Bounded(cfg, s) && (step.TakeReply? || step.FailPre?)
    ensures cfg.clientId in Apply(cfg, s, step).provider.clients && Bounded(cfg, Apply(cfg, s, step))
  {
    NoneInFlightTotal(s.attempts);
  }

  lemma StepKeepsBound(cfg: Session, sentBefore: real, s: System, step: Step)
    requires Inv(cfg, sentBefore, s) && Bounded(cfg, s)
    requires Answers(s, step) ==> NoneInFlight(s)
    ensures cfg.clientId in Apply(cfg, s, step).provider.clients && Bounded(cfg, Apply(cfg, s, step))
  {
    match step
    case DeliverPre(_, _, _) =>
      if Answers(s, step) {
        AnswerKeepsBound(cfg, sentBefore, s, step);
      } else {
        SilentDeliveryKeepsBound(cfg, sentBefore, s, step);
      }
    case DeliverNotice(_, _) => NoticeKeepsBound(cfg, sentBefore, s, step);
    case LoseNotice(_) => NoticeKeepsBound(cfg, sentBefore, s, step);
    case MeterAtProvider(_, _) => MeterKeepsBound(cfg, sentBefore, s, step);
    case PayOnChain(_) => ClientMoneyStepKeepsBound(cfg, sentBefore, s, step);
    case InsertRow(_, _) => ClientMoneyStepKeepsBound(cfg, sentBefore, s, step);
    case CountRow(_) => ClientMoneyStepKeepsBound(cfg, sentBefore, s, step);
    case SendNotice => ClientMoneyStepKeepsBound(cfg, sentBefore, s, step);
    case OtherRequest(_, _, _) => OtherPartyKeepsBound(cfg, sentBefore, s, step);
    case OtherClient(_, _) => OtherPartyKeepsBound(cfg, sentBefore, s, step);
    case TakeReply => ReplyStepKeepsBound(cfg, sentBefore, s, step);
    case FailPre => ReplyStepKeepsBound(cfg, sentBefore, s, step);
    case _ => ClientStepKeepsBound(cfg, sentBefore, s, step);
  }

  lemma {:induction false} RunKeepsBound(cfg: Session, sentBefore: real, s: System, steps: seq<Step>)
    requires Inv(cfg, sentBefore, s) && Bounded(cfg, s) && Disciplined(cfg, s, steps)
    ensures Inv(cfg, sentBefore, Exec(cfg, s, steps)) && Bounded(cfg, Exec(cfg, s, steps))
    decreases |steps|
  {
    if steps != [] {
      StepKeepsInv(cfg, sentBefore, s, steps[0]);
      StepKeepsBound(cfg, sentBefore, s, steps[0]);
      RunKeepsBound(cfg, sentBefore, Apply(cfg, s, steps[0]), steps[1..]);
    }
  }

  // ---- Main results ----

  lemma InitialIsBounded(cfg: Session, s0: System)
    requires Initial(cfg, s0) && s0.provider.clients[cfg.clientId].feeRatePerKb >= 0.0
    ensures Inv(cfg, SumBy(s0.client.payments, SentAmount), s0) && Bounded(cfg, s0)
  {}

  /** The bound in one row: credit is at most usage times rate plus half a satoshi. */
  predicate WithinUsage(c: ProxyClientInfo) {
    c.totalFeeReceived + c.totalFeeReceivedUnconfirmed <= c.dataTransferredKb * c.feeRatePerKb + HALF_SATOSHI
  }

  lemma WithinCharge(c: ProxyClientInfo)
    ensures WithinUsage(c) <==> CreditedTotal(c) <= Charge(c) + HALF_SATOSHI
  {}

  /** Over any number of rounds the provider never credits more than usage times rate plus half a satoshi. */
  lemma CreditNeverExceedsUsage(cfg: Session, s0: System, steps: seq<Step>)
    requires Initial(cfg, s0) && s0.provider.clients[cfg.clientId].feeRatePerKb >= 0.0
    requires Disciplined(cfg, s0, steps)
    ensures var s := Exec(cfg, s0, steps);
            cfg.clientId in s.provider.clients && WithinUsage(s.provider.clients[cfg.clientId])
  {
    InitialIsBounded(cfg, s0);
    var sentBefore := SumBy(s0.client.payments, SentAmount);
    RunKeepsBound(cfg, sentBefore, s0, steps);
    BoundedIsWithinUsage(cfg, sentBefore, Exec(cfg, s0, steps));
  }

  lemma BoundedIsWithinUsage(cfg: Session, sentBefore: real, s: System)
    requires Inv(cfg, sentBefore, s) && Bounded(cfg, s)
    ensures WithinUsage(s.provider.clients[cfg.clientId])
  {
    forall i | 0 <= i < |s.attempts| ensures s.attempts[i].note.amountTransferred >= 0.0 {
      assert WholeAmount(s.attempts[i].note.amountTransferred);
    }
    InFlightTotalIsNonNegative(s.attempts);
    OutstandingIsNonNegative(cfg, sentBefore, s);
    WithinCharge(s.provider.clients[cfg.clientId]);
  }

  lemma OutstandingIsNonNegative(cfg: Session, sentBefore: real, s: System)
    requires Inv(cfg, sentBefore, s) && Total(s.attempts, {InFlight}) >= 0.0
    ensures Outstanding(s) >= 0.0
  {
    if Holds(s.client.phase) && !s.client.phase.Paying? {
      assert WholeAmount(s.attempts[|s.attempts| - 1].note.amountTransferred);
    }
  }

  /** The credit is within half a satoshi of usage times rate as the row was at the answer. */
  predicate CreditIsUsage(now: ProxyClientInfo, atAnswer: ProxyClientInfo) {
    Abs(now.totalFeeReceived + now.totalFeeReceivedUnconfirmed
        - atAnswer.dataTransferredKb * atAnswer.feeRatePerKb) <= HALF_SATOSHI
  }

  /** No step of the run answers the request the client waits for. */
  ghost predicate NoAnswer(cfg: Session, s: System, steps: seq<Step>)
    decreases |steps|
  {
    steps != [] ==> !Answers(s, steps[0]) && NoAnswer(cfg, Apply(cfg, s, steps[0]), steps[1..])
  }

  lemma {:induction false} BasisIsTheLastAnswer(cfg: Session, s: System, steps: seq<Step>)
    requires NoAnswer(cfg, s, steps)
    ensures Exec(cfg, s, steps).basis == s.basis
    decreases |steps|
  {
    if steps != [] {
      BasisIsTheLastAnswer(cfg, Apply(cfg, s, steps[0]), steps[1..]);
    }
  }

  /**
   However many rounds came before, when the notification that follows an answer
   is credited the provider's total is within half a satoshi of the usage charge
   at the moment of that answer.
   */
  lemma CreditedRoundIsExact(cfg: Session, s0: System, before: seq<Step>, answer: Step, between: seq<Step>,
                             notice: Step, s1: System, s2: System)
    requires Initial(cfg, s0) && s0.provider.clients[cfg.clientId].feeRatePerKb >= 0.0
    requires Disciplined(cfg, s0, before) && s1 == Exec(cfg, s0, before)
    requires Answers(s1, answer) && NoneInFlight(s1)
    requires Disciplined(cfg, Apply(cfg, s1, answer), between) && NoAnswer(cfg, Apply(cfg, s1, answer), between)
    requires s2 == Exec(cfg, Apply(cfg, s1, answer), between)
    requires notice.DeliverNotice? && Enabled(cfg, s2, notice)
    ensures var s3 := Apply(cfg, s2, notice);
            && cfg.clientId in s1.provider.clients && cfg.clientId in s3.provider.clients
            && (s3.attempts[notice.i].stage == Credited ==>
                  CreditIsUsage(s3.provider.clients[cfg.clientId], s1.provider.clients[cfg.clientId]))
  {
    InitialIsBounded(cfg, s0);
    var sentBefore := SumBy(s0.client.payments, SentAmount);
    RunKeepsBound(cfg, sentBefore, s0, before);
    var answered := AnsweredState(cfg, sentBefore, s1, answer);
    RunKeepsBound(cfg, sentBefore, answered, between);
    BasisIsTheLastAnswer(cfg, answered, between);
    NoticeKeepsBound(cfg, sentBefore, s2, notice);
    CreditIsCharge(Apply(cfg, s2, notice).provider.clients[cfg.clientId], s1.provider.clients[cfg.clientId]);
  }

  lemma CreditIsCharge(now: ProxyClientInfo, atAnswer: ProxyClientInfo)
    ensures CreditIsUsage(now, atAnswer) <==> Abs(CreditedTotal(now) - Charge(atAnswer)) <= HALF_SATOSHI
  {}

  lemma AnsweredState(cfg: Session, sentBefore: real, s: System, step: Step) returns (after: System)
    requires Inv(cfg, sentBefore, s) && Bounded(cfg, s) && Answers(s, step) && NoneInFlight(s)
    ensures after == Apply(cfg, s, step) && Inv(cfg, sentBefore, after) && Bounded(cfg, after)
    ensures after.basis == Charge(s.provider.clients[cfg.clientId])
  {
    after := Apply(cfg, s, step);
    StepKeepsInv(cfg, sentBefore, s, step);
    AnswerKeepsBound(cfg, sentBefore, s, step);
    AnswerFacts(cfg, sentBefore, s, step);
  }

  // ---- Sessions whose notifications are waited for ----

  /** The client gives up on its notification while it is still in flight. */
  predicate Abandons(s: System, step: Step) {
    && step.GiveUp? && s.client.phase.AwaitingPost?
    && s.attempts != [] && s.attempts[|s.attempts| - 1].stage == InFlight
  }

  ghost predicate NoneAbandoned(cfg: Session, s: System, steps: seq<Step>)
    decreases |steps|
  {
    steps != [] ==> !Abandons(s, steps[0]) && NoneAbandoned(cfg, Apply(cfg, s, steps[0]), steps[1..])
  }

  /** A notification in flight is the one the client waits for. */
  predicate Waited(s: System) {
    forall i :: 0 <= i < |s.attempts| && s.attempts[i].stage == InFlight ==>
      i == |s.attempts| - 1 && s.client.phase.AwaitingPost?
  }

  lemma NoticeKeepsWaited(cfg: Session, sentBefore: real, s: System, step: Step)
    requires Inv(cfg, sentBefore, s) && Waited(s) && (step.DeliverNotice? || step.LoseNotice?)
    ensures Waited(Apply(cfg, s, step))
  {
    if step.DeliverNotice? && Enabled(cfg, s, step) {
      var after := NoticeOutcome(cfg, s, step.i, step.env);
    }
  }

  lemma MoneyStepKeepsWaited(cfg: Session, sentBefore: real, s: System, step: Step)
    requires Inv(cfg, sentBefore, s) && Waited(s)
    requires step.PayOnChain? || step.InsertRow? || step.CountRow? || step.SendNotice?
    ensures Waited(Apply(cfg, s, step))
  {}

  lemma StepKeepsWaited(cfg: Session, sentBefore: real, s: System, step: Step)
    requires Inv(cfg, sentBefore, s) && Waited(s) && !Abandons(s, step)
    ensures Waited(Apply(cfg, s, step))
  {
    if step.DeliverNotice? || step.LoseNotice? {
      NoticeKeepsWaited(cfg, sentBefore, s, step);
    } else if step.PayOnChain? || step.InsertRow? || step.CountRow? || step.SendNotice? {
      MoneyStepKeepsWaited(cfg, sentBefore, s, step);
    } else {
      assert Apply(cfg, s, step).attempts == s.attempts;
    }
  }

  lemma {:induction false} WaitedRunIsDisciplined(cfg: Session, sentBefore: real, s: System, steps: seq<Step>)
    requires Inv(cfg, sentBefore, s) && Waited(s) && NoneAbandoned(cfg, s, steps)
    ensures Disciplined(cfg, s, steps)
    decreases |steps|
  {
    if steps != [] {
      StepKeepsInv(cfg, sentBefore, s, steps[0]);
      StepKeepsWaited(cfg, sentBefore, s, steps[0]);
      WaitedRunIsDisciplined(cfg, sentBefore, Apply(cfg, s, steps[0]), steps[1..]);
    }
  }

  /**
   Whatever else fails, is refused or is lost: as long as the client never gives
   up on a notification that is still in flight, the bound holds.
   */
  lemma WaitingClientNeverOverpays(cfg: Session, s0: System, steps: seq<Step>)
    requires Initial(cfg, s0) && s0.provider.clients[cfg.clientId].feeRatePerKb >= 0.0
    requires NoneAbandoned(cfg, s0, steps)
    ensures Disciplined(cfg, s0, steps)
    ensures var s := Exec(cfg, s0, steps);
            cfg.clientId in s.provider.clients && WithinUsage(s.provider.clients[cfg.clientId])
  {
    InitialIsBounded(cfg, s0);
    WaitedRunIsDisciplined(cfg, SumBy(s0.client.payments, SentAmount), s0, steps);
    CreditNeverExceedsUsage(cfg, s0, steps);
  }
}
