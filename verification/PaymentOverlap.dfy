/**
 Why a slow notification costs the client money: at any rate and for any traffic,
 a client that gives up on a notification which is only slow ends up paying for
 more than it used.
 */
module PaymentOverlap {
  import opened Amounts
  import opened Tables
  import opened PaymentHandler
  import opened PaymentLoop
  import opened PaymentProtocol
  import opened PaymentBounds
  import opened PaymentLockstep
  import opened PaymentCollisions

  function MeterBoth(kb: real): seq<Step> { [MeterAtClient(kb, true), MeterAtProvider(kb, true)] }

  /** The notification is still in flight when the client gives up waiting for its answer. */
  function SlowRound(awaited: nat, names: Names): seq<Step> {
    AgreeSteps(awaited, names) + PaySteps(names) + [SendNotice, GiveUp]
  }

  function LateNotices(i: nat, names: Names): seq<Step> {
    [DeliverNotice(i, NO_FAILURE(names.reference)), DeliverNotice(i + 1, NO_FAILURE(names.reference))]
  }

  /** Both sides have metered `used` at `rate`; `paid` is credited, `sent` is counted by the client. */
  predicate Books(cfg: Session, s: System, rate: real, used: real, paid: real, sent: real)
    requires cfg.clientId in s.provider.clients && cfg.sessionId in s.client.sessions
  {
    var row := s.provider.clients[cfg.clientId];
    var session := s.client.sessions[cfg.sessionId];
    && row.feeRatePerKb == session.feeRatePerKb == rate
    && row.dataTransferredKb == session.dataTransferredKb == used
    && row.totalFeeReceived == session.totalFeeSent == 0.0
    && row.totalFeeReceivedUnconfirmed == paid
    && session.totalFeeSentUnconfirmed == sent
  }

  lemma BothMeter(cfg: Session, s: System, kb: real, rate: real, used: real, paid: real, sent: real)
    returns (t: System)
    requires Identities(cfg, s) && Quiet(s) && Books(cfg, s, rate, used, paid, sent) && kb >= 0.0
    ensures t == Exec(cfg, s, MeterBoth(kb))
    ensures Identities(cfg, t) && Quiet(t) && Books(cfg, t, rate, used + kb, paid, sent)
    ensures t.awaited == s.awaited && t.attempts == s.attempts
    ensures t.provider.payments == s.provider.payments && t.client.payments == s.client.payments
  {
    ExecCons(cfg, s, MeterBoth(kb));
    ExecCons(cfg, Apply(cfg, s, MeterBoth(kb)[0]), MeterBoth(kb)[1..]);
    t := Exec(cfg, s, MeterBoth(kb));
  }

  /** The client's claim is smaller than the provider's figure by what is still in flight, and so in tolerance. */
  lemma SmallerClaimIsInTolerance(c: ProxyClientInfo, feeOwed: real, limits: Limits)
    requires AllowsUnderclaim(limits) && 0.0 <= feeOwed <= c.GetFeeOwed()
    ensures VerdictFor(c, c.dataTransferredKb, feeOwed, limits).InTolerance?
  {
    ClaimBelowTarget(feeOwed, c.GetFeeOwed());
    SameValueDiffersByZero(c.dataTransferredKb);
  }

  /** A round whose notification has been sent but not delivered. */
  lemma RoundLeavesNotice(cfg: Session, s: System, names: Names, rate: real, used: real, paid: real, sent: real)
    returns (t: System)
    requires Identities(cfg, s) && Quiet(s) && Books(cfg, s, rate, used, paid, sent)
    requires AllowsUnderclaim(cfg.limits) && paid <= sent && FeeOwed(used, rate, 0.0, sent) != 0.0
    requires names.reference !in s.provider.payments && names.paymentId !in s.client.payments
    ensures t == Exec(cfg, s, SlowRound(s.awaited, names))
    ensures var fee := FeeOwed(used, rate, 0.0, paid);
            && Identities(cfg, t) && Quiet(t) && Books(cfg, t, rate, used, paid, sent + fee)
            && t.awaited == s.awaited + 1 && |t.attempts| == |s.attempts| + 1
            && t.attempts[..|s.attempts|] == s.attempts
            && var a := t.attempts[|s.attempts|];
               a.stage == InFlight && a.note.amountTransferred == fee && a.note.paymentReference == names.reference
    ensures t.provider.payments.Keys == s.provider.payments.Keys + {names.reference}
    ensures t.client.payments.Keys == s.client.payments.Keys + {names.paymentId}
  {
    FeeForFacts(UsageCharge(used, rate) - 0.0 - sent);
    FeeForMonotone(UsageCharge(used, rate) - 0.0 - sent, UsageCharge(used, rate) - 0.0 - paid);
    SmallerClaimIsInTolerance(s.provider.clients[cfg.clientId], OwedByClient(cfg, s), cfg.limits);
    var u := AskAndPay(cfg, s, names);
    t := NoticeSent(cfg, u);
    ExecConcat3(cfg, s, AgreeSteps(s.awaited, names), PaySteps(names), [SendNotice, GiveUp]);
  }

  lemma NoticeSent(cfg: Session, s: System) returns (t: System)
    requires Identities(cfg, s) && s.client.phase.Notifying? && |s.attempts| > 0
    ensures t == Exec(cfg, s, [SendNotice, GiveUp])
    ensures t == s.(client := s.client.(phase := Idle), attempts := SetLast(s.attempts, InFlight))
    ensures Identities(cfg, t)
  {
    var steps := [SendNotice, GiveUp];
    ExecCons(cfg, s, steps);
    ExecCons(cfg, Apply(cfg, s, steps[0]), steps[1..]);
    t := Exec(cfg, s, steps);
  }

  function UseAndPay(awaited: nat, kb: real, names: Names): seq<Step> { MeterBoth(kb) + SlowRound(awaited, names) }

  /** More is used and a round asks for everything not yet credited. */
  lemma UsedAndAsked(cfg: Session, s: System, kb: real, names: Names, rate: real, used: real, total: real,
                     paid: real, sent: real, fee: real) returns (t: System)
    requires Identities(cfg, s) && Quiet(s) && Books(cfg, s, rate, used, paid, sent)
    requires AllowsUnderclaim(cfg.limits) && kb >= 0.0 && total == used + kb && paid <= sent
    requires FeeOwed(total, rate, 0.0, sent) != 0.0 && fee == FeeOwed(total, rate, 0.0, paid)
    requires names.reference !in s.provider.payments && names.paymentId !in s.client.payments
    ensures t == Exec(cfg, s, UseAndPay(s.awaited, kb, names))
    ensures && Identities(cfg, t) && Quiet(t) && Books(cfg, t, rate, total, paid, sent + fee)
            && t.awaited == s.awaited + 1 && |t.attempts| == |s.attempts| + 1
            && t.attempts[..|s.attempts|] == s.attempts
            && var a := t.attempts[|s.attempts|];
               a.stage == InFlight && a.note.amountTransferred == fee && a.note.paymentReference == names.reference
    ensures t.provider.payments.Keys == s.provider.payments.Keys + {names.reference}
    ensures t.client.payments.Keys == s.client.payments.Keys + {names.paymentId}
  {
    var a := BothMeter(cfg, s, kb, rate, used, paid, sent);
    t := RoundLeavesNotice(cfg, a, names, rate, total, paid, sent);
    ExecConcat(cfg, s, MeterBoth(kb), SlowRound(s.awaited, names));
  }

  lemma BothArrive(cfg: Session, s: System, names: Names, charge: real) returns (t: System)
    requires Identities(cfg, s) && |s.attempts| >= 2
    requires s.attempts[0].stage == InFlight && s.attempts[0].note.paymentReference in s.provider.payments
    requires s.attempts[1].stage == InFlight && s.attempts[1].note.paymentReference in s.provider.payments
    requires Charge(s.provider.clients[cfg.clientId]) == charge
    requires CreditedTotal(s.provider.clients[cfg.clientId]) == 0.0
    requires s.attempts[0].note.amountTransferred + s.attempts[1].note.amountTransferred > charge + HALF_SATOSHI
    ensures t == Exec(cfg, s, LateNotices(0, names)) && Overcredited(cfg, t)
    ensures CreditedTotal(t.provider.clients[cfg.clientId])
            == s.attempts[0].note.amountTransferred + s.attempts[1].note.amountTransferred
  {
    var late := LateNotices(0, names);
    var a := NoticeCredited(cfg, s, 0, names);
    t := NoticeCredited(cfg, a, 1, names);
    ExecCons(cfg, s, late);
    ExecCons(cfg, a, late[1..]);
    WithinCharge(t.provider.clients[cfg.clientId]);
  }

  /** The second round still finds something owed, and asks for the first payment again. */
  lemma SecondFee(kb: real, more: real, rate: real) returns (fee: real, again: real, charge: real)
    requires UsageCharge(kb, rate) >= HALF_SATOSHI && UsageCharge(more, rate) >= SATOSHI
    ensures fee == FeeOwed(kb, rate, 0.0, 0.0) > 0.0
    ensures again == FeeOwed(kb + more, rate, 0.0, 0.0) && FeeOwed(kb + more, rate, 0.0, fee) != 0.0
    ensures charge == UsageCharge(kb + more, rate) && fee + again > charge + HALF_SATOSHI
  {
    fee, again := FeeOwed(kb, rate, 0.0, 0.0), FeeOwed(kb + more, rate, 0.0, 0.0);
    charge := UsageCharge(kb + more, rate);
    FeeOwedFacts(kb, rate, 0.0, 0.0);
    FeeOwedFacts(kb + more, rate, 0.0, fee);
    FeeOwedFacts(kb + more, rate, 0.0, 0.0);
    WholeAmounts(fee, fee);
    assert charge == UsageCharge(kb, rate) + UsageCharge(more, rate);
  }

  /**
   In every session, at any rate, and for any traffic of at least half a satoshi
   and then a satoshi: the first notification is slow and the client gives up on
   it; the next round asks for everything again; both notifications arrive. No
   message is lost and no statement fails, and the provider has credited the
   first fee twice.
   */
  lemma OverlappingRoundsOvercredit(cfg: Session, s0: System, kb: real, more: real, one: Names, two: Names, rate: real)
    requires Initial(cfg, s0) && AllowsUnderclaim(cfg.limits) && kb >= 0.0 && more >= 0.0
    requires s0.provider.clients[cfg.clientId].feeRatePerKb == s0.client.sessions[cfg.sessionId].feeRatePerKb == rate
    requires UsageCharge(kb, rate) >= HALF_SATOSHI && UsageCharge(more, rate) >= SATOSHI
    requires {one.reference, two.reference} !! s0.provider.payments.Keys && one.reference != two.reference
    requires {one.paymentId, two.paymentId} !! s0.client.payments.Keys && one.paymentId != two.paymentId
    ensures var first := Exec(cfg, s0, UseAndPay(s0.awaited, kb, one));
            var second := Exec(cfg, first, UseAndPay(first.awaited, more, two));
            var s := Exec(cfg, second, LateNotices(0, two));
            && Overcredited(cfg, s)
            && CreditedTotal(s.provider.clients[cfg.clientId])
                 == FeeOwed(kb, rate, 0.0, 0.0) + FeeOwed(kb + more, rate, 0.0, 0.0)
  {
    StartsQuiet(cfg, s0, rate);
    var first, second, charge := TwoSlowRounds(cfg, s0, kb, more, one, two, rate);
    var s := BothArrive(cfg, second, two, charge);
  }

  lemma StartsQuiet(cfg: Session, s0: System, rate: real)
    requires Initial(cfg, s0)
    requires s0.provider.clients[cfg.clientId].feeRatePerKb == s0.client.sessions[cfg.sessionId].feeRatePerKb == rate
    ensures Identities(cfg, s0) && Quiet(s0) && Books(cfg, s0, rate, 0.0, 0.0, 0.0)
  {}

  lemma BooksCharge(cfg: Session, s: System, rate: real, used: real, paid: real, sent: real, charge: real)
    requires Identities(cfg, s) && Books(cfg, s, rate, used, paid, sent) && charge == UsageCharge(used, rate)
    ensures Charge(s.provider.clients[cfg.clientId]) == charge
    ensures CreditedTotal(s.provider.clients[cfg.clientId]) == paid
  {}

  lemma TwoSlowRounds(cfg: Session, s0: System, kb: real, more: real, one: Names, two: Names, rate: real)
    returns (first: System, second: System, charge: real)
    requires Identities(cfg, s0) && Quiet(s0) && s0.attempts == [] && Books(cfg, s0, rate, 0.0, 0.0, 0.0)
    requires AllowsUnderclaim(cfg.limits) && kb >= 0.0 && more >= 0.0
    requires UsageCharge(kb, rate) >= HALF_SATOSHI && UsageCharge(more, rate) >= SATOSHI
    requires {one.reference, two.reference} !! s0.provider.payments.Keys && one.reference != two.reference
    requires {one.paymentId, two.paymentId} !! s0.client.payments.Keys && one.paymentId != two.paymentId
    ensures first == Exec(cfg, s0, UseAndPay(s0.awaited, kb, one))
    ensures second == Exec(cfg, first, UseAndPay(first.awaited, more, two))
    ensures var fee, again := FeeOwed(kb, rate, 0.0, 0.0), FeeOwed(kb + more, rate, 0.0, 0.0);
            && Identities(cfg, second) && fee + again > charge + HALF_SATOSHI
            && Charge(second.provider.clients[cfg.clientId]) == charge
            && CreditedTotal(second.provider.clients[cfg.clientId]) == 0.0
            && |second.attempts| == 2
            && second.attempts[0].stage == second.attempts[1].stage == InFlight
            && second.attempts[0].note.amountTransferred == fee && second.attempts[1].note.amountTransferred == again
            && second.attempts[0].note.paymentReference in second.provider.payments
            && second.attempts[1].note.paymentReference in second.provider.payments
  {
    var fee, again;
    fee, again, charge := SecondFee(kb, more, rate);
    first := UsedAndAsked(cfg, s0, kb, one, rate, 0.0, kb, 0.0, 0.0, fee);
    second := UsedAndAsked(cfg, first, more, two, rate, kb, kb + more, 0.0, fee, again);
    assert second.attempts[0] == second.attempts[..1][0];
    BooksCharge(cfg, second, rate, kb + more, 0.0, fee + again, charge);
  }
}
