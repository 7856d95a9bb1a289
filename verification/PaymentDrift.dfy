/**
 How a session drifts apart although nothing fails: the client meters traffic the
 provider has not metered yet, claims more than the tolerance, is told to pay a
 reference without a row, pays it, and is refused.
 */
module PaymentDrift {
  import opened Amounts
  import opened Tables
  import opened PaymentHandler
  import opened PaymentLoop
  import opened PaymentProtocol
  import opened PaymentLockstep
  import opened PaymentRefusals
  import opened PaymentCollisions
  import opened PaymentSession

  // ---- Runs in pieces ----

  lemma CalmThree(cfg: Session, s: System, steps: seq<Step>)
    requires |steps| == 3 && Calm(cfg, s, steps[0])
    requires Calm(cfg, Apply(cfg, s, steps[0]), steps[1])
    requires Calm(cfg, Apply(cfg, Apply(cfg, s, steps[0]), steps[1]), steps[2])
    ensures CalmRun(cfg, s, steps)
  {
    var s1 := Apply(cfg, s, steps[0]);
    var s2 := Apply(cfg, s1, steps[1]);
    assert CalmRun(cfg, Apply(cfg, s2, steps[2]), steps[1..][1..][1..]);
    assert steps[1..][1..][0] == steps[2] && steps[1..][0] == steps[1];
    assert CalmRun(cfg, s2, steps[1..][1..]);
    assert CalmRun(cfg, s1, steps[1..]);
  }

  lemma {:induction false} CalmConcat(cfg: Session, s: System, xs: seq<Step>, ys: seq<Step>)
    requires CalmRun(cfg, s, xs) && CalmRun(cfg, Exec(cfg, s, xs), ys)
    ensures CalmRun(cfg, s, xs + ys)
    decreases |xs|
  {
    if xs == [] {
      assert xs + ys == ys;
    } else {
      assert (xs + ys)[1..] == xs[1..] + ys;
      CalmConcat(cfg, Apply(cfg, s, xs[0]), xs[1..], ys);
    }
  }

  // ---- The claim ----

  /** One satoshi at the provider, and so many more at the client that the claim is beyond the threshold. */
  lemma ExcessiveTraffic(limits: Limits, rate: real) returns (t: Apart)
    requires limits.termination >= 0.0 && rate > 0.0
    ensures t.clientKb >= 0.0 && t.providerKb >= 0.0
    ensures t.clientFee == FeeOwed(t.clientKb, rate, 0.0, 0.0) > 0.0
    ensures t.providerFee == FeeOwed(t.providerKb, rate, 0.0, 0.0) > 0.0
    ensures PercentDiff(t.clientFee, t.providerFee) > limits.termination
  {
    var more := (limits.termination / 100.0).Floor + 1;
    var diff := PercentDiff((1 + more) as real, 1.0);
    assert diff == more as real * 100.0 > limits.termination;
    t := PricedApart(1, more, rate, diff);
  }

  // ---- The round ----

  /** The provider asks for its fee without recording it; the client is about to pay. */
  lemma AskedWithoutRow(cfg: Session, s: System, names: Names) returns (t: System)
    requires Identities(cfg, s) && Quiet(s) && s.attempts == []
    requires OwedByClient(cfg, s) != 0.0 && names.reference !in s.provider.payments
    requires VerdictFor(s.provider.clients[cfg.clientId], s.client.sessions[cfg.sessionId].dataTransferredKb,
                        OwedByClient(cfg, s), cfg.limits).OverTermination?
    ensures t == Exec(cfg, s, AgreeSteps(s.awaited, names)) && CalmRun(cfg, s, AgreeSteps(s.awaited, names))
    ensures t == s.(client := s.client.(phase := Paying(s.client.sessions[cfg.sessionId],
                                          PaymentRequest(OwedToProvider(cfg, s), names.reference, s.provider.address))),
                    awaited := s.awaited + 1, basis := t.basis)
  {
    var env, steps := NO_FAILURE(names.reference), AgreeSteps(s.awaited, names);
    var s1 := Apply(cfg, s, StartRound(true));
    FoundRow(s.provider.clients, cfg.clientId);
    var s2 := Apply(cfg, s1, DeliverPre(s.awaited + 1, env, true));
    assert s1.requests - {s.awaited + 1} == s.requests;
    t := Apply(cfg, s2, TakeReply);
    ExecThree(cfg, s, steps);
    AskedCalmly(cfg, s, names);
  }

  lemma AskedCalmly(cfg: Session, s: System, names: Names)
    requires Quiet(s) && s.attempts == [] && names.reference !in s.provider.payments
    ensures CalmRun(cfg, s, AgreeSteps(s.awaited, names))
  {
    var s1 := Apply(cfg, s, StartRound(true));
    assert !Uses(s1, names.reference) && s1.provider == s.provider;
    CalmThree(cfg, s, AgreeSteps(s.awaited, names));
  }

  lemma PaidCalmly(cfg: Session, t: System, names: Names)
    requires t.client.phase.Paying? && names.paymentId !in t.client.payments
    ensures CalmRun(cfg, t, PaySteps(names))
  {
    CalmThree(cfg, t, PaySteps(names));
  }

  /** The notification names an unknown reference and is refused; the client does not look at the answer. */
  lemma RefusedNotice(cfg: Session, u: System, names: Names) returns (v: System)
    requires Identities(cfg, u) && u.client.phase.Notifying? && |u.attempts| == 1
    requires u.attempts[0].note.paymentReference !in u.provider.payments
    ensures v == Exec(cfg, u, CreditSteps(0, names)) && CalmRun(cfg, u, CreditSteps(0, names))
    ensures v.client == u.client.(phase := Idle) && v.provider.clients == u.provider.clients
  {
    var u1 := u.(client := u.client.(phase := AwaitingPost), attempts := SetLast(u.attempts, InFlight));
    var u2 := NoticeBySettled(cfg, u1, 0, NO_FAILURE(names.reference));
    v := AnswerTaken(cfg, u2);
    CreditIsThreeSteps(cfg, u, u1, u2, v, 0, names);
    NotifiedCalmly(cfg, u, names);
  }

  lemma NotifiedCalmly(cfg: Session, u: System, names: Names)
    ensures CalmRun(cfg, u, CreditSteps(0, names))
  {
    CalmThree(cfg, u, CreditSteps(0, names));
  }

  lemma RoundWithoutRow(cfg: Session, s: System, names: Names) returns (v: System)
    requires Identities(cfg, s) && Quiet(s) && s.attempts == []
    requires OwedByClient(cfg, s) != 0.0
    requires names.reference !in s.provider.payments && names.paymentId !in s.client.payments
    requires VerdictFor(s.provider.clients[cfg.clientId], s.client.sessions[cfg.sessionId].dataTransferredKb,
                        OwedByClient(cfg, s), cfg.limits).OverTermination?
    ensures v == Exec(cfg, s, AgreeSteps(s.awaited, names) + PaySteps(names) + CreditSteps(0, names))
    ensures CalmRun(cfg, s, AgreeSteps(s.awaited, names) + PaySteps(names) + CreditSteps(0, names))
    ensures v.client.phase.Idle? && v.provider.clients == s.provider.clients
    ensures v.client.sessions == CountSent(s.client.sessions, cfg.sessionId, OwedToProvider(cfg, s))
  {
    var ask, pay, credit := AgreeSteps(s.awaited, names), PaySteps(names), CreditSteps(0, names);
    var t := AskedWithoutRow(cfg, s, names);
    var u := PaymentPhase(cfg, t, names);
    PaidCalmly(cfg, t, names);
    v := RefusedNotice(cfg, u, names);
    ExecConcat3(cfg, s, ask, pay, credit);
    ExecConcat(cfg, s, ask, pay);
    CalmConcat(cfg, s, ask, pay);
    CalmConcat(cfg, s, ask + pay, credit);
  }

  lemma MeteredCalmly(cfg: Session, s: System, clientKb: real, providerKb: real)
    ensures CalmRun(cfg, s, MeterApart(clientKb, providerKb))
  {
    var steps := MeterApart(clientKb, providerKb);
    var s1 := Apply(cfg, s, steps[0]);
    assert CalmRun(cfg, Apply(cfg, s1, steps[1]), steps[1..][1..]);
    assert steps[1..][0] == steps[1];
    assert CalmRun(cfg, s1, steps[1..]);
  }

  /**
   In every session at a positive rate there is a run in which nothing fails, nothing
   is lost and the client waits for every answer, and which drifts: the client has
   paid and counted a positive amount and the provider has credited nothing.
   */
  lemma SessionsCanDrift(cfg: Session, s0: System, rate: real, names: Names) returns (steps: seq<Step>)
    requires Initial(cfg, s0) && cfg.limits.termination >= 0.0 && rate > 0.0
    requires s0.provider.clients[cfg.clientId].feeRatePerKb == s0.client.sessions[cfg.sessionId].feeRatePerKb == rate
    requires names.reference !in s0.provider.payments && names.paymentId !in s0.client.payments
    ensures CalmRun(cfg, s0, steps) && SomeDrift(cfg, s0, steps)
    ensures var s := Exec(cfg, s0, steps);
            && cfg.sessionId in s.client.sessions && cfg.clientId in s.provider.clients
            && s.client.phase.Idle?
            && s.client.sessions[cfg.sessionId].totalFeeSentUnconfirmed > 0.0
            && s.provider.clients[cfg.clientId].totalFeeReceivedUnconfirmed == 0.0
  {
    var t := ExcessiveTraffic(cfg.limits, rate);
    var meter := MeterApart(t.clientKb, t.providerKb);
    var s1 := MeteredApart(cfg, s0, t.clientKb, t.providerKb);
    assert OwedByClient(cfg, s1) == t.clientFee && OwedToProvider(cfg, s1) == t.providerFee;
    var round := AgreeSteps(s1.awaited, names) + PaySteps(names) + CreditSteps(0, names);
    var s := RoundWithoutRow(cfg, s1, names);
    steps := meter + round;
    ExecConcat(cfg, s0, meter, round);
    MeteredCalmly(cfg, s0, t.clientKb, t.providerKb);
    CalmConcat(cfg, s0, meter, round);
    Lockstep(cfg, s0, steps);
  }
}
