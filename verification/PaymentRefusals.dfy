/**
 When the client can run into one of its unimplemented answers: exactly when an
 allowance is below the termination threshold, and then in every session.
 */
module PaymentRefusals {
  import opened Amounts
  import opened Tables
  import opened PaymentHandler
  import opened PaymentProtocol
  import opened PaymentLockstep

  /** The smaller allowance: claims further off than this are refused. */
  function Allowance(limits: Limits): real {
    if limits.feeOwed <= limits.dataTransfer then limits.feeOwed else limits.dataTransfer
  }

  /** `more` satoshis claimed for each `due` owed is between `low` and `high` percent too much. */
  predicate OffBetween(due: int, more: int, low: real, high: real) {
    due > 0 && more >= 0 && due as real * low / 100.0 < more as real <= due as real * high / 100.0
  }

  /** Any gap between two percentages contains the ratio of two whole numbers. */
  lemma RatioInGap(low: real, high: real) returns (due: int, more: int)
    requires 0.0 <= low < high
    ensures OffBetween(due, more, low, high)
  {
    due := (100.0 / (high - low)).Floor + 1;
    more := (due as real * high / 100.0).Floor;
    var d := due as real;
    assert d > 100.0 / (high - low) > 0.0;
    assert d * (high - low) > 100.0 by {
      CompareScaled(d, 100.0 / (high - low), high - low);
    }
    assert d * (high - low) == d * high - d * low;
    NonNegative(d, low);
    assert more as real > d * high / 100.0 - 1.0;
    NonNegative(d, high);
  }

  lemma OffByPercent(due: int, more: int, low: real, high: real)
    requires OffBetween(due, more, low, high) && 0.0 <= low < high
    ensures low < PercentDiff((due + more) as real, due as real) <= high
  {
    var d := due as real;
    var value := (due + more) as real;
    assert value == d + more as real;
    NonNegative(d, high);
    PercentDiffBand(value, d, low);
    PercentDiffBand(value, d, high);
    assert d * (1.0 + low / 100.0) == d + d * low / 100.0;
    assert d * (1.0 + high / 100.0) == d + d * high / 100.0;
    assert d * (1.0 - high / 100.0) == d - d * high / 100.0;
  }

  /** The same ratio in any unit is off by the same percentage. */
  lemma PercentDiffScales(value: real, target: real, unit: real, scaledValue: real, scaledTarget: real)
    requires target > 0.0 && unit > 0.0 && scaledValue == value * unit && scaledTarget == target * unit
    ensures PercentDiff(scaledValue, scaledTarget) == PercentDiff(value, target)
  {
    var q := (value - target) / target;
    assert q * target == value - target;
    Positive(target, unit);
    assert q * (target * unit) == (q * target) * unit == value * unit - target * unit;
    assert (value * unit - target * unit) / (target * unit) == q;
  }

  /** The traffic that costs one satoshi. */
  lemma SatoshiUnit(rate: real) returns (unit: real)
    requires rate > 0.0
    ensures unit > 0.0 && unit * rate == SATOSHI
  {
    unit := SATOSHI / rate;
    Positive(SATOSHI, 1.0 / rate);
    assert unit == SATOSHI * (1.0 / rate);
  }

  lemma WholeFee(satoshis: int, unit: real, rate: real) returns (kb: real, fee: real)
    requires satoshis > 0 && unit > 0.0 && unit * rate == SATOSHI
    ensures kb == satoshis as real * unit >= 0.0
    ensures fee == FeeOwed(kb, rate, 0.0, 0.0) == satoshis as real * SATOSHI > 0.0
  {
    kb, fee := satoshis as real * unit, satoshis as real * SATOSHI;
    assert kb * rate == satoshis as real * (unit * rate);
    assert fee * 100000000.0 == satoshis as real;
    NonNegative(satoshis as real, unit);
    assert WholeAmount(fee);
    WholeDueIsOwed(fee);
    assert UsageCharge(kb, rate) - 0.0 - 0.0 == fee;
  }

  predicate Refuses(limits: Limits, feeDiff: real, dataDiff: real) {
    Judge(limits, feeDiff, dataDiff).FeeOverLimit? || Judge(limits, feeDiff, dataDiff).DataOverLimit?
  }

  lemma JudgeRefuses(limits: Limits, feeDiff: real, dataDiff: real)
    requires Allowance(limits) < feeDiff <= limits.termination && Allowance(limits) < dataDiff <= limits.termination
    ensures Refuses(limits, feeDiff, dataDiff)
  {}

  /** Whole numbers so far apart that the claim is refused, but not terminated. */
  lemma RefusedRatio(limits: Limits) returns (due: int, more: int, diff: real)
    requires 0.0 <= Allowance(limits) < limits.termination
    ensures due > 0 && more >= 0 && diff == PercentDiff((due + more) as real, due as real)
    ensures Refuses(limits, diff, diff)
  {
    due, more := RatioInGap(Allowance(limits), limits.termination);
    diff := PercentDiff((due + more) as real, due as real);
    OffByPercent(due, more, Allowance(limits), limits.termination);
    JudgeRefuses(limits, diff, diff);
  }

  /** Traffic and fees of both sides for which the claim is refused. */
  datatype Apart = Apart(clientKb: real, clientFee: real, providerKb: real, providerFee: real)

  lemma RefusedTraffic(limits: Limits, rate: real) returns (t: Apart)
    requires 0.0 <= Allowance(limits) < limits.termination && rate > 0.0
    ensures t.clientKb >= 0.0 && t.providerKb >= 0.0
    ensures t.clientFee == FeeOwed(t.clientKb, rate, 0.0, 0.0) > 0.0
    ensures t.providerFee == FeeOwed(t.providerKb, rate, 0.0, 0.0)
    ensures Refuses(limits, PercentDiff(t.clientFee, t.providerFee), PercentDiff(t.clientKb, t.providerKb))
  {
    var due, more, diff := RefusedRatio(limits);
    t := PricedApart(due, more, rate, diff);
    assert Refuses(limits, diff, diff);
  }

  /** Both sides' traffic in the ratio of two whole numbers, priced in as many satoshis. */
  lemma PricedApart(due: int, more: int, rate: real, diff: real) returns (t: Apart)
    requires due > 0 && more >= 0 && rate > 0.0 && diff == PercentDiff((due + more) as real, due as real)
    ensures t.clientKb >= 0.0 && t.providerKb >= 0.0
    ensures t.clientFee == FeeOwed(t.clientKb, rate, 0.0, 0.0) > 0.0
    ensures t.providerFee == FeeOwed(t.providerKb, rate, 0.0, 0.0) > 0.0
    ensures PercentDiff(t.clientFee, t.providerFee) == PercentDiff(t.clientKb, t.providerKb) == diff
  {
    var unit := SatoshiUnit(rate);
    var providerKb, providerFee := WholeFee(due, unit, rate);
    var clientKb, clientFee := WholeFee(due + more, unit, rate);
    t := Apart(clientKb, clientFee, providerKb, providerFee);
    PercentDiffScales((due + more) as real, due as real, unit, t.clientKb, t.providerKb);
    PercentDiffScales((due + more) as real, due as real, SATOSHI, t.clientFee, t.providerFee);
  }

  function MeterApart(clientKb: real, providerKb: real): seq<Step> {
    [MeterAtClient(clientKb, true), MeterAtProvider(providerKb, true)]
  }

  lemma MeteredApart(cfg: Session, s0: System, clientKb: real, providerKb: real) returns (s: System)
    requires Initial(cfg, s0) && clientKb >= 0.0 && providerKb >= 0.0
    ensures s == Exec(cfg, s0, MeterApart(clientKb, providerKb))
    ensures Identities(cfg, s) && Quiet(s) && s.attempts == []
    ensures s.provider.payments == s0.provider.payments && s.client.payments == s0.client.payments
    ensures s.provider.clients[cfg.clientId] == s0.provider.clients[cfg.clientId].(dataTransferredKb := providerKb)
    ensures s.client.sessions[cfg.sessionId] == s0.client.sessions[cfg.sessionId].(dataTransferredKb := clientKb)
  {
    var steps := MeterApart(clientKb, providerKb);
    ExecCons(cfg, s0, steps);
    ExecCons(cfg, Apply(cfg, s0, steps[0]), steps[1..]);
    s := Exec(cfg, s0, steps);
  }

  lemma RefusedRound(cfg: Session, s: System, names: Names)
    requires Identities(cfg, s) && Quiet(s) && OwedByClient(cfg, s) != 0.0
    requires Refuses(cfg.limits, PercentDiff(OwedByClient(cfg, s), OwedToProvider(cfg, s)),
                     PercentDiff(s.client.sessions[cfg.sessionId].dataTransferredKb,
                                 s.provider.clients[cfg.clientId].dataTransferredKb))
    ensures Exec(cfg, s, AgreeSteps(s.awaited, names)).client.phase.Panicked?
  {
    FoundRow(s.provider.clients, cfg.clientId);
    ExecThree(cfg, s, AgreeSteps(s.awaited, names));
  }

  /** With an allowance below the termination threshold, some traffic makes the client panic in its first round. */
  lemma RefusalIsReached(cfg: Session, s0: System, rate: real, names: Names) returns (steps: seq<Step>)
    requires Initial(cfg, s0) && 0.0 <= Allowance(cfg.limits) < cfg.limits.termination && rate > 0.0
    requires s0.provider.clients[cfg.clientId].feeRatePerKb == s0.client.sessions[cfg.sessionId].feeRatePerKb == rate
    ensures Exec(cfg, s0, steps).client.phase.Panicked?
  {
    var t := RefusedTraffic(cfg.limits, rate);
    var s := MeteredApart(cfg, s0, t.clientKb, t.providerKb);
    assert OwedByClient(cfg, s) == t.clientFee && OwedToProvider(cfg, s) == t.providerFee;
    RefusedRound(cfg, s, names);
    steps := MeterApart(t.clientKb, t.providerKb) + AgreeSteps(s.awaited, names);
    ExecConcat(cfg, s0, MeterApart(t.clientKb, t.providerKb), AgreeSteps(s.awaited, names));
  }

  /**
   For every session at a positive rate and all non-negative allowances: some run
   reaches one of the client's `todo!()` arms exactly when an allowance is below
   the termination threshold.
   */
  lemma UnimplementedArmsReachableIff(cfg: Session, s0: System, rate: real)
    requires Initial(cfg, s0) && Allowance(cfg.limits) >= 0.0 && rate > 0.0
    requires s0.provider.clients[cfg.clientId].feeRatePerKb == s0.client.sessions[cfg.sessionId].feeRatePerKb == rate
    ensures (exists steps :: Exec(cfg, s0, steps).client.phase.Panicked?) <==> !AllowancesCoverTermination(cfg.limits)
  {
    if AllowancesCoverTermination(cfg.limits) {
      forall steps
        ensures !Exec(cfg, s0, steps).client.phase.Panicked?
      {
        NoRunReachesUnimplementedArms(cfg, s0, steps);
      }
    } else {
      var steps := RefusalIsReached(cfg, s0, rate, Names("", "", ""));
    }
  }

  /** The node's own constants are on the safe side: with them no run of any session reaches such an arm. */
  lemma ConfiguredLimitsAreSafe(cfg: Session, s0: System, steps: seq<Step>)
    requires Initial(cfg, s0) && cfg.limits == CONFIGURED_LIMITS
    ensures AllowancesCoverTermination(cfg.limits) && Within(cfg.limits) && AllowsUnderclaim(cfg.limits)
    ensures !Exec(cfg, s0, steps).client.phase.Panicked?
  {
    NoRunReachesUnimplementedArms(cfg, s0, steps);
  }
}
