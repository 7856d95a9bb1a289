/**
 Bitcoin amounts: rounding to a number of decimals, percent difference and the
 fee formula shared by both ledgers (common/utils.rs, db/schema.rs).
 Amounts are exact reals; floating-point error is not modelled.
 */
module Amounts {

  // Bitcoin has at most 8 decimals
  const BTC_PRECISION: nat := 8
  const SATOSHI: real := 0.00000001
  const HALF_SATOSHI: real := 0.000000005

  function Abs(x: real): real { if x < 0.0 then -x else x }

  function Max(x: real, y: real): real { if x < y then y else x }

  function Pow10(n: nat): (y: nat)
    ensures y >= 1
  {
    if n == 0 then 1 else 10 * Pow10(n - 1)
  }

  /** Nearest integer, ties away from zero (`f64::round`). */
  function RoundHalfAway(z: real): int {
    if z >= 0.0 then (z + 0.5).Floor else -((0.5 - z).Floor)
  }

  /** `10i32.pow(decimals)` overflows from 10 decimals on. */
  function Round(x: real, decimals: nat): real
    requires decimals <= 9
  {
    var y := Pow10(decimals) as real;
    RoundHalfAway(x * y) as real / y
  }

  /** `a` is a whole number of satoshis. */
  predicate IsWhole(a: real) {
    (a * 100000000.0).Floor as real == a * 100000000.0
  }

  predicate WholeAmount(a: real) { a >= 0.0 && IsWhole(a) }

  function PercentDiff(value: real, target: real): real {
    if target == 0.0 then 0.0 else Abs((value - target) / target) * 100.0
  }

  function FeeFor(due: real): real { Max(Round(due, BTC_PRECISION), 0.0) }

  function UsageCharge(usageKb: real, rate: real): real { usageKb * rate }

  /** What is still owed for `usageKb` at `rate` after `paid` and `unconfirmed`. */
  function FeeOwed(usageKb: real, rate: real, paid: real, unconfirmed: real): real {
    FeeFor(UsageCharge(usageKb, rate) - paid - unconfirmed)
  }

  // ---- Rounding ----

  lemma Positive(a: real, b: real)
    requires a > 0.0 && b > 0.0
    ensures a * b > 0.0
  {}

  lemma NonNegative(a: real, b: real)
    requires a >= 0.0 && b >= 0.0
    ensures a * b >= 0.0
  {}

  lemma RoundAtBtcPrecision(x: real)
    ensures Pow10(BTC_PRECISION) == 100000000
    ensures Round(x, BTC_PRECISION) == RoundHalfAway(x * 100000000.0) as real / 100000000.0
  {
    assert Pow10(8) == 10 * Pow10(7) == 100 * Pow10(6) == 1000 * Pow10(5);
    assert Pow10(5) == 10 * Pow10(4) == 100 * Pow10(3) == 1000 * Pow10(2);
    assert Pow10(2) == 100;
  }

  /**
   At the one precision the node uses: the result is a whole number of satoshis,
   no other whole amount is nearer, and an equally near one is nearer to zero.
   */
  lemma RoundIsNearest(x: real, other: real)
    requires IsWhole(other)
    ensures var r := Round(x, BTC_PRECISION);
            && IsWhole(r)
            && Abs(r - x) <= HALF_SATOSHI
            && Abs(r - x) <= Abs(other - x)
            && (Abs(r - x) == Abs(other - x) && r != other ==> Abs(other) < Abs(r))
  {
    RoundAtBtcPrecision(x);
    var z, m, k := x * 100000000.0, RoundHalfAway(x * 100000000.0), (other * 100000000.0).Floor;
    assert k <= m - 1 || k == m || k >= m + 1;
    assert Round(x, BTC_PRECISION) * 100000000.0 == m as real;
  }

  // ---- Fees ----

  /**
   The fee is a non-negative whole number of satoshis; it is zero exactly when
   less than half a satoshi is due, and otherwise within half a satoshi of what
   is due; once it is paid nothing is owed.
   */
  lemma FeeForFacts(due: real)
    ensures var fee := FeeFor(due);
            && fee >= 0.0 && IsWhole(fee)
            && (fee == 0.0 <==> due < HALF_SATOSHI)
            && (due >= -HALF_SATOSHI ==> Abs(fee - due) <= HALF_SATOSHI)
            && due - fee < HALF_SATOSHI
            && FeeFor(due - fee) == 0.0
  {
    RoundAtBtcPrecision(due);
    RoundAtBtcPrecision(due - FeeFor(due));
  }

  /** The same for a ledger: what is due is usage times rate, to the last digit, less what was paid. */
  lemma FeeOwedFacts(usageKb: real, rate: real, paid: real, unconfirmed: real)
    ensures var due := usageKb * rate - paid - unconfirmed;
            var fee := FeeOwed(usageKb, rate, paid, unconfirmed);
            && fee >= 0.0 && IsWhole(fee)
            && (fee == 0.0 <==> due < HALF_SATOSHI)
            && (due >= -HALF_SATOSHI ==> Abs(fee - due) <= HALF_SATOSHI)
            && due - fee < HALF_SATOSHI
            && FeeOwed(usageKb, rate, paid, unconfirmed + fee) == 0.0
  {
    var due := usageKb * rate - paid - unconfirmed;
    FeeForFacts(due);
    assert usageKb * rate - paid - (unconfirmed + FeeFor(due)) == due - FeeFor(due);
  }

  lemma FeeForMonotone(due: real, more: real)
    requires due <= more
    ensures FeeFor(due) <= FeeFor(more)
  {
    RoundAtBtcPrecision(due);
    RoundAtBtcPrecision(more);
    RoundMonotone(due * 100000000.0, more * 100000000.0);
  }

  lemma RoundMonotone(z: real, w: real)
    requires z <= w
    ensures RoundHalfAway(z) <= RoundHalfAway(w)
  {}

  /** A whole amount due is owed to the satoshi. */
  lemma WholeDueIsOwed(due: real)
    requires WholeAmount(due)
    ensures FeeFor(due) == due
  {
    RoundIsNearest(due, due);
  }

  /** Whole amounts add up to whole amounts, and the smallest positive one is a satoshi. */
  lemma WholeAmounts(a: real, b: real)
    requires IsWhole(a) && IsWhole(b)
    ensures IsWhole(a + b)
    ensures a > 0.0 ==> a >= SATOSHI
  {
    var i, j := (a * 100000000.0).Floor, (b * 100000000.0).Floor;
    assert (a + b) * 100000000.0 == (i + j) as real;
  }

  // ---- Tolerance ----

  /** The percent test fires exactly outside the band target*(1 - T/100) .. target*(1 + T/100). */
  lemma PercentDiffBand(value: real, target: real, threshold: real)
    requires target > 0.0
    ensures PercentDiff(value, target) > threshold <==>
            value < target * (1.0 - threshold / 100.0) || value > target * (1.0 + threshold / 100.0)
  {
    var q := (value - target) / target;
    assert q * target == value - target;
    var t := threshold / 100.0;
    assert target * (1.0 + t) == target + t * target;
    assert target * (1.0 - t) == target - t * target;
    CompareScaled(q, t, target);
    CompareScaled(-q, t, target);
    assert (-q) * target == target - value;
    assert PercentDiff(value, target) == Abs(q) * 100.0;
  }

  /** A claim between nothing and the target is at most 100 percent off. */
  lemma ClaimBelowTarget(claim: real, target: real)
    requires 0.0 <= claim <= target
    ensures PercentDiff(claim, target) <= 100.0
  {
    if target > 0.0 {
      PercentDiffBand(claim, target, 100.0);
    }
  }

  lemma CompareScaled(a: real, b: real, y: real)
    requires y > 0.0
    ensures a > b <==> a * y > b * y
  {
    if a > b {
      Positive(a - b, y);
      assert (a - b) * y == a * y - b * y;
    } else {
      NonNegative(b - a, y);
      assert (b - a) * y == b * y - a * y;
    }
  }
}
