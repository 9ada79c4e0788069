/** The runtime's weight fee: an integer coefficient plus parts per billion. */
module Fees {
  import opened Types
  import opened Extension

  const BILLION := 1_000_000_000
  const MILLI_UNIT: nat := 1_000_000_000
  const MICRO_UNIT: nat := 1_000_000
  const WEIGHT_REF_TIME_PER_NANOS: nat := 1_000
  const EXTRINSIC_BASE_WEIGHT: nat := WEIGHT_REF_TIME_PER_NANOS * 125_000

  datatype Coefficient = Coefficient(integer: nat, parts: nat)

  /** `p / q` in parts per billion, rounded down. */
  function FromRational(p: nat, q: nat): nat
    requires q > 0
  {
    p * BILLION / q
  }

  /** The coefficient the runtime builds for the ratio `p / q`. */
  function Polynomial(p: nat, q: nat): Coefficient
    requires q > 0
  {
    Coefficient(p / q, FromRational(p % q, q))
  }

  /** Division by a billion, to the nearest, ties down. */
  function PerBillion(n: nat): nat {
    n / BILLION + if 2 * (n % BILLION) > BILLION then 1 else 0
  }

  function WeightToFee(c: Coefficient, weight: nat): nat {
    c.integer * weight + PerBillion(c.parts * weight)
  }

  /** Rounding moves the value by at most half a unit, and by half a unit only down. */
  lemma PerBillionNear(n: nat)
    ensures -BILLION <= 2 * (BILLION * PerBillion(n) - n) < BILLION
  {
  }

  lemma PerBillionMonotone(m: nat, n: nat)
    requires m <= n
    ensures PerBillion(m) <= PerBillion(n)
  {
    if m / BILLION < n / BILLION {
      assert PerBillion(m) <= m / BILLION + 1;
    } else {
      assert m % BILLION <= n % BILLION;
    }
  }

  lemma MulMonotone(k: nat, v: nat, w: nat)
    requires v <= w
    ensures k * v <= k * w
  {
    assert k * w == k * v + k * (w - v);
  }

  /** The fee never falls as the weight rises, for every coefficient. */
  lemma WeightToFeeMonotone(c: Coefficient, v: nat, w: nat)
    requires v <= w
    ensures WeightToFee(c, v) <= WeightToFee(c, w)
  {
    MulMonotone(c.integer, v, w);
    MulMonotone(c.parts, v, w);
    PerBillionMonotone(c.parts * v, c.parts * w);
  }

  lemma Scale(q: nat, lo: int, x: int, hi: int)
    requires lo <= x <= hi
    ensures q * lo <= q * x <= q * hi
  {
    assert q * x == q * lo + q * (x - lo);
    assert q * hi == q * x + q * (hi - x);
  }

  /** Separates the error of the coefficient, `t`, from the error of the final rounding. */
  lemma ErrorTerms(p: nat, q: nat, i: nat, r: nat, parts: nat, t: nat, w: nat, f: nat)
    requires p == i * q + r && r * BILLION == parts * q + t
    ensures q * BILLION * (i * w + f) - BILLION * w * p == q * (BILLION * f - parts * w) - w * t
  {
    calc {
      q * BILLION * (i * w + f) - BILLION * w * p;
      q * BILLION * (i * w + f) - BILLION * w * (i * q + r);
      { assert q * BILLION * (i * w + f) == BILLION * w * (i * q) + q * (BILLION * f);
        assert BILLION * w * (i * q + r) == BILLION * w * (i * q) + w * (r * BILLION); }
      q * (BILLION * f) - w * (r * BILLION);
      q * (BILLION * f) - w * (parts * q + t);
      { assert w * (parts * q + t) == q * (parts * w) + w * t; }
      q * (BILLION * f) - q * (parts * w) - w * t;
      q * (BILLION * f - parts * w) - w * t;
    }
  }

  lemma ErrorBound(p: nat, q: nat, i: nat, r: nat, parts: nat, t: nat, w: nat, f: nat)
    requires p == i * q + r && r * BILLION == parts * q + t && t <= q
    requires -BILLION <= BILLION * f - parts * w <= BILLION
    ensures -(q * w + q * BILLION) <= q * BILLION * (i * w + f) - BILLION * w * p <= q * BILLION
  {
    ErrorTerms(p, q, i, r, parts, t, w, f);
    Scale(q, -BILLION, BILLION * f - parts * w, BILLION);
    Scale(w, 0, t, q);
    Combine(q * BILLION, q * (BILLION * f - parts * w), w * t, q * w);
  }

  /** For every ratio and weight the fee is within `w / 10^9 + 1` of `w * p / q` (both sides times
      `10^9 * q`): the coefficient only ever rounds down, the product to the nearest. */
  lemma WeightToFeeNear(p: nat, q: nat, w: nat)
    requires q > 0
    ensures var error := q * BILLION * WeightToFee(Polynomial(p, q), w) - BILLION * w * p;
            -(q * w + q * BILLION) <= error <= q * BILLION
  {
    var c := Polynomial(p, q);
    var r := p % q;
    QuotientBelow(p, q);
    QuotientBelow(r * BILLION, q);
    PerBillionNear(c.parts * w);
    ErrorBound(p, q, c.integer, r, c.parts, r * BILLION - c.parts * q, w, PerBillion(c.parts * w));
  }

  lemma QuotientBelow(n: nat, q: nat)
    requires q > 0
    ensures n == n / q * q + n % q && 0 <= n - n / q * q < q
  {
  }

  lemma Combine(bound: int, x: int, y: int, most: int)
    requires -bound <= x <= bound && 0 <= y <= most
    ensures -(most + bound) <= x - y <= bound
  {
  }

  /** The runtime's own constants: 1/10 milli-unit per hundred base weights. */
  function RuntimeCoefficient(): Coefficient {
    Polynomial(MILLI_UNIT / 10, 100 * EXTRINSIC_BASE_WEIGHT)
  }

  /** With the ratio rounded down in one step, the runtime's coefficient is exactly 1/125, so the
      fee is the weight over 125 rounded to the nearest, and no more. */
  lemma RuntimeCoefficientExact(w: nat)
    ensures RuntimeCoefficient() == Coefficient(0, 8_000_000)
    ensures RuntimeCoefficient().parts * (100 * EXTRINSIC_BASE_WEIGHT) == BILLION * (MILLI_UNIT / 10)
    ensures -125 <= 2 * (125 * WeightToFee(RuntimeCoefficient(), w) - w) < 125
    ensures WeightToFee(RuntimeCoefficient(), EXTRINSIC_BASE_WEIGHT) == MILLI_UNIT / 1000
  {
    PerBillionNear(8_000_000 * w);
  }

  /** The same ratio for a library that first divides both numbers by `factor`, the least one that
      brings the denominator down to a billion. */
  function FromScaled(p: nat, q: nat, factor: nat): nat
    requires 0 < factor <= q
  {
    p / factor * BILLION / (q / factor)
  }

  /** The runtime's ratio, whether it is rounded in one step or scaled down first, gives a coefficient
      of 1/125 or one part per billion less, and a fee less than half a unit above a 125th of the
      weight and at most the weight over 10^9 and half a unit below it. */
  lemma RuntimeFeeNear(scaled: bool, w: nat)
    ensures var p, q := MILLI_UNIT / 10, 100 * EXTRINSIC_BASE_WEIGHT;
            var parts := if scaled then FromScaled(p, q, 13) else FromRational(p, q);
            && 12 * BILLION < q <= 13 * BILLION
            && parts == (if scaled then 7_999_999 else 8_000_000)
            && -(BILLION + 2 * w) <= 2 * (BILLION * WeightToFee(Coefficient(0, parts), w) - 8_000_000 * w) < BILLION
  {
    var p, q := MILLI_UNIT / 10, 100 * EXTRINSIC_BASE_WEIGHT;
    assert p == 100_000_000 && q == 12_500_000_000 && p / 13 == 7_692_307 && q / 13 == 961_538_461;
    var parts := if scaled then 7_999_999 else 8_000_000;
    PerBillionNear(parts * w);
  }

  // ------------------------------------------------- the fee of the transaction

  /** The multiplier counts in parts of this. */
  const MULTIPLIER_UNIT: nat := 1_000_000_000_000_000_000

  /** Base, length and multiplied weight fee; the weight is capped at the block limit. */
  function RuntimeInclusion(c: Coefficient, maxBlock: nat, multiplier: nat, len: nat, weight: nat): nat {
    WeightToFee(c, EXTRINSIC_BASE_WEIGHT) + 10 * MICRO_UNIT * len +
    multiplier * WeightToFee(c, Min(weight, maxBlock)) / MULTIPLIER_UNIT
  }

  /** What a transaction pays for: the base weight, ten micro-units a byte, and the multiplied fee of
      its weight up to the block limit. */
  lemma RuntimeFeeParts(c: Coefficient, maxBlock: nat, multiplier: nat, len: nat, weight: nat)
    ensures var fee := RuntimeInclusion(c, maxBlock, multiplier, len, weight);
            && RuntimeInclusion(c, maxBlock, multiplier, len + 1, weight) == fee + 10_000_000
            && RuntimeInclusion(c, maxBlock, 0, 0, weight) == WeightToFee(c, 125_000_000)
            && (weight <= maxBlock ==>
                  RuntimeInclusion(c, maxBlock, MULTIPLIER_UNIT, len, weight) ==
                  WeightToFee(c, 125_000_000) + 10_000_000 * len + WeightToFee(c, weight))
            && (weight >= maxBlock ==> fee == RuntimeInclusion(c, maxBlock, multiplier, len, maxBlock))
  {
    Cancel(WeightToFee(c, Min(weight, maxBlock)));
  }

  lemma Cancel(n: nat)
    ensures MULTIPLIER_UNIT * n / MULTIPLIER_UNIT == n && 0 * n / MULTIPLIER_UNIT == 0
  {
  }

  function RuntimeConfig(ed: nat, maxBalance: nat, c: Coefficient, maxBlock: nat, multiplier: nat): Config {
    Config(ed, maxBalance, (len: nat, weight: nat) => RuntimeInclusion(c, maxBlock, multiplier, len, weight))
  }

  lemma UnitsMonotone(m: nat, n: nat)
    requires m <= n
    ensures m / MULTIPLIER_UNIT <= n / MULTIPLIER_UNIT
  {
  }

  lemma RuntimeInclusionMonotone(c: Coefficient, maxBlock: nat, multiplier: nat, len: nat, v: nat, w: nat)
    requires v <= w
    ensures RuntimeInclusion(c, maxBlock, multiplier, len, v) <= RuntimeInclusion(c, maxBlock, multiplier, len, w)
  {
    var x, y := WeightToFee(c, Min(v, maxBlock)), WeightToFee(c, Min(w, maxBlock));
    WeightToFeeMonotone(c, Min(v, maxBlock), Min(w, maxBlock));
    MulMonotone(multiplier, x, y);
    UnitsMonotone(multiplier * x, multiplier * y);
  }

  /** The hypothesis on fees holds of the runtime, for every coefficient, fee multiplier and block
      limit. */
  lemma RuntimeFeesMonotone(ed: nat, maxBalance: nat, c: Coefficient, maxBlock: nat, multiplier: nat)
    ensures MonotoneFees(RuntimeConfig(ed, maxBalance, c, maxBlock, multiplier))
  {
    forall len: nat, v: nat, w: nat | v <= w
      ensures RuntimeConfig(ed, maxBalance, c, maxBlock, multiplier).inclusion(len, v) <=
              RuntimeConfig(ed, maxBalance, c, maxBlock, multiplier).inclusion(len, w)
    {
      RuntimeInclusionMonotone(c, maxBlock, multiplier, len, v, w);
    }
  }
}
