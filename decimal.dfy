/** Fixed-point rounding of exact decimals, as `BigDecimal.setScale(scale,
    RoundingMode.HALF_UP)` and `divide(divisor, scale, RoundingMode.HALF_UP)`
    perform it: keep `scale` fractional digits, and round a tie away from zero.

    The scale is passed as its unit `10^scale`: 100.0 for scale 2 and 10000.0 for
    scale 4. Call sites write the literal, so that every product with the unit
    stays linear arithmetic for the verifier. */
module Decimal {

  predicate IsWhole(y: real) {
    y.Floor as real == y
  }

  /** `x` has at most as many fractional digits as `unit` (a power of ten) allows. */
  predicate HasScale(x: real, unit: real) {
    IsWhole(x * unit)
  }

  /** Reference definition of HALF_UP: `r` has the scale of `unit`, lies within
      half a unit of `x`, and on a tie is the value farther from zero. */
  predicate IsHalfUpRounding(r: real, x: real, unit: real)
    requires unit > 0.0
  {
    && HasScale(r, unit)
    && (x >= 0.0 ==> x - 0.5 / unit < r <= x + 0.5 / unit)
    && (x < 0.0 ==> x - 0.5 / unit <= r < x + 0.5 / unit)
  }

  /** The value of `x` rounded HALF_UP to the scale of `unit`. */
  function RoundHalfUp(x: real, unit: real): (r: real)
    requires unit > 0.0
  {
    ScaledHalfUp(x, unit) as real / unit
  }

  /** `x * unit` rounded to a whole number, a tie away from zero. */
  function ScaledHalfUp(x: real, unit: real): int {
    if x >= 0.0 then (x * unit + 0.5).Floor else -((-x * unit + 0.5).Floor)
  }

  /** Rounding to two places meets the reference definition. */
  lemma RoundToCents(x: real)
    ensures IsHalfUpRounding(RoundHalfUp(x, 100.0), x, 100.0)
  {
  }

  /** Rounding to four places meets the reference definition. */
  lemma RoundToTenThousandths(x: real)
    ensures IsHalfUpRounding(RoundHalfUp(x, 10000.0), x, 10000.0)
  {
  }

  /** The reference definition leaves no choice: at most one value with two
      fractional digits is the HALF_UP rounding of `x`. */
  lemma CentsRoundingUnique(r1: real, r2: real, x: real)
    requires IsHalfUpRounding(r1, x, 100.0) && IsHalfUpRounding(r2, x, 100.0)
    ensures r1 == r2
  {
    var m1, m2 := (r1 * 100.0).Floor, (r2 * 100.0).Floor;
    assert -1.0 < r1 * 100.0 - r2 * 100.0 < 1.0;
    assert -1 < m1 - m2 < 1;
  }

  /** The same for four fractional digits, the scale of the pool term of the
      variable strategies. */
  lemma TenThousandthsRoundingUnique(r1: real, r2: real, x: real)
    requires IsHalfUpRounding(r1, x, 10000.0) && IsHalfUpRounding(r2, x, 10000.0)
    ensures r1 == r2
  {
    var m1, m2 := (r1 * 10000.0).Floor, (r2 * 10000.0).Floor;
    assert -1.0 < r1 * 10000.0 - r2 * 10000.0 < 1.0;
    assert -1 < m1 - m2 < 1;
  }

  /** A value that already has two fractional digits is its own rounding. */
  lemma RoundToCentsKeepsCents(x: real)
    requires HasScale(x, 100.0)
    ensures RoundHalfUp(x, 100.0) == x
  {
    RoundToCents(x);
    CentsRoundingUnique(RoundHalfUp(x, 100.0), x, x);
  }

  /** Rounding to four places is monotone: a larger input never rounds lower. */
  lemma TenThousandthsRoundingMonotone(x: real, y: real)
    requires x <= y
    ensures RoundHalfUp(x, 10000.0) <= RoundHalfUp(y, 10000.0)
  {
    var nx, ny := ScaledHalfUp(x, 10000.0), ScaledHalfUp(y, 10000.0);
    assert nx <= ny;
  }

  /** Scaling by a positive rate preserves order. */
  lemma ScalePositive(a: real, b: real, rate: real)
    requires a <= b && rate > 0.0
    ensures a * rate <= b * rate
  {
    var d := (b - a) * rate;
    assert d >= 0.0;
    assert d == b * rate - a * rate;
  }
}
