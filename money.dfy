/**
 * Exact decimal amounts and the two-place rounding the closing uses
 * (`Decimal.quantize(Decimal('0.01'), rounding=ROUND_HALF_UP)`: ties are
 * rounded away from zero). Amounts are `real`, which is exact; Python's
 * `Decimal` is exact only up to the 28 significant digits of its default
 * context, which no realistic amount reaches.
 */
module Money {

  /** `x` has at most two decimal places: a whole number of cents. */
  predicate HasTwoDecimals(x: real)
  {
    (x * 100.0).Floor as real == x * 100.0
  }

  /** `x` rounded to cents, halves away from zero, as a count of cents. */
  function HalfUpCents(x: real): int
  {
    if x >= 0.0 then (x * 100.0 + 0.5).Floor else -((-x) * 100.0 + 0.5).Floor
  }

  /**
   * The closing's rounding helper: `x` to two places, ties away from zero.
   * The result is a whole number of cents within half a cent of `x`; a tie
   * goes up for a non-negative `x` and down for a negative one.
   */
  function Round2(x: real): (r: real)
    ensures HasTwoDecimals(r)
    ensures x >= 0.0 ==> r - 0.005 <= x < r + 0.005
    ensures x < 0.0 ==> r - 0.005 < x <= r + 0.005
  {
    var c := HalfUpCents(x);
    assert (c as real / 100.0) * 100.0 == c as real;
    c as real / 100.0
  }

  /** The three conditions of Round2's contract determine its result. */
  lemma Round2Unique(x: real, r: real)
    requires HasTwoDecimals(r)
    requires x >= 0.0 ==> r - 0.005 <= x < r + 0.005
    requires x < 0.0 ==> r - 0.005 < x <= r + 0.005
    ensures r == Round2(x)
  {
    var m := (r * 100.0).Floor;
    assert r == m as real / 100.0;
    if x >= 0.0 {
      FloorIs(x * 100.0 + 0.5, m);
      assert HalfUpCents(x) == m;
    } else {
      FloorIs((-x) * 100.0 + 0.5, -m);
      assert HalfUpCents(x) == m;
    }
  }

  lemma FloorIs(y: real, m: int)
    requires m as real <= y < m as real + 1.0
    ensures y.Floor == m
  {
  }

  /** Rounding an amount that is already in cents changes nothing. */
  lemma Round2Idempotent(x: real)
    requires HasTwoDecimals(x)
    ensures Round2(x) == x
  {
    Round2Unique(x, x);
  }

  /** Sums and differences of amounts in cents are amounts in cents. */
  lemma TwoDecimalsClosed(a: real, b: real)
    requires HasTwoDecimals(a) && HasTwoDecimals(b)
    ensures HasTwoDecimals(a + b) && HasTwoDecimals(a - b)
  {
    var ma, mb := (a * 100.0).Floor, (b * 100.0).Floor;
    assert (a + b) * 100.0 == a * 100.0 + b * 100.0;
    assert (a - b) * 100.0 == a * 100.0 - b * 100.0;
    FloorIs((a + b) * 100.0, ma + mb);
    FloorIs((a - b) * 100.0, ma - mb);
  }

  /** Ties are rounded away from zero, in both directions. */
  lemma Round2Ties()
    ensures Round2(0.005) == 0.01 && Round2(-0.005) == -0.01
    ensures Round2(2.675) == 2.68 && Round2(-2.675) == -2.68
    ensures Round2(0.0049) == 0.0
  {
    Round2Unique(0.005, 0.01);
    Round2Unique(-0.005, -0.01);
    Round2Unique(2.675, 2.68);
    Round2Unique(-2.675, -2.68);
    Round2Unique(0.0049, 0.0);
  }
}
