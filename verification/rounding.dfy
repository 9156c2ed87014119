/**
 * Decimal rounding as the estimator performs it: `Math.round(x * 10) / 10` and
 * `Math.round(x * 100) / 100`. JavaScript's `Math.round` rounds halves toward
 * positive infinity, which on exact reals is `Floor(y + 1/2)`.
 */
module Rounding {

  /** `x` is a whole number of tenths. */
  predicate IsTenth(x: real) {
    (x * 10.0).Floor as real == x * 10.0
  }

  /** `x` is a whole number of hundredths. */
  predicate IsHundredth(x: real) {
    (x * 100.0).Floor as real == x * 100.0
  }

  /** Rounds to one decimal place; the result is the tenth nearest to `x`, ties going up. */
  function Round1(x: real): (r: real)
    ensures IsTenth(r)
    ensures x - 0.05 < r <= x + 0.05
  {
    (x * 10.0 + 0.5).Floor as real / 10.0
  }

  /** Rounds to two decimal places; the result is the hundredth nearest to `x`, ties going up. */
  function Round2(x: real): (r: real)
    ensures IsHundredth(r)
    ensures x - 0.005 < r <= x + 0.005
  {
    (x * 100.0 + 0.5).Floor as real / 100.0
  }

  /** The two ensures of Round1 pin its value down: any tenth within (x - 0.05, x + 0.05] is Round1(x). */
  lemma Round1Unique(x: real, t: real)
    requires IsTenth(t)
    requires x - 0.05 < t <= x + 0.05
    ensures t == Round1(x)
  {
    var k := (t * 10.0).Floor;
    var r := Round1(x);
    var j := (r * 10.0).Floor;
    // Both k and j are integers within an interval (10x - 1/2, 10x + 1/2] of width one.
    assert k as real - 1.0 < j as real < k as real + 1.0;
    assert k == j;
  }

  /** The same uniqueness for Round2. */
  lemma Round2Unique(x: real, t: real)
    requires IsHundredth(t)
    requires x - 0.005 < t <= x + 0.005
    ensures t == Round2(x)
  {
    var k := (t * 100.0).Floor;
    var r := Round2(x);
    var j := (r * 100.0).Floor;
    assert k as real - 1.0 < j as real < k as real + 1.0;
    assert k == j;
  }

  /** A value that already is a tenth is left unchanged by Round1. */
  lemma Round1OfTenth(x: real)
    requires IsTenth(x)
    ensures Round1(x) == x
  {
    Round1Unique(x, x);
  }

  /** A value that already is a hundredth is left unchanged by Round2. */
  lemma Round2OfHundredth(x: real)
    requires IsHundredth(x)
    ensures Round2(x) == x
  {
    Round2Unique(x, x);
  }

  /** Rounding twice is rounding once. */
  lemma Round1Idempotent(x: real)
    ensures Round1(Round1(x)) == Round1(x)
  {
    Round1OfTenth(Round1(x));
  }

  /** Round1 never reverses the order of its arguments. */
  lemma Round1Monotone(x: real, y: real)
    requires x <= y
    ensures Round1(x) <= Round1(y)
  {
    assert (x * 10.0 + 0.5).Floor <= (y * 10.0 + 0.5).Floor;
  }

  /** Round2 never reverses the order of its arguments. */
  lemma Round2Monotone(x: real, y: real)
    requires x <= y
    ensures Round2(x) <= Round2(y)
  {
    assert (x * 100.0 + 0.5).Floor <= (y * 100.0 + 0.5).Floor;
  }

  /** Round1 of a non-negative value is non-negative. */
  lemma Round1NonNegative(x: real)
    requires 0.0 <= x
    ensures 0.0 <= Round1(x)
  {
    Round1Monotone(0.0, x);
    Round1OfTenth(0.0);
  }

  /** Whole tenths are closed under addition. */
  lemma TenthSum(a: real, b: real)
    requires IsTenth(a) && IsTenth(b)
    ensures IsTenth(a + b)
  {
    var ka := (a * 10.0).Floor;
    var kb := (b * 10.0).Floor;
    assert (a + b) * 10.0 == (ka + kb) as real;
  }
}
