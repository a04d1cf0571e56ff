/**
 * The Mathf helpers the preset generator uses, over reals.  Lerp clamps its
 * parameter to [0, 1] before interpolating, so its result always lies between
 * its two end points.
 */
module Mathf {

  /** Mathf.Clamp: below min gives min, otherwise above max gives max. */
  function Clamp(value: real, min: real, max: real): (r: real)
    ensures min <= max ==> min <= r <= max
    ensures min <= value <= max ==> r == value
    ensures value < min ==> r == min
    ensures min <= max < value ==> r == max
  {
    if value < min then min else if value > max then max else value
  }

  function Clamp01(value: real): (r: real)
    ensures 0.0 <= r <= 1.0
    ensures 0.0 <= value <= 1.0 ==> r == value
  {
    Clamp(value, 0.0, 1.0)
  }

  /** r lies on the segment from a to b, whichever way round they are. */
  predicate Between(r: real, a: real, b: real)
  {
    (a <= b ==> a <= r <= b) && (b <= a ==> b <= r <= a)
  }

  /** Mathf.Lerp: a + (b - a) * t with t clamped to [0, 1]. */
  function Lerp(a: real, b: real, t: real): (r: real)
    ensures Between(r, a, b)
    ensures t <= 0.0 ==> r == a
    ensures t >= 1.0 ==> r == b
  {
    var s := Clamp01(t);
    LerpStaysBetween(a, b, s);
    a + (b - a) * s
  }

  lemma LerpStaysBetween(a: real, b: real, s: real)
    requires 0.0 <= s <= 1.0
    ensures Between(a + (b - a) * s, a, b)
  {
    if a <= b {
      ProductOfNonNegatives(b - a, s);
      ProductOfNonNegatives(b - a, 1.0 - s);
    } else {
      ProductOfNonNegatives(a - b, s);
      ProductOfNonNegatives(a - b, 1.0 - s);
    }
  }

  lemma ProductOfNonNegatives(x: real, y: real)
    requires 0.0 <= x && 0.0 <= y
    ensures 0.0 <= x * y
  {
  }

  /** Mathf.Pow(x, 2). */
  function Square(x: real): (r: real)
    ensures 0.0 <= r
    ensures 0.0 <= x <= 1.0 ==> r <= 1.0
  {
    SquareOfFraction(x);
    x * x
  }

  lemma SquareOfFraction(x: real)
    ensures 0.0 <= x * x
    ensures 0.0 <= x <= 1.0 ==> x * x <= x
  {
    if x < 0.0 {
      assert x * x == (-x) * (-x);
    }
    if 0.0 <= x <= 1.0 {
      assert x * x <= x * 1.0;
    }
  }

  /** Mathf.Pow(0.5, i) for a whole exponent i. */
  function HalfPow(i: nat): (r: real)
    ensures 0.0 < r <= 1.0
  {
    if i == 0 then 1.0 else 0.5 * HalfPow(i - 1)
  }
}
