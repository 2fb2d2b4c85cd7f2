/**
 * Unity's `Mathf` helpers used by the modelled scripts, over `real`
 * (single-precision rounding is not modelled).
 */
module Mathf {

  /** `Mathf.Clamp(value, min, max)`: the lower bound is tested first. */
  function Clamp(value: real, min: real, max: real): (r: real)
    ensures min <= max ==> min <= r <= max
    ensures min <= value <= max ==> r == value
    ensures r == value || r == min || r == max
    ensures value < min ==> r == min
    ensures min <= value && max < value ==> r == max
  {
    if value < min then min
    else if value > max then max
    else value
  }

  /** `Mathf.Max(a, b)` */
  function Max(a: real, b: real): (r: real)
    ensures r >= a && r >= b
    ensures r == a || r == b
  {
    if a > b then a else b
  }

  /** `Mathf.Min(a, b)` */
  function Min(a: real, b: real): (r: real)
    ensures r <= a && r <= b
    ensures r == a || r == b
  {
    if a < b then a else b
  }

  /** `Mathf.Clamp01(t)` */
  function Clamp01(t: real): (r: real)
    ensures 0.0 <= r <= 1.0
    ensures 0.0 <= t <= 1.0 ==> r == t
    ensures t < 0.0 ==> r == 0.0
    ensures t > 1.0 ==> r == 1.0
  {
    Clamp(t, 0.0, 1.0)
  }

  /** `Mathf.Lerp(a, b, t)`: the parameter is clamped to [0, 1] first. */
  function Lerp(a: real, b: real, t: real): (r: real)
    ensures Clamp01(t) == 1.0 ==> r == b
    ensures Clamp01(t) == 0.0 ==> r == a
    ensures a <= b ==> a <= r <= b
    ensures b <= a ==> b <= r <= a
    ensures Clamp01(t) == 0.5 ==> r == (a + b) / 2.0
    ensures b - r == (1.0 - Clamp01(t)) * (b - a)
  {
    var s := Clamp01(t);
    var step := Step(b - a, s);
    a + step
  }

  /** The fraction `s` of the signed length `c`, lying between 0 and `c`. */
  function Step(c: real, s: real): (d: real)
    requires 0.0 <= s <= 1.0
    ensures s == 1.0 ==> d == c
    ensures s == 0.0 ==> d == 0.0
    ensures c >= 0.0 ==> 0.0 <= d <= c
    ensures c <= 0.0 ==> c <= d <= 0.0
  {
    if c >= 0.0 then FractionBelow(c, s); c * s
    else FractionAbove(c, s); c * s
  }

  /** A larger parameter moves the result further towards the target. */
  lemma LerpMonotone(a: real, b: real, t1: real, t2: real)
    requires t1 <= t2
    ensures a <= b ==> Lerp(a, b, t1) <= Lerp(a, b, t2)
    ensures b <= a ==> Lerp(a, b, t2) <= Lerp(a, b, t1)
  {
    var s1, s2 := Clamp01(t1), Clamp01(t2);
    assert s1 <= s2;
    assert (b - a) * (s2 - s1) == b - Lerp(a, b, t1) - (b - Lerp(a, b, t2));
    if a <= b {
      FractionBelow(b - a, s2 - s1);
    } else {
      FractionAbove(b - a, s2 - s1);
    }
  }

  /** A fraction in [0, 1] of a non-positive length stays within that length. */
  lemma FractionAbove(c: real, s: real)
    requires c <= 0.0 && 0.0 <= s <= 1.0
    ensures c <= c * s <= 0.0
  {
    assert (-c) * (1.0 - s) >= 0.0;
    assert (-c) * s >= 0.0;
  }

  /** A fraction in [0, 1] of a non-negative length stays within that length. */
  lemma FractionBelow(c: real, s: real)
    requires c >= 0.0 && 0.0 <= s <= 1.0
    ensures 0.0 <= c * s <= c
  {
    assert c * (1.0 - s) >= 0.0;
  }
}
