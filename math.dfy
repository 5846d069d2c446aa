/**
 * `Math` of utils/math.py over the reals: clamping and linear interpolation.
 * Floating-point rounding is not modelled.
 */
module MathUtils {

  function Min(a: real, b: real): real {
    if b < a then b else a
  }

  function Max(a: real, b: real): real {
    if b > a then b else a
  }

  /** `Math.clamp`: `max(min(value, max_value), min_value)`; the lower bound wins when the bounds cross. */
  function Clamp(value: real, lo: real, hi: real): (r: real)
    ensures lo <= hi ==> lo <= r <= hi
    ensures lo <= value <= hi ==> r == value
    ensures value < lo ==> r == lo
    ensures lo <= hi && hi < value ==> r == hi
    ensures lo > hi ==> r == lo
  {
    Max(Min(value, hi), lo)
  }

  /** Clamping twice with the same bounds is clamping once. */
  lemma ClampIdempotent(value: real, lo: real, hi: real)
    ensures Clamp(Clamp(value, lo, hi), lo, hi) == Clamp(value, lo, hi)
  {
  }

  /** Clamping preserves order. */
  lemma ClampMonotone(v1: real, v2: real, lo: real, hi: real)
    requires v1 <= v2
    ensures Clamp(v1, lo, hi) <= Clamp(v2, lo, hi)
  {
  }

  /** `Math.clamp_01`. */
  function Clamp01(value: real): (r: real)
    ensures 0.0 <= r <= 1.0
    ensures 0.0 <= value <= 1.0 ==> r == value
  {
    Clamp(value, 0.0, 1.0)
  }

  /** `Math.lerp`: t is clamped to [0, 1] first. */
  function Lerp(a: real, b: real, t: real): (r: real)
    ensures t <= 0.0 ==> r == a
    ensures t >= 1.0 ==> r == b
  {
    a + (b - a) * Clamp01(t)
  }

  /** The documented cases: t = 0 gives a, t = 1 gives b, t = 0.5 the midpoint. */
  lemma LerpDocumentedCases(a: real, b: real)
    ensures Lerp(a, b, 0.0) == a
    ensures Lerp(a, b, 1.0) == b
    ensures Lerp(a, b, 0.5) == (a + b) / 2.0
  {
  }

  /** A helper for LerpBetween: scaling a non-negative length by a factor in [0, 1] stays within [0, length]. */
  lemma {:induction false} ScaleWithin(d: real, c: real, m: real)
    requires d >= 0.0 && 0.0 <= c <= 1.0 && m == d * c
    ensures 0.0 <= m <= d
  {
    assert d * c >= 0.0 * c;
    assert d * (1.0 - c) >= 0.0 * (1.0 - c);
  }

  /** The result lies between a and b, inclusive, whatever t is. */
  lemma {:induction false} LerpBetween(a: real, b: real, t: real)
    ensures Min(a, b) <= Lerp(a, b, t) <= Max(a, b)
  {
    var c := Clamp01(t);
    var m := (b - a) * c;
    assert Lerp(a, b, t) == a + m;
    if a <= b {
      ScaleWithin(b - a, c, m);
    } else {
      ScaleWithin(a - b, c, -m);
    }
  }
}
