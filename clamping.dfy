/** The numeric clamp used by the motion step: `Math.max(min, Math.min(max, value))`. */
module Clamping {

  /** `Math.min` on two reals. */
  function Min(a: real, b: real): (r: real)
    ensures r <= a && r <= b
    ensures r == a || r == b
  {
    if a <= b then a else b
  }

  /** `Math.max` on two reals. */
  function Max(a: real, b: real): (r: real)
    ensures a <= r && b <= r
    ensures r == a || r == b
  {
    if a <= b then b else a
  }

  /** Bounds `v` to the interval [lo, hi]. The lower bound is applied last, so
      when the interval is empty (lo > hi) the result is lo. */
  function Clamp(lo: real, hi: real, v: real): (r: real)
    ensures lo <= hi ==> lo <= r <= hi
    ensures lo <= v <= hi ==> r == v
    ensures v < lo ==> r == lo
    ensures lo <= hi < v ==> r == hi
    ensures hi < lo ==> r == lo
  {
    Max(lo, Min(hi, v))
  }

  function Abs(x: real): (r: real)
    ensures 0.0 <= r
    ensures r == x || r == -x
  {
    if x < 0.0 then -x else x
  }

  /** Clamping twice is clamping once, whatever the bounds. */
  lemma ClampIdempotent(lo: real, hi: real, v: real)
    ensures Clamp(lo, hi, Clamp(lo, hi, v)) == Clamp(lo, hi, v)
  {
  }

  /** With a symmetric, non-empty interval [-m, m], clamping never moves a value
      away from zero and never changes its sign. */
  lemma ClampSymmetricShrinks(m: real, v: real)
    requires 0.0 <= m
    ensures Abs(Clamp(-m, m, v)) <= Abs(v)
    ensures 0.0 <= v ==> 0.0 <= Clamp(-m, m, v)
    ensures v <= 0.0 ==> Clamp(-m, m, v) <= 0.0
  {
  }
}
