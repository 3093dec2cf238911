/**
 * Numeric helpers of the game: the `clamp`, `lerp` and `rand` one-liners,
 * `Math.abs`, `Math.max`/`Math.min`, and the fractional part used by the
 * spatial hash. All numbers of the simulation are modelled as `real`.
 */
module Numeric {

  function Abs(x: real): (r: real)
    ensures r >= 0.0
    ensures r == x || r == -x
  {
    if x < 0.0 then -x else x
  }

  function Max(a: real, b: real): (r: real)
    ensures r >= a && r >= b
    ensures r == a || r == b
  {
    if a < b then b else a
  }

  function Min(a: real, b: real): (r: real)
    ensures r <= a && r <= b
    ensures r == a || r == b
  {
    if a < b then a else b
  }

  /** `clamp(v, a, b) = Math.max(a, Math.min(b, v))`. */
  function Clamp(v: real, lo: real, hi: real): (r: real)
    ensures lo <= hi ==> lo <= r <= hi
    ensures lo <= v <= hi ==> r == v
    ensures v < lo ==> r == lo
    ensures lo <= hi && hi < v ==> r == hi
  {
    Max(lo, Min(hi, v))
  }

  /** The product x * y. Formulas that multiply two quantities both of
      which vary use it, so that a fact proved about one product applies
      to every occurrence of that product. */
  function Mul(x: real, y: real): real
  {
    x * y
  }

  lemma MulNonneg(x: real, y: real)
    requires 0.0 <= x && 0.0 <= y
    ensures 0.0 <= Mul(x, y)
  {
  }

  lemma MulNonpos(x: real, y: real)
    requires x <= 0.0 && 0.0 <= y
    ensures Mul(x, y) <= 0.0
  {
  }

  /** Scaling a non-negative x by at most 1 does not increase it. */
  lemma MulAtMost(x: real, y: real)
    requires 0.0 <= x && y <= 1.0
    ensures Mul(x, y) <= x
  {
  }

  /** Scaling a non-positive x by at most 1 does not decrease it. */
  lemma MulAtLeast(x: real, y: real)
    requires x <= 0.0 && y <= 1.0
    ensures x <= Mul(x, y)
  {
  }

  /** A fraction y < 1 of a positive x is below x. */
  lemma MulBelow(y: real, x: real)
    requires 0.0 < x && y < 1.0
    ensures Mul(y, x) < x
  {
  }

  lemma MulMono(x: real, y: real, c: real)
    requires x <= y && 0.0 <= c
    ensures Mul(x, c) <= Mul(y, c)
  {
  }

  lemma MulStrict(x: real, y: real, c: real)
    requires x < y && 0.0 < c
    ensures Mul(x, c) < Mul(y, c)
  {
  }

  /** `lerp(a, b, t) = a + (b - a) * t`: for t in [0,1] the result lies
      between a and b and is no farther from b than a was. */
  function Lerp(a: real, b: real, t: real): (r: real)
    ensures 0.0 <= t <= 1.0 ==> Min(a, b) <= r <= Max(a, b)
    ensures 0.0 <= t <= 1.0 ==> Abs(b - r) <= Abs(b - a)
    ensures t == 0.0 ==> r == a
    ensures t == 1.0 ==> r == b
  {
    if 0.0 <= t <= 1.0 && a <= b then
      MulNonneg(b - a, t);
      MulAtMost(b - a, t);
      a + Mul(b - a, t)
    else if 0.0 <= t <= 1.0 then
      MulNonpos(b - a, t);
      MulAtLeast(b - a, t);
      a + Mul(b - a, t)
    else
      a + Mul(b - a, t)
  }

  /** `rand(a, b) = a + Math.random() * (b - a)`, with the draw `u` of
      `Math.random()` passed in. */
  function Rand(lo: real, hi: real, u: real): (r: real)
    requires 0.0 <= u < 1.0
    ensures lo <= hi ==> lo <= r <= hi
    ensures lo < hi ==> r < hi
  {
    if lo < hi then
      MulNonneg(u, hi - lo);
      MulBelow(u, hi - lo);
      lo + Mul(u, hi - lo)
    else
      lo + Mul(u, hi - lo)
  }

  /** `s - Math.floor(s)`: the fractional part, always in [0,1). */
  function Frac(s: real): (r: real)
    ensures 0.0 <= r < 1.0
  {
    s - s.Floor as real
  }
}
