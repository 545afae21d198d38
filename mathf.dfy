/** Static scalar helpers of the renderer (Mathf.cs), over the reals. */
module Mathf {

  /** The tolerance below which a value counts as zero (the float 1e-6f, taken as the real 10^-6). */
  const ZeroTolerance: real := 0.000001

  function Min(a: real, b: real): real { if a <= b then a else b }

  function Max(a: real, b: real): real { if a >= b then a else b }

  function Abs(v: real): (r: real)
    ensures r >= 0.0 && (r == v || r == -v)
  {
    if v < 0.0 then -v else v
  }

  /** Max(min, Min(value, max)): with an empty range the lower bound wins. */
  function Clamp(value: real, min: real, max: real): (r: real)
    ensures min <= max ==> min <= r <= max
    ensures min > max ==> r == min
    ensures min <= value <= max ==> r == value
    ensures min <= max && value < min ==> r == min
    ensures min <= max && value > max ==> r == max
  {
    Max(min, Min(value, max))
  }

  function Clamp01(value: real): (r: real)
    ensures 0.0 <= r <= 1.0
    ensures 0.0 <= value <= 1.0 ==> r == value
    ensures value < 0.0 ==> r == 0.0
    ensures value > 1.0 ==> r == 1.0
  {
    Clamp(value, 0.0, 1.0)
  }

  predicate IsZero(value: real)
  {
    Abs(value) < ZeroTolerance
  }

  /** IsZero is exactly the open interval (-10^-6, 10^-6). */
  lemma IsZeroInterval(value: real)
    ensures IsZero(value) <==> -ZeroTolerance < value < ZeroTolerance
    ensures IsZero(0.0)
  {
  }

  /** Linear interpolation with the parameter clamped to [0, 1]. */
  function Lerp(start: real, end: real, beta: real): (r: real)
    ensures beta <= 0.0 ==> r == start
    ensures beta >= 1.0 ==> r == end
    ensures Min(start, end) <= r <= Max(start, end)
  {
    var t := Clamp01(beta);
    ScaledStepBetween(end - start, t);
    start + (end - start) * t
  }

  /** A step d scaled by t in [0, 1] lies between 0 and d. */
  lemma ScaledStepBetween(d: real, t: real)
    requires 0.0 <= t <= 1.0
    ensures Min(0.0, d) <= d * t <= Max(0.0, d)
  {
    if d >= 0.0 {
      assert d * t <= d * 1.0;
    } else {
      assert (-d) * t <= (-d) * 1.0;
    }
  }

  /** Inside [0, 1] the interpolation is affine: an equal step in beta moves the result by
      an equal step towards the end point. */
  lemma LerpAffine(start: real, end: real, beta: real)
    requires 0.0 <= beta <= 1.0
    ensures Lerp(start, end, beta) == (1.0 - beta) * start + beta * end
    ensures Lerp(start, end, beta) - start == beta * (end - start)
  {
  }
}
