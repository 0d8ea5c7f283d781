/** The part of p5.Vector and of p5's numeric helpers that the sketch uses,
    over exact reals (floating-point rounding is not modelled). */
module Vectors {

  /** A 2D vector, as created by `createVector(x, y)`. */
  datatype Vec = Vec(x: real, y: real)

  /** `createVector()` with no arguments. */
  const Zero: Vec := Vec(0.0, 0.0)

  function Add(a: Vec, b: Vec): Vec {
    Vec(a.x + b.x, a.y + b.y)
  }

  function Sub(a: Vec, b: Vec): Vec {
    Vec(a.x - b.x, a.y - b.y)
  }

  function Scale(v: Vec, k: real): Vec {
    Vec(k * v.x, k * v.y)
  }

  /** `magSq()`: the squared magnitude, which is never negative. */
  function NormSq(v: Vec): (r: real)
    ensures 0.0 <= r
  {
    SquareNonNegative(v.x);
    SquareNonNegative(v.y);
    v.x * v.x + v.y * v.y
  }

  lemma SquareNonNegative(a: real)
    ensures 0.0 <= a * a
  {
    if a < 0.0 {
      ProductNonNegative(-a, -a);
      assert (-a) * (-a) == a * a;
    } else {
      ProductNonNegative(a, a);
    }
  }

  /** Scaling a vector by k scales its squared magnitude by k*k. */
  lemma ScaleNormSq(v: Vec, k: real)
    ensures NormSq(Scale(v, k)) == k * k * NormSq(v)
  {
    calc {
      NormSq(Scale(v, k));
      (k * v.x) * (k * v.x) + (k * v.y) * (k * v.y);
      k * k * (v.x * v.x) + k * k * (v.y * v.y);
      k * k * NormSq(v);
    }
  }

  /** What p5's `v.limit(m)` promises: the result is at most m long, and a
      vector that is already at most m long comes back unchanged. The
      square root p5 uses to rescale a longer vector is not modelled, so
      `limit` is a parameter of the model that must satisfy this. */
  ghost predicate IsLimiter(limit: (Vec, real) -> Vec) {
    forall v, m ::
      0.0 <= m ==>
        && NormSq(limit(v, m)) <= m * m
        && (NormSq(v) <= m * m ==> limit(v, m) == v)
  }

  /** p5's `map(value, start1, stop1, start2, stop2)`: the affine map that
      sends start1 to start2 and stop1 to stop2. The sketch only calls it
      with constant ranges, where the facts it needs are linear. */
  function MapRange(value: real, start1: real, stop1: real, start2: real, stop2: real): real
    requires start1 != stop1
  {
    (value - start1) / (stop1 - start1) * (stop2 - start2) + start2
  }

  lemma ProductNonNegative(a: real, b: real)
    requires 0.0 <= a && 0.0 <= b
    ensures 0.0 <= a * b
  {
  }

  lemma ProductPositive(a: real, b: real)
    requires 0.0 < a && 0.0 < b
    ensures 0.0 < a * b
  {
  }

  /** A fraction in [0, 1] of the way from lo to hi stays between them. */
  lemma FractionBetween(f: real, lo: real, hi: real)
    requires 0.0 <= f <= 1.0 && lo <= hi
    ensures lo <= f * (hi - lo) + lo <= hi
  {
    var d := hi - lo;
    ProductNonNegative(f, d);
    ProductNonNegative(1.0 - f, d);
    assert (1.0 - f) * d == d - f * d;
    assert f * (hi - lo) == f * d;
  }
}
