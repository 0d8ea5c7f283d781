/** `generateHeartPoints(scale)` of docs/sketch.js: 200 samples of the
    parametric heart curve over one full turn. */
module Heart {
  import opened Vectors

  /** `numPoints`. */
  const PointCount: nat := 200

  /** 2π as an exact real to 21 digits, standing for p5's `TWO_PI`. */
  const TwoPi: real := 6.28318530717958647693

  /** `Math.sin` and `Math.cos`, which stay outside the model. */
  datatype Trig = Trig(sin: real -> real, cos: real -> real)

  /** The curve parameter of sample i: `map(i, 0, numPoints, 0, TWO_PI)`. */
  function SampleParam(i: int): real {
    MapRange(i as real, 0.0, PointCount as real, 0.0, TwoPi)
  }

  /** The heart curve at parameter t:
      x = scale * 16 * sin(t)^3,
      y = -scale * (13 cos t - 5 cos 2t - 2 cos 3t - cos 4t). */
  function HeartCurve(scale: real, t: real, trig: Trig): Vec {
    var s := trig.sin(t);
    Vec(scale * 16.0 * (s * s * s),
        -scale * (13.0 * trig.cos(t) - 5.0 * trig.cos(2.0 * t) - 2.0 * trig.cos(3.0 * t) - trig.cos(4.0 * t)))
  }

  /** The loop of `generateHeartPoints`: exactly 200 points, point i
      being the curve at sample parameter i, in order. */
  method GenerateHeartPoints(scale: real, trig: Trig) returns (points: seq<Vec>)
    ensures |points| == PointCount
    ensures forall i :: 0 <= i < |points| ==> points[i] == HeartCurve(scale, SampleParam(i), trig)
  {
    points := [];
    for i := 0 to PointCount
      invariant |points| == i
      invariant forall j :: 0 <= j < i ==> points[j] == HeartCurve(scale, SampleParam(j), trig)
    {
      var t := SampleParam(i);
      points := points + [HeartCurve(scale, t, trig)];
    }
  }

  /** Sample i sits at i * 2pi / 200, so the samples are evenly spaced,
      start at 0 and stay below a full turn: the point at 2pi, which would
      repeat the first, is not generated. */
  lemma SampleSpacing(i: int)
    requires 0 <= i < PointCount
    ensures SampleParam(i) == (i as real) * TwoPi / (PointCount as real)
    ensures 0.0 <= SampleParam(i) < TwoPi
    ensures SampleParam(i + 1) - SampleParam(i) == TwoPi / (PointCount as real)
  {
    var n := PointCount as real;
    assert SampleParam(i) == (i as real) / n * TwoPi;
    assert SampleParam(i + 1) == ((i + 1) as real) / n * TwoPi;
    assert (i as real) / n < 1.0;
    ProductPositive(1.0 - (i as real) / n, TwoPi);
  }

  /** A sanity example of the curve formula: with sin 0 = 0 and cos 0 = 1,
      the first point is (0, -5 * scale):
      the cleft at the top of the heart (canvas y grows downward). */
  lemma FirstPointIsCleft(scale: real, trig: Trig)
    requires trig.sin(0.0) == 0.0 && trig.cos(0.0) == 1.0
    ensures HeartCurve(scale, SampleParam(0), trig) == Vec(0.0, -5.0 * scale)
  {
    assert SampleParam(0) == 0.0;
    assert 2.0 * 0.0 == 0.0 && 3.0 * 0.0 == 0.0 && 4.0 * 0.0 == 0.0;
  }
}
