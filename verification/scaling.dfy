/**
 The coordinate mapper of the panel: an affine map carrying the interval
 [inMin, inMax] onto [outMin, outMax], with no clamping, over the reals.
 The panel uses it twice per point: longitude to canvas x and latitude to
 canvas y.
 */
module Scaling {

  /** Real division by a non-zero number undoes multiplication, either way round. */
  lemma DivMul(a: real, d: real)
    requires d != 0.0
    ensures (a / d) * d == a
    ensures (a * d) / d == a && (d * a) / d == a
  {
  }

  /** Multiplication by a non-zero real is injective. */
  lemma CancelNonZero(a: real, b: real, d: real)
    requires d != 0.0
    requires a * d == b * d
    ensures a == b
  {
    assert (a - b) * d == 0.0;
  }

  /** The sign of a product from the signs of its factors. */
  lemma MulSign(a: real, b: real)
    ensures a * b == 0.0 <==> a == 0.0 || b == 0.0
    ensures a * b > 0.0 <==> (a > 0.0 && b > 0.0) || (a < 0.0 && b < 0.0)
    ensures a * b < 0.0 <==> (a > 0.0 && b < 0.0) || (a < 0.0 && b > 0.0)
  {
    if a > 0.0 && b < 0.0 {
      assert a * b < 0.0;
    } else if a < 0.0 && b > 0.0 {
      assert a * b < 0.0;
    }
  }

  /** Two values on a line through the origin with slope k = D / d, with the
      division cleared, differ by their offsets times k. */
  lemma AffineCancel(a: real, b: real, x: real, y: real, e: real, d: real, bigD: real, k: real)
    requires d != 0.0
    requires a * d == x * bigD && b * d == y * bigD && k * d == bigD
    requires e == x - y
    ensures a - b == e * k
  {
    calc {
      (a - b) * d;
      a * d - b * d;
      x * bigD - y * bigD;
      e * bigD;
      e * (k * d);
      (e * k) * d;
    }
    CancelNonZero(a - b, e * k, d);
  }

  /** Gradient of the affine map; it is only defined for a non-degenerate input interval. */
  function Slope(inMin: real, inMax: real, outMin: real, outMax: real): (k: real)
    requires inMin != inMax
    ensures k * (inMax - inMin) == outMax - outMin
  {
    DivMul(outMax - outMin, inMax - inMin);
    (outMax - outMin) / (inMax - inMin)
  }

  /** The panel's `scale`: the two ends of the input interval land on the two
      ends of the output interval.  Equal input bounds divide by zero in the
      panel and are excluded here. */
  function Scale(number: real, inMin: real, inMax: real, outMin: real, outMax: real): (r: real)
    requires inMin != inMax
    ensures number == inMin ==> r == outMin
    ensures number == inMax ==> r == outMax
  {
    DivMul(outMax - outMin, inMax - inMin);
    assert number == inMin ==> (number - inMin) * (outMax - outMin) == 0.0;
    (number - inMin) * (outMax - outMin) / (inMax - inMin) + outMin
  }

  /** The interpolation equation with the division cleared: the result sits on
      the line through (inMin, outMin) and (inMax, outMax). */
  lemma ScaleInterpolates(number: real, inMin: real, inMax: real, outMin: real, outMax: real)
    requires inMin != inMax
    ensures (Scale(number, inMin, inMax, outMin, outMax) - outMin) * (inMax - inMin)
            == (number - inMin) * (outMax - outMin)
  {
    DivMul((number - inMin) * (outMax - outMin), inMax - inMin);
  }

  /** The map is affine: differences of results are differences of inputs times the slope. */
  lemma ScaleAffine(v: real, w: real, inMin: real, inMax: real, outMin: real, outMax: real)
    requires inMin != inMax
    ensures Scale(v, inMin, inMax, outMin, outMax) - Scale(w, inMin, inMax, outMin, outMax)
            == (v - w) * Slope(inMin, inMax, outMin, outMax)
  {
    var sv, sw := Scale(v, inMin, inMax, outMin, outMax), Scale(w, inMin, inMax, outMin, outMax);
    ScaleInterpolates(v, inMin, inMax, outMin, outMax);
    ScaleInterpolates(w, inMin, inMax, outMin, outMax);
    AffineCancel(sv - outMin, sw - outMin, v - inMin, w - inMin, v - w,
                 inMax - inMin, outMax - outMin, Slope(inMin, inMax, outMin, outMax));
  }

  /** Monotone by the sign of the slope: non-decreasing for a non-negative
      slope, strictly increasing for a positive one, strictly decreasing for a
      negative one. */
  lemma ScaleMonotone(v: real, w: real, inMin: real, inMax: real, outMin: real, outMax: real)
    requires inMin != inMax
    requires v <= w
    ensures Slope(inMin, inMax, outMin, outMax) >= 0.0 ==>
              Scale(v, inMin, inMax, outMin, outMax) <= Scale(w, inMin, inMax, outMin, outMax)
    ensures Slope(inMin, inMax, outMin, outMax) > 0.0 && v < w ==>
              Scale(v, inMin, inMax, outMin, outMax) < Scale(w, inMin, inMax, outMin, outMax)
    ensures Slope(inMin, inMax, outMin, outMax) < 0.0 && v < w ==>
              Scale(v, inMin, inMax, outMin, outMax) > Scale(w, inMin, inMax, outMin, outMax)
  {
    ScaleAffine(w, v, inMin, inMax, outMin, outMax);
    MulSign(w - v, Slope(inMin, inMax, outMin, outMax));
  }

  /** `v` lies between `a` and `b`, in either order. */
  predicate Between(a: real, v: real, b: real) {
    a <= v <= b || b <= v <= a
  }

  /** No clamping, whatever the orientation of the two intervals: a value lies
      between the input bounds exactly when its image lies between the output
      bounds (so a value outside maps outside).  For increasing intervals,
      values below map below and values above map above. */
  lemma ScaleUnclamped(v: real, inMin: real, inMax: real, outMin: real, outMax: real)
    requires inMin != inMax && outMin != outMax
    ensures Between(inMin, v, inMax) <==> Between(outMin, Scale(v, inMin, inMax, outMin, outMax), outMax)
    ensures inMin < inMax && outMin < outMax && v < inMin ==> Scale(v, inMin, inMax, outMin, outMax) < outMin
    ensures inMin < inMax && outMin < outMax && v > inMax ==> Scale(v, inMin, inMax, outMin, outMax) > outMax
  {
    var r := Scale(v, inMin, inMax, outMin, outMax);
    var k := Slope(inMin, inMax, outMin, outMax);
    ScaleAffine(v, inMin, inMin, inMax, outMin, outMax);
    ScaleAffine(inMax, v, inMin, inMax, outMin, outMax);
    MulSign(v - inMin, k);
    MulSign(inMax - v, k);
    MulSign(inMax - inMin, k);
  }

  /** Scaling back with the intervals swapped recovers the original value. */
  lemma ScaleRoundTrip(v: real, inMin: real, inMax: real, outMin: real, outMax: real)
    requires inMin != inMax && outMin != outMax
    ensures Scale(Scale(v, inMin, inMax, outMin, outMax), outMin, outMax, inMin, inMax) == v
  {
    var r := Scale(v, inMin, inMax, outMin, outMax);
    var back := Scale(r, outMin, outMax, inMin, inMax);
    ScaleInterpolates(v, inMin, inMax, outMin, outMax);
    ScaleInterpolates(r, outMin, outMax, inMin, inMax);
    var dIn, dOut := inMax - inMin, outMax - outMin;
    ChainCancel(v - inMin, r - outMin, back - inMin, dIn, dOut);
  }

  /** y is x scaled by dOut / dIn, and z is y scaled back by dIn / dOut, so z is x. */
  lemma ChainCancel(x: real, y: real, z: real, dIn: real, dOut: real)
    requires dOut != 0.0
    requires y * dIn == x * dOut && z * dOut == y * dIn
    ensures z == x
  {
    CancelNonZero(z, x, dOut);
  }

  /** Worked values: the midpoint of [0, 10] goes to the midpoint of [0, 100],
      and 20 is extrapolated to 200 rather than clamped to 100. */
  lemma ScaleExamples()
    ensures Scale(5.0, 0.0, 10.0, 0.0, 100.0) == 50.0
    ensures Scale(20.0, 0.0, 10.0, 0.0, 100.0) == 200.0
  {
  }
}
