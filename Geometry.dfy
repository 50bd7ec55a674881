/** The openFrameworks value types and float helpers the tracking pipeline
    uses: ofPoint, ofRectangle, ofVec3f::getInterpolated, ofMap and the C++
    float-to-int conversion. Floats are modelled as reals (no rounding). */
module Geometry {

  /** ofPoint: three float coordinates. */
  datatype Point = Point(x: real, y: real, z: real)

  /** A default-constructed ofPoint. */
  const Origin: Point := Point(0.0, 0.0, 0.0)

  /** ofRectangle: a position and a size; the size may be negative. */
  datatype Rect = Rect(x: real, y: real, width: real, height: real)
  {
    /** getLeft() and getTop() are the smaller edge, getRight() and
        getBottom() the larger one. */
    function Left(): real { Min(x, x + width) }
    function Right(): real { Max(x, x + width) }
    function Top(): real { Min(y, y + height) }
    function Bottom(): real { Max(y, y + height) }
  }

  /** A default-constructed ofRectangle. */
  const EmptyRect: Rect := Rect(0.0, 0.0, 0.0, 0.0)

  /** The MIN and MAX macros. */
  function Min(a: real, b: real): real { if a < b then a else b }
  function Max(a: real, b: real): real { if a > b then a else b }

  function Abs(r: real): real { if r < 0.0 then -r else r }

  /** Conversion of a float to int in C++: truncation toward zero. */
  function Truncate(r: real): (i: int)
    ensures 0.0 <= r ==> 0 <= i && i as real <= r < i as real + 1.0
    ensures r < 0.0 ==> i <= 0 && i as real - 1.0 < r <= i as real
  {
    if r >= 0.0 then r.Floor else -((-r).Floor)
  }

  /** ofVec3f::getInterpolated: a*(1-f) + b*f on each axis. */
  function Interpolated(a: Point, b: Point, f: real): (r: Point)
    ensures f == 0.0 ==> r == a
    ensures f == 1.0 ==> r == b
  {
    Point(a.x * (1.0 - f) + b.x * f, a.y * (1.0 - f) + b.y * f, a.z * (1.0 - f) + b.z * f)
  }

  /** A fraction f in [0, 1] of a difference d lies between 0 and d. */
  lemma FractionBetween(f: real, d: real)
    requires 0.0 <= f <= 1.0
    ensures Min(0.0, d) <= f * d <= Max(0.0, d)
  {
    var g := 1.0 - f;
    assert f * d + g * d == d;
    if d >= 0.0 {
      ProductNonnegative(f, d);
      ProductNonnegative(g, d);
    } else {
      ProductNonnegative(f, -d);
      ProductNonnegative(g, -d);
    }
  }

  lemma ProductNonnegative(a: real, b: real)
    requires 0.0 <= a && 0.0 <= b
    ensures 0.0 <= a * b
  {
  }

  /** For a fraction in [0, 1] the interpolated point lies in the box spanned
      by the two ends, moved from a toward b by f of the way. */
  lemma InterpolatedBetween(a: Point, b: Point, f: real)
    requires 0.0 <= f <= 1.0
    ensures var r := Interpolated(a, b, f);
      && r.x == a.x + f * (b.x - a.x) && r.y == a.y + f * (b.y - a.y)
      && Min(a.x, b.x) <= r.x <= Max(a.x, b.x)
      && Min(a.y, b.y) <= r.y <= Max(a.y, b.y)
  {
    var r := Interpolated(a, b, f);
    assert r.x == a.x + f * (b.x - a.x);
    assert r.y == a.y + f * (b.y - a.y);
    FractionBetween(f, b.x - a.x);
    FractionBetween(f, b.y - a.y);
  }

  /** FLT_EPSILON, 2^-23. */
  const FloatEpsilon: real := 0.00000011920928955078125

  /** ofMap without clamping: the affine map taking [inMin, inMax] onto
      [outMin, outMax]; a degenerate input range maps everything to outMin. */
  function OfMap(value: real, inMin: real, inMax: real, outMin: real, outMax: real): real
  {
    if Abs(inMin - inMax) < FloatEpsilon then outMin
    else (value - inMin) / (inMax - inMin) * (outMax - outMin) + outMin
  }

  /** Truncating a whole number gives it back. */
  lemma TruncateWhole(n: int)
    ensures Truncate(n as real) == n
  {
  }

  /** Centroid (100, 100), highest point (100, 40), fraction 0.6: the centroid
      carries weight 1 - f, so y = 100 * 0.4 + 40 * 0.6 = 64. */
  lemma InterpolatedExample()
    ensures Interpolated(Point(100.0, 100.0, 0.0), Point(100.0, 40.0, 0.0), 0.6) == Point(100.0, 64.0, 0.0)
  {
    var r := Interpolated(Point(100.0, 100.0, 0.0), Point(100.0, 40.0, 0.0), 0.6);
    assert r.x == 100.0 * 0.4 + 100.0 * 0.6 == 100.0;
    assert r.y == 100.0 * 0.4 + 40.0 * 0.6 == 64.0;
  }

  /** ofMap sends the ends of a proper input range to the ends of the output
      range, and is affine in between and beyond. */
  lemma OfMapEnds(inMin: real, inMax: real, outMin: real, outMax: real)
    requires Abs(inMax - inMin) >= FloatEpsilon
    ensures OfMap(inMin, inMin, inMax, outMin, outMax) == outMin
    ensures OfMap(inMax, inMin, inMax, outMin, outMax) == outMax
  {
  }

  /** ofMap does not clamp: past the end of an increasing input range the
      result lies past the end of an increasing output range. */
  lemma OfMapUnclamped(value: real, inMin: real, inMax: real, outMin: real, outMax: real)
    requires inMin + FloatEpsilon <= inMax && outMin < outMax
    ensures value > inMax ==> OfMap(value, inMin, inMax, outMin, outMax) > outMax
    ensures value < inMin ==> OfMap(value, inMin, inMax, outMin, outMax) < outMin
  {
    var d := inMax - inMin;
    var t := (value - inMin) / d;
    assert t * d == value - inMin;
    assert OfMap(value, inMin, inMax, outMin, outMax) == t * (outMax - outMin) + outMin;
    if value > inMax {
      assert (t - 1.0) * d > 0.0;
      assert (t - 1.0) * (outMax - outMin) > 0.0;
    }
    if value < inMin {
      assert t * d < 0.0;
      assert t * (outMax - outMin) < 0.0;
    }
  }
}
