/** The coordinate adjustment shared by the three apps: each axis is first
    normalized with ofMap (if its flag is set), then multiplied by its scale
    amount (if its flag is set). */
module Adjust {
  import opened Geometry
  import opened Io

  /** The normalize and scale settings of an app. */
  datatype Transform = Transform(normalizeX: bool, normalizeY: bool, normalizeZ: bool,
                                 scaleX: bool, scaleY: bool, scaleZ: bool,
                                 scaleXAmt: real, scaleYAmt: real, scaleZAmt: real)
  {
    predicate NoFlags() {
      !normalizeX && !normalizeY && !normalizeZ && !scaleX && !scaleY && !scaleZ
    }
  }

  /** The transform the settings are reset to: every flag off, every amount 1. */
  const DefaultTransform: Transform := Transform(false, false, false, false, false, false, 1.0, 1.0, 1.0)

  /** The input ranges of the three normalizations: x over [0, width],
      y over [0, height], z over the sensor's [near, far] clipping planes. */
  datatype Domain = Domain(width: real, height: real, nearClipping: real, farClipping: real)

  function FrameDomain(f: Frame): Domain
  {
    Domain(f.width as real, f.height as real, f.nearClipping, f.farClipping)
  }

  /** One axis: normalize, then scale. */
  function AdjustAxis(v: real, normalize: bool, lo: real, hi: real, scale: bool, amount: real): real
  {
    var n := if normalize then OfMap(v, lo, hi, 0.0, 1.0) else v;
    if scale then n * amount else n
  }

  function Adjusted(p: Point, t: Transform, d: Domain): Point
  {
    Point(AdjustAxis(p.x, t.normalizeX, 0.0, d.width, t.scaleX, t.scaleXAmt),
          AdjustAxis(p.y, t.normalizeY, 0.0, d.height, t.scaleY, t.scaleYAmt),
          AdjustAxis(p.z, t.normalizeZ, d.nearClipping, d.farClipping, t.scaleZ, t.scaleZAmt))
  }

  /** The normalize and scale steps of update(), in the order the code takes
      them: each normalized axis is mapped from the raw point onto [0, 1],
      then each scaled axis of the result is multiplied by its amount. */
  method AdjustPoint(p: Point, t: Transform, d: Domain) returns (adj: Point)
    ensures adj == Adjusted(p, t, d)
  {
    adj := p;

    if t.normalizeX { adj := adj.(x := OfMap(p.x, 0.0, d.width, 0.0, 1.0)); }
    if t.normalizeY { adj := adj.(y := OfMap(p.y, 0.0, d.height, 0.0, 1.0)); }
    if t.normalizeZ { adj := adj.(z := OfMap(p.z, d.nearClipping, d.farClipping, 0.0, 1.0)); }

    if t.scaleX { adj := adj.(x := adj.x * t.scaleXAmt); }
    if t.scaleY { adj := adj.(y := adj.y * t.scaleYAmt); }
    if t.scaleZ { adj := adj.(z := adj.z * t.scaleZAmt); }
  }

  /** The prototype's variant of the same steps: the point is overwritten
      axis by axis, each normalization reading the coordinate it replaces. */
  method AdjustInPlace(p: Point, t: Transform, d: Domain) returns (h: Point)
    ensures h == Adjusted(p, t, d)
  {
    h := p;

    if t.normalizeX { h := h.(x := OfMap(h.x, 0.0, d.width, 0.0, 1.0)); }
    if t.normalizeY { h := h.(y := OfMap(h.y, 0.0, d.height, 0.0, 1.0)); }
    if t.normalizeZ { h := h.(z := OfMap(h.z, d.nearClipping, d.farClipping, 0.0, 1.0)); }

    if t.scaleX { h := h.(x := h.x * t.scaleXAmt); }
    if t.scaleY { h := h.(y := h.y * t.scaleYAmt); }
    if t.scaleZ { h := h.(z := h.z * t.scaleZAmt); }
  }

  /** With every flag off the adjustment is the identity, whatever the
      amounts; applying it again changes nothing either. */
  lemma NoFlagsIsIdentity(p: Point, t: Transform, d: Domain)
    requires t.NoFlags()
    ensures Adjusted(p, t, d) == p
    ensures Adjusted(Adjusted(p, t, d), t, d) == p
  {
  }

  /** The reset transform is the identity. */
  lemma DefaultIsIdentity(p: Point, d: Domain)
    ensures Adjusted(p, DefaultTransform, d) == p
  {
    NoFlagsIsIdentity(p, DefaultTransform, d);
  }

  /** Each output axis depends only on the same input axis, that axis's
      flags and amount, and that axis's range. */
  lemma AxesIndependent(p: Point, q: Point, t: Transform, u: Transform, d: Domain, e: Domain)
    ensures p.x == q.x && t.normalizeX == u.normalizeX && t.scaleX == u.scaleX
            && t.scaleXAmt == u.scaleXAmt && d.width == e.width
            ==> Adjusted(p, t, d).x == Adjusted(q, u, e).x
    ensures p.y == q.y && t.normalizeY == u.normalizeY && t.scaleY == u.scaleY
            && t.scaleYAmt == u.scaleYAmt && d.height == e.height
            ==> Adjusted(p, t, d).y == Adjusted(q, u, e).y
    ensures p.z == q.z && t.normalizeZ == u.normalizeZ && t.scaleZ == u.scaleZ
            && t.scaleZAmt == u.scaleZAmt && d.nearClipping == e.nearClipping
            && d.farClipping == e.farClipping
            ==> Adjusted(p, t, d).z == Adjusted(q, u, e).z
  {
  }

  /** With both flags set an axis becomes (v - lo) / (hi - lo) * amount:
      x / width, y / height and (z - near) / (far - near), each scaled. */
  lemma NormalizeThenScale(v: real, lo: real, hi: real, amount: real)
    requires Abs(hi - lo) >= FloatEpsilon
    ensures AdjustAxis(v, true, lo, hi, true, amount) == (v - lo) / (hi - lo) * amount
    ensures AdjustAxis(v, true, lo, hi, false, amount) == (v - lo) / (hi - lo)
    ensures AdjustAxis(v, false, lo, hi, true, amount) == v * amount
  {
  }

  /** Raw x = 160 in a 640-wide frame with scale amount 2: normalizing and
      scaling gives 0.5, scaling alone gives 320. */
  lemma NormalizeThenScaleExample(p: Point, t: Transform, d: Domain)
    requires p.x == 160.0 && d.width == 640.0 && t.scaleX && t.scaleXAmt == 2.0
    ensures t.normalizeX ==> Adjusted(p, t, d).x == 0.5
    ensures !t.normalizeX ==> Adjusted(p, t, d).x == 320.0
  {
  }

  /** Normalization from 0 is linear, so for x and y scaling before
      normalizing would give the same result ... */
  lemma ScaleCommutesFromZero(v: real, hi: real, amount: real)
    requires Abs(hi) >= FloatEpsilon
    ensures AdjustAxis(v, true, 0.0, hi, true, amount) == OfMap(v * amount, 0.0, hi, 0.0, 1.0)
  {
    assert OfMap(v * amount, 0.0, hi, 0.0, 1.0) == (v * amount) / hi;
    assert OfMap(v, 0.0, hi, 0.0, 1.0) == v / hi;
  }

  /** ... but not for z: with near = 500, far = 4000, z = 1200 and amount 2,
      normalizing first gives 0.4 and scaling first would give 0.5428... */
  lemma ScaleDoesNotCommuteForDepth()
    ensures AdjustAxis(1200.0, true, 500.0, 4000.0, true, 2.0) == 0.4
    ensures OfMap(1200.0 * 2.0, 500.0, 4000.0, 0.0, 1.0) != 0.4
  {
  }

  /** Normalization does not clamp: a point beyond the far plane maps above
      1, one nearer than the near plane below 0. */
  lemma DepthUnclamped(p: Point, t: Transform, d: Domain)
    requires t.normalizeZ && !t.scaleZ && d.nearClipping + FloatEpsilon <= d.farClipping
    ensures p.z > d.farClipping ==> Adjusted(p, t, d).z > 1.0
    ensures p.z < d.nearClipping ==> Adjusted(p, t, d).z < 0.0
  {
    OfMapUnclamped(p.z, d.nearClipping, d.farClipping, 0.0, 1.0);
  }
}
