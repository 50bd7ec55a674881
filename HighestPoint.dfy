/** The highest contour point search of HeadOSC and of the prototype app:
    a running minimum of y over the contour points whose x lies strictly
    inside a band around the centroid. */
module HighestPoint {
  import opened Geometry
  import opened Io

  /** INT_MAX, the initial running height. */
  const IntMax: int := 0x7fff_ffff

  /** The band test: centerX - band < x < centerX + band. */
  predicate InBand(p: ContourPoint, centerX: real, band: real)
  {
    centerX - band < p.x as real < centerX + band
  }

  /** Index of the point the loop keeps after scanning pts, or -1 when no
      assignment happens. A point replaces the current one only when its y
      is strictly below the running height, which starts at INT_MAX. */
  function HighestIndex(pts: seq<ContourPoint>, centerX: real, band: real): (k: int)
    ensures -1 <= k < |pts|
  {
    if pts == [] then -1
    else
      var k := HighestIndex(pts[..|pts| - 1], centerX, band);
      var height := if k < 0 then IntMax else pts[k].y;
      var p := pts[|pts| - 1];
      if p.y < height && InBand(p, centerX, band) then |pts| - 1 else k
  }

  /** The kept index is -1 exactly when no point in the band lies above
      INT_MAX; otherwise it is a point in the band, no point in the band is
      higher, and every earlier point in the band is strictly lower. */
  lemma {:induction false} HighestIndexIsFirstMinimum(pts: seq<ContourPoint>, centerX: real, band: real)
    ensures var k := HighestIndex(pts, centerX, band);
      && (k == -1 <==> forall i :: 0 <= i < |pts| && InBand(pts[i], centerX, band) ==> pts[i].y >= IntMax)
      && (k >= 0 ==> InBand(pts[k], centerX, band) && pts[k].y < IntMax)
      && (k >= 0 ==> forall i :: 0 <= i < |pts| && InBand(pts[i], centerX, band) ==> pts[k].y <= pts[i].y)
      && (k >= 0 ==> forall i :: 0 <= i < k && InBand(pts[i], centerX, band) ==> pts[k].y < pts[i].y)
  {
    if pts != [] {
      var init := pts[..|pts| - 1];
      HighestIndexIsFirstMinimum(init, centerX, band);
      assert forall i :: 0 <= i < |init| ==> init[i] == pts[i];
    }
  }

  /** A contour point as the ofPoint the loop stores. */
  function AsPoint(p: ContourPoint): Point
  {
    Point(p.x as real, p.y as real, 0.0)
  }

  /** The value of the member highestPoint after the loop: the kept point, or
      the value it had before when nothing in the band was found. */
  function Highest(pts: seq<ContourPoint>, centerX: real, band: real, previous: Point): Point
  {
    var k := HighestIndex(pts, centerX, band);
    if k < 0 then previous else AsPoint(pts[k])
  }

  /** The loop of update(), with the member highestPoint passed in as
      `previous` and its new value returned. */
  method FindHighestPoint(pts: seq<ContourPoint>, centerX: real, band: real, previous: Point)
    returns (highestPoint: Point)
    ensures highestPoint == Highest(pts, centerX, band, previous)
  {
    highestPoint := previous;
    var height := IntMax;
    ghost var k := -1;
    var i := 0;
    while i < |pts|
      invariant 0 <= i <= |pts|
      invariant k == HighestIndex(pts[..i], centerX, band)
      invariant height == if k < 0 then IntMax else pts[k].y
      invariant highestPoint == if k < 0 then previous else AsPoint(pts[k])
    {
      var p := pts[i];
      assert pts[..i + 1][..i] == pts[..i];
      if p.y < height && (p.x as real > centerX - band && p.x as real < centerX + band) {
        highestPoint := AsPoint(p);
        height := p.y;
        k := i;
      }
      i := i + 1;
    }
    assert pts[..|pts|] == pts;
  }

  /** When no point in the band qualifies, highestPoint keeps its previous
      value. Otherwise the kept point lies in the band, no point in the band
      is higher, and every earlier point in the band is strictly lower: on a
      tie the first one in contour order wins. */
  lemma HighestIsFirstMinimum(pts: seq<ContourPoint>, centerX: real, band: real, previous: Point)
    ensures var r := Highest(pts, centerX, band, previous);
      (forall i :: 0 <= i < |pts| && InBand(pts[i], centerX, band) ==> pts[i].y >= IntMax)
      ==> r == previous
    ensures var r := Highest(pts, centerX, band, previous);
      (exists i :: 0 <= i < |pts| && InBand(pts[i], centerX, band) && pts[i].y < IntMax)
      ==> exists k :: (0 <= k < |pts| && r == AsPoint(pts[k]) && InBand(pts[k], centerX, band)
                       && (forall i :: 0 <= i < |pts| && InBand(pts[i], centerX, band) ==> pts[k].y <= pts[i].y)
                       && (forall i :: 0 <= i < k && InBand(pts[i], centerX, band) ==> pts[k].y < pts[i].y))
  {
    HighestIndexIsFirstMinimum(pts, centerX, band);
  }

  /** Contour points (40, 10), (60, 10), (50, 5): with centroid x = 50 and a
      band of 20 the loop keeps (50, 5); with centroid x = 45 and a band of 5
      the strict test excludes all three (x = 40 and x = 50 sit on the edges)
      and the previous value is kept. */
  lemma HighestExample(previous: Point)
    ensures Highest([ContourPoint(40, 10), ContourPoint(60, 10), ContourPoint(50, 5)], 50.0, 20.0, previous)
            == Point(50.0, 5.0, 0.0)
    ensures Highest([ContourPoint(40, 10), ContourPoint(60, 10), ContourPoint(50, 5)], 45.0, 5.0, previous)
            == previous
  {
    HighestIsFirstMinimum([ContourPoint(40, 10), ContourPoint(60, 10), ContourPoint(50, 5)], 45.0, 5.0, previous);
  }

  /** Two points at the same height: the first one is kept. */
  lemma HighestTieExample(previous: Point)
    ensures Highest([ContourPoint(48, 5), ContourPoint(52, 5)], 50.0, 10.0, previous)
            == Point(48.0, 5.0, 0.0)
  {
  }
}
