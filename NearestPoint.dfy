/** findNearestPoint of OverHeadOSC: the brightest pixel below a cutoff in
    a search rectangle of the 8-bit depth image, clipped to the image, scanned
    row by row. */
module NearestPoint {
  import opened Geometry
  import opened Io

  /** A pixel position. */
  datatype Pos = Pos(x: int, y: int)

  /** The integer loop bounds findNearestPoint derives from the search box. */
  datatype Bounds = Bounds(minX: int, minY: int, maxX: int, maxY: int)

  /** The default maxValue argument. */
  const DefaultMaxValue: int := 256

  /** minX = MAX(left, 0), minY = MAX(top, 0), maxX = MIN(right, width),
      maxY = MIN(bottom, height), each converted to int. */
  function Clip(box: Rect, width: nat, height: nat): (c: Bounds)
    ensures 0 <= c.minX && 0 <= c.minY && c.maxX <= width && c.maxY <= height
  {
    Bounds(Truncate(Max(box.Left(), 0.0)), Truncate(Max(box.Top(), 0.0)),
           Truncate(Min(box.Right(), width as real)), Truncate(Min(box.Bottom(), height as real)))
  }

  predicate Inside(c: Bounds, p: Pos)
  {
    c.minX <= p.x < c.maxX && c.minY <= p.y < c.maxY
  }

  /** Row-major order: y first, then x. */
  predicate Before(p: Pos, q: Pos)
  {
    p.y < q.y || (p.y == q.y && p.x < q.x)
  }

  ghost predicate Sorted(ps: seq<Pos>)
  {
    forall i, j :: 0 <= i < j < |ps| ==> Before(ps[i], ps[j])
  }

  /** The positions minX .. maxX - 1 of row y, left to right. */
  function Row(minX: int, maxX: int, y: int): seq<Pos>
    decreases maxX - minX
  {
    if maxX <= minX then [] else Row(minX, maxX - 1, y) + [Pos(maxX - 1, y)]
  }

  /** Row i of a row is Pos(minX + i, y). */
  lemma {:induction false} RowAt(minX: int, maxX: int, y: int)
    ensures |Row(minX, maxX, y)| == if maxX <= minX then 0 else maxX - minX
    ensures forall i :: 0 <= i < |Row(minX, maxX, y)| ==> Row(minX, maxX, y)[i] == Pos(minX + i, y)
    decreases maxX - minX
  {
    if maxX > minX {
      RowAt(minX, maxX - 1, y);
    }
  }

  /** The positions visited by the two loops for rows minY .. upTo - 1. */
  function Rows(c: Bounds, upTo: int): seq<Pos>
    decreases upTo - c.minY
  {
    if upTo <= c.minY then [] else Rows(c, upTo - 1) + Row(c.minX, c.maxX, upTo - 1)
  }

  /** The loops visit exactly the positions of the clipped rectangle ... */
  lemma {:induction false} RowsMembers(c: Bounds, upTo: int)
    ensures forall p :: p in Rows(c, upTo) <==> c.minX <= p.x < c.maxX && c.minY <= p.y < upTo
    decreases upTo - c.minY
  {
    if upTo > c.minY {
      RowsMembers(c, upTo - 1);
      RowAt(c.minX, c.maxX, upTo - 1);
      var row := Row(c.minX, c.maxX, upTo - 1);
      forall p: Pos | c.minX <= p.x < c.maxX && p.y == upTo - 1
        ensures p in row
      {
        assert row[p.x - c.minX] == p;
      }
    }
  }

  /** ... each once, in row-major order. */
  lemma {:induction false} RowsSorted(c: Bounds, upTo: int)
    ensures Sorted(Rows(c, upTo))
    decreases upTo - c.minY
  {
    if upTo > c.minY {
      RowsSorted(c, upTo - 1);
      RowsMembers(c, upTo - 1);
      RowAt(c.minX, c.maxX, upTo - 1);
      var a, b := Rows(c, upTo - 1), Row(c.minX, c.maxX, upTo - 1);
      forall i, j | 0 <= i < j < |a + b|
        ensures Before((a + b)[i], (a + b)[j])
      {
        if j < |a| {
        } else if i < |a| {
          assert a[i] in a;
        }
      }
    }
  }

  /** Every position the two loops visit, in visiting order. */
  function Scan(c: Bounds): seq<Pos>
  {
    Rows(c, c.maxY)
  }

  /** The byte at a position, 0 outside the image. */
  function PixelAt(pixels: seq<Byte>, width: nat, p: Pos): Byte
  {
    var i := p.y * width + p.x;
    if 0 <= i < |pixels| then pixels[i] else 0
  }

  /** Index, in visiting order, of the pixel the loops keep, or -1. The
      running `brightest` starts at 0 and a pixel replaces it only when its
      value is below maxValue and strictly greater. */
  function BestIndex(pixels: seq<Byte>, width: nat, ps: seq<Pos>, maxValue: int): (k: int)
    ensures -1 <= k < |ps|
  {
    if ps == [] then -1
    else
      var k := BestIndex(pixels, width, ps[..|ps| - 1], maxValue);
      var brightest := if k < 0 then 0 else PixelAt(pixels, width, ps[k]);
      var v := PixelAt(pixels, width, ps[|ps| - 1]);
      if v < maxValue && v > brightest then |ps| - 1 else k
  }

  /** The kept pixel has the largest value below maxValue among the visited
      ones (and that value is not 0), every earlier pixel below maxValue is
      strictly darker, and nothing is kept exactly when no visited pixel lies
      strictly between 0 and maxValue. */
  lemma {:induction false} BestIndexIsFirstBrightest(pixels: seq<Byte>, width: nat, ps: seq<Pos>, maxValue: int)
    ensures var k := BestIndex(pixels, width, ps, maxValue);
      && (k == -1 <==> forall i :: 0 <= i < |ps| ==> !(0 < PixelAt(pixels, width, ps[i]) < maxValue))
      && (k >= 0 ==> 0 < PixelAt(pixels, width, ps[k]) < maxValue)
      && (k >= 0 ==> forall i :: 0 <= i < |ps| && PixelAt(pixels, width, ps[i]) < maxValue
                       ==> PixelAt(pixels, width, ps[i]) <= PixelAt(pixels, width, ps[k]))
      && (k >= 0 ==> forall i :: 0 <= i < k && PixelAt(pixels, width, ps[i]) < maxValue
                       ==> PixelAt(pixels, width, ps[i]) < PixelAt(pixels, width, ps[k]))
  {
    if ps != [] {
      var init := ps[..|ps| - 1];
      BestIndexIsFirstBrightest(pixels, width, init, maxValue);
      assert forall i :: 0 <= i < |init| ==> init[i] == ps[i];
    }
  }

  /** The point the loops leave in `nearest`: a default ofPoint, or the kept
      position with its byte as z. */
  function Hit(pixels: seq<Byte>, width: nat, ps: seq<Pos>, k: int): Point
    requires k < |ps|
  {
    if k < 0 then Origin
    else Point(ps[k].x as real, ps[k].y as real, PixelAt(pixels, width, ps[k]) as real)
  }

  /** The point the loops hold after visiting ps. */
  function Best(pixels: seq<Byte>, width: nat, ps: seq<Pos>, maxValue: int): Point
  {
    Hit(pixels, width, ps, BestIndex(pixels, width, ps, maxValue))
  }

  /** What findNearestPoint returns. */
  function Nearest(pixels: seq<Byte>, width: nat, height: nat, box: Rect, maxValue: int): Point
  {
    Best(pixels, width, Scan(Clip(box, width, height)), maxValue)
  }

  /** A position inside a width x height image has a byte index inside it. */
  lemma IndexInImage(x: int, y: int, width: nat, height: nat)
    requires 0 <= x < width && 0 <= y < height
    ensures 0 <= y * width + x < width * height
  {
    var d := height - 1 - y;
    assert d * width >= 0;
    calc {
      width * height;
      (y + 1 + d) * width;
      y * width + width + d * width;
    }
  }

  /** Visiting one more position changes the held point the way the loop
      body does: z holds the running `brightest`, and a pixel below maxValue
      and strictly brighter replaces it. */
  lemma BestStep(pixels: seq<Byte>, width: nat, ps: seq<Pos>, p: Pos, maxValue: int)
    ensures var b := Best(pixels, width, ps, maxValue);
      var v := PixelAt(pixels, width, p);
      Best(pixels, width, ps + [p], maxValue)
        == if v < maxValue && v as real > b.z then Point(p.x as real, p.y as real, v as real) else b
  {
    assert (ps + [p])[..|ps|] == ps;
    var k := BestIndex(pixels, width, ps, maxValue);
    assert k >= 0 ==> (ps + [p])[k] == ps[k];
  }

  /** findNearestPoint: clip the search box to the image, then scan it. */
  method FindNearestPoint(pixels: seq<Byte>, width: nat, height: nat, searchBox: Rect, maxValue: int)
    returns (nearest: Point)
    requires |pixels| == width * height
    ensures nearest == Nearest(pixels, width, height, searchBox, maxValue)
  {
    var c := Clip(searchBox, width, height);
    nearest := ScanBounds(pixels, width, height, c, maxValue);
  }

  /** The two loops of findNearestPoint over already clipped bounds: rows
      top to bottom, the outer loop. */
  method ScanBounds(pixels: seq<Byte>, width: nat, height: nat, c: Bounds, maxValue: int)
    returns (nearest: Point)
    requires |pixels| == width * height
    requires 0 <= c.minX && 0 <= c.minY && c.maxX <= width && c.maxY <= height
    ensures nearest == Best(pixels, width, Scan(c), maxValue)
  {
    nearest := Origin;
    var brightest: Byte := 0;
    var y := c.minY;
    while y < c.maxY
      invariant y == c.minY || c.minY < y <= c.maxY
      invariant nearest == Best(pixels, width, Rows(c, y), maxValue)
      invariant brightest as real == nearest.z
    {
      nearest, brightest := ScanRow(pixels, width, height, c.minX, c.maxX, y, Rows(c, y),
                                    nearest, brightest, maxValue);
      RowsStep(c, y);
      y := y + 1;
    }
    RowsStep(c, y);
  }

  /** Rows grows by one row per step and is empty up to minY. */
  lemma RowsStep(c: Bounds, y: int)
    ensures c.minY <= y ==> Rows(c, y + 1) == Rows(c, y) + Row(c.minX, c.maxX, y)
    ensures y <= c.minY ==> Rows(c, y) == []
    ensures c.maxY <= c.minY ==> Rows(c, c.maxY) == []
  {
  }

  /** The inner loop: one row left to right, continuing from the point and
      brightness left by the positions visited before it. */
  method ScanRow(pixels: seq<Byte>, width: nat, height: nat, minX: int, maxX: int, y: int,
                 ghost before: seq<Pos>, nearest0: Point, brightest0: Byte, maxValue: int)
    returns (nearest: Point, brightest: Byte)
    requires |pixels| == width * height
    requires 0 <= minX && maxX <= width && 0 <= y < height
    requires nearest0 == Best(pixels, width, before, maxValue) && brightest0 as real == nearest0.z
    ensures nearest == Best(pixels, width, before + Row(minX, maxX, y), maxValue)
    ensures brightest as real == nearest.z
  {
    nearest, brightest := nearest0, brightest0;
    var x := minX;
    assert before + Row(minX, x, y) == before;
    while x < maxX
      invariant x == minX || minX < x <= maxX
      invariant nearest == Best(pixels, width, before + Row(minX, x, y), maxValue)
      invariant brightest as real == nearest.z
    {
      IndexInImage(x, y, width, height);
      var val := pixels[y * width + x];
      assert val == PixelAt(pixels, width, Pos(x, y));
      BestStep(pixels, width, before + Row(minX, x, y), Pos(x, y), maxValue);
      assert before + Row(minX, x + 1, y) == before + Row(minX, x, y) + [Pos(x, y)];
      if val < maxValue && val > brightest {
        brightest := val;
        nearest := nearest.(x := x as real, y := y as real, z := val as real);
      }
      x := x + 1;
    }
    if x != maxX {
      assert Row(minX, x, y) == [] && Row(minX, maxX, y) == [];
    }
  }

  /** Every byte index the loops read lies inside the image. */
  lemma ScanInImage(box: Rect, width: nat, height: nat)
    ensures forall p :: p in Scan(Clip(box, width, height)) ==> 0 <= p.y * width + p.x < width * height
  {
    var c := Clip(box, width, height);
    RowsMembers(c, c.maxY);
    forall p | p in Scan(c)
      ensures 0 <= p.y * width + p.x < width * height
    {
      IndexInImage(p.x, p.y, width, height);
    }
  }

  /** With the default cutoff of 256 every non-zero byte is a candidate. */
  lemma DefaultCutoffAdmitsNonzero(v: Byte)
    ensures 0 < v < DefaultMaxValue <==> v != 0
  {
  }

  /** findNearestPoint in terms of the clipped rectangle: it returns the
      default point exactly when no pixel there lies strictly between 0 and
      maxValue; otherwise it returns a pixel of the rectangle with its byte as
      z, no pixel below maxValue is brighter, and every one before it in
      row-major order that is below maxValue is strictly darker. */
  lemma NearestIsFirstBrightest(pixels: seq<Byte>, width: nat, height: nat, box: Rect, maxValue: int)
    ensures var c := Clip(box, width, height);
      var r := Nearest(pixels, width, height, box, maxValue);
      && (r == Origin <==> forall q :: Inside(c, q) ==> !(0 < PixelAt(pixels, width, q) < maxValue))
      && (r != Origin ==>
            var p := Pos(r.x.Floor, r.y.Floor);
            && r == Point(p.x as real, p.y as real, PixelAt(pixels, width, p) as real)
            && Inside(c, p)
            && 0 < PixelAt(pixels, width, p) < maxValue
            && (forall q :: Inside(c, q) && PixelAt(pixels, width, q) < maxValue
                  ==> PixelAt(pixels, width, q) <= PixelAt(pixels, width, p))
            && (forall q :: Inside(c, q) && Before(q, p) && PixelAt(pixels, width, q) < maxValue
                  ==> PixelAt(pixels, width, q) < PixelAt(pixels, width, p)))
  {
    var c := Clip(box, width, height);
    RowsMembers(c, c.maxY);
    RowsSorted(c, c.maxY);
    BestOverRectangle(pixels, width, Scan(c), c, maxValue);
  }

  /** The same properties for any visiting order that lists exactly the
      positions of a rectangle, in row-major order. */
  lemma BestOverRectangle(pixels: seq<Byte>, width: nat, ps: seq<Pos>, c: Bounds, maxValue: int)
    requires forall q :: q in ps <==> Inside(c, q)
    requires Sorted(ps)
    ensures var r := Best(pixels, width, ps, maxValue);
      && (r == Origin <==> forall q :: Inside(c, q) ==> !(0 < PixelAt(pixels, width, q) < maxValue))
      && (r != Origin ==>
            var p := Pos(r.x.Floor, r.y.Floor);
            && r == Point(p.x as real, p.y as real, PixelAt(pixels, width, p) as real)
            && Inside(c, p)
            && 0 < PixelAt(pixels, width, p) < maxValue
            && (forall q :: Inside(c, q) && PixelAt(pixels, width, q) < maxValue
                  ==> PixelAt(pixels, width, q) <= PixelAt(pixels, width, p))
            && (forall q :: Inside(c, q) && Before(q, p) && PixelAt(pixels, width, q) < maxValue
                  ==> PixelAt(pixels, width, q) < PixelAt(pixels, width, p)))
  {
    var k := BestIndex(pixels, width, ps, maxValue);
    BestIndexIsFirstBrightest(pixels, width, ps, maxValue);
    if k < 0 {
      forall q | Inside(c, q)
        ensures !(0 < PixelAt(pixels, width, q) < maxValue)
      {
        var i :| 0 <= i < |ps| && ps[i] == q;
      }
    } else {
      var p := ps[k];
      assert (p.x as real).Floor == p.x && (p.y as real).Floor == p.y;
      BestFound(pixels, width, ps, c, maxValue, k);
    }
  }

  /** The order facts about the kept index, restated over the positions of
      the rectangle. */
  lemma BestFound(pixels: seq<Byte>, width: nat, ps: seq<Pos>, c: Bounds, maxValue: int, k: int)
    requires forall q :: q in ps <==> Inside(c, q)
    requires Sorted(ps)
    requires 0 <= k < |ps|
    requires forall i :: 0 <= i < |ps| && PixelAt(pixels, width, ps[i]) < maxValue
               ==> PixelAt(pixels, width, ps[i]) <= PixelAt(pixels, width, ps[k])
    requires forall i :: 0 <= i < k && PixelAt(pixels, width, ps[i]) < maxValue
               ==> PixelAt(pixels, width, ps[i]) < PixelAt(pixels, width, ps[k])
    ensures forall q :: Inside(c, q) && PixelAt(pixels, width, q) < maxValue
              ==> PixelAt(pixels, width, q) <= PixelAt(pixels, width, ps[k])
    ensures forall q :: Inside(c, q) && Before(q, ps[k]) && PixelAt(pixels, width, q) < maxValue
              ==> PixelAt(pixels, width, q) < PixelAt(pixels, width, ps[k])
  {
    forall q | Inside(c, q) && PixelAt(pixels, width, q) < maxValue
      ensures PixelAt(pixels, width, q) <= PixelAt(pixels, width, ps[k])
    {
      var i :| 0 <= i < |ps| && ps[i] == q;
    }
    forall q | Inside(c, q) && Before(q, ps[k]) && PixelAt(pixels, width, q) < maxValue
      ensures PixelAt(pixels, width, q) < PixelAt(pixels, width, ps[k])
    {
      var i :| 0 <= i < |ps| && ps[i] == q;
      if k < i {
        assert Before(ps[k], ps[i]);
      }
    }
  }
}
