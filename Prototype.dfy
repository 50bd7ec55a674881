/** The prototype ofApp at the top of the repository: the same head search
    as HeadOSC, but the head is normalized and scaled in place and nothing
    is sent; there is no reset, save or load. */
module Prototype {
  import opened Geometry
  import opened Io
  import opened Adjust
  import HighestPoint

  /** The settings fields of the app. */
  datatype Settings = Settings(threshold: int, nearClipping: nat, farClipping: nat,
                               highestPointThreshold: nat, headInterpolation: real,
                               transform: Transform, showRgb: bool)

  /** What setup() assigns. */
  const Initial: Settings := Settings(160, 500, 4000, 50, 0.6, DefaultTransform, false)

  /** What keyPressed does to the settings. */
  function OnKey(s: Settings, key: int): (r: Settings)
    ensures 0 <= s.threshold <= 255 ==> 0 <= r.threshold <= 255
    ensures key !in {'-' as int, '=' as int, 'x' as int, 'y' as int, 'z' as int, 'r' as int} ==> r == s
  {
    if key == '-' as int then
      s.(threshold := if s.threshold - 1 < 0 then 0 else s.threshold - 1)
    else if key == '=' as int then
      s.(threshold := if s.threshold + 1 > 255 then 255 else s.threshold + 1)
    else if key == 'x' as int then
      s.(transform := s.transform.(normalizeX := !s.transform.normalizeX))
    else if key == 'y' as int then
      s.(transform := s.transform.(normalizeY := !s.transform.normalizeY))
    else if key == 'z' as int then
      s.(transform := s.transform.(normalizeZ := !s.transform.normalizeZ))
    else if key == 'r' as int then
      s.(showRgb := !s.showRgb)
    else
      s
  }

  /** '-' and '=' move the threshold by one and stop at 0 and 255; no other
      setting changes. */
  lemma ThresholdKeys(s: Settings)
    ensures OnKey(s, '-' as int).threshold == if s.threshold <= 0 then 0 else s.threshold - 1
    ensures OnKey(s, '=' as int).threshold == if s.threshold >= 255 then 255 else s.threshold + 1
    ensures OnKey(s, '-' as int).(threshold := s.threshold) == s
    ensures OnKey(s, '=' as int).(threshold := s.threshold) == s
  {
  }

  /** Each toggle key flips its own flag and changes nothing else. */
  lemma ToggleKeys(s: Settings)
    ensures OnKey(s, 'x' as int) == s.(transform := s.transform.(normalizeX := !s.transform.normalizeX))
    ensures OnKey(s, 'y' as int) == s.(transform := s.transform.(normalizeY := !s.transform.normalizeY))
    ensures OnKey(s, 'z' as int) == s.(transform := s.transform.(normalizeZ := !s.transform.normalizeZ))
    ensures OnKey(s, 'r' as int) == s.(showRgb := !s.showRgb)
  {
  }

  /** Pressing a toggle key twice restores the settings. */
  lemma ToggleTwice(s: Settings)
    ensures OnKey(OnKey(s, 'x' as int), 'x' as int) == s
    ensures OnKey(OnKey(s, 'y' as int), 'y' as int) == s
    ensures OnKey(OnKey(s, 'z' as int), 'z' as int) == s
    ensures OnKey(OnKey(s, 'r' as int), 'r' as int) == s
  {
  }

  /** Without a reset key, the scale flags and amounts set up at start keep
      their values whatever keys are pressed. */
  lemma KeysNeverScale(s: Settings, key: int)
    ensures OnKey(s, key).transform.scaleX == s.transform.scaleX
    ensures OnKey(s, key).transform.scaleY == s.transform.scaleY
    ensures OnKey(s, key).transform.scaleZ == s.transform.scaleZ
    ensures OnKey(s, key).transform.scaleXAmt == s.transform.scaleXAmt
    ensures OnKey(s, key).transform.scaleYAmt == s.transform.scaleYAmt
    ensures OnKey(s, key).transform.scaleZAmt == s.transform.scaleZAmt
    ensures OnKey(s, key).headInterpolation == s.headInterpolation
    ensures OnKey(s, key).highestPointThreshold == s.highestPointThreshold
  {
  }

  /** The app object: the header's settings and position fields. */
  class App {
    var threshold: int
    var nearClipping: nat
    var farClipping: nat
    var highestPointThreshold: nat
    var headInterpolation: real
    /** normalizeX/Y/Z, scaleX/Y/Z and scaleXAmt/YAmt/ZAmt. */
    var transform: Transform
    var showRgb: bool

    /** Found person centroid and size. */
    var person: Rect
    /** Highest point in the person contour. */
    var highestPoint: Point
    /** Found head position, normalized and scaled in place. */
    var head: Point

    function CurrentSettings(): Settings
      reads this
    {
      Settings(threshold, nearClipping, farClipping, highestPointThreshold, headInterpolation,
               transform, showRgb)
    }

    /** Construction and setup(). */
    constructor ()
      ensures CurrentSettings() == Initial
      ensures person == EmptyRect && highestPoint == Origin && head == Origin
    {
      person := EmptyRect;
      highestPoint := Origin;
      head := Origin;

      threshold := 160;
      nearClipping := 500;
      farClipping := 4000;
      highestPointThreshold := 50;
      headInterpolation := 0.6;
      transform := Transform(false, false, false, false, false, false, 1.0, 1.0, 1.0);
      showRgb := false;
    }

    method KeyPressed(key: int)
      modifies this`threshold, this`transform, this`showRgb
      ensures CurrentSettings() == OnKey(old(CurrentSettings()), key)
    {
      if key == '-' as int {
        threshold := threshold - 1;
        if threshold < 0 { threshold := 0; }
      } else if key == '=' as int {
        threshold := threshold + 1;
        if threshold > 255 { threshold := 255; }
      } else if key == 'x' as int {
        transform := transform.(normalizeX := !transform.normalizeX);
      } else if key == 'y' as int {
        transform := transform.(normalizeY := !transform.normalizeY);
      } else if key == 'z' as int {
        transform := transform.(normalizeZ := !transform.normalizeZ);
      } else if key == 'r' as int {
        showRgb := !showRgb;
      }
    }

    /** One update(): as HeadOSC's up to the interpolated head, whose
        coordinates are then overwritten by their normalized and scaled
        values. */
    method Update(frame: Frame, blobs: seq<Blob>)
      modifies this`person, this`highestPoint, this`head
      ensures !(frame.isFrameNew && |blobs| > 0) ==>
        person == old(person) && highestPoint == old(highestPoint) && head == old(head)
      ensures frame.isFrameNew && |blobs| > 0 ==>
        var raw := Interpolated(Point(blobs[0].centroidX, blobs[0].centroidY, 0.0), highestPoint,
                                headInterpolation);
        && person == PersonRect(blobs[0])
        && highestPoint == HighestPoint.Highest(blobs[0].pts, person.x, highestPointThreshold as real,
                                                old(highestPoint))
        && head == Adjusted(raw.(z := DistanceAt(frame, raw)), transform, FrameDomain(frame))
    {
      if frame.isFrameNew {
        if |blobs| > 0 {
          var blob := blobs[0];
          var box := Rect(blob.centroidX, blob.centroidY, blob.boundingWidth, blob.boundingHeight);

          var highest := HighestPoint.FindHighestPoint(blob.pts, box.x, highestPointThreshold as real,
                                                       highestPoint);

          var h := Interpolated(Point(box.x, box.y, 0.0), highest, headInterpolation);
          h := h.(z := frame.distanceAt(Truncate(h.x), Truncate(h.y)));
          h := AdjustInPlace(h, transform, FrameDomain(frame));

          person, highestPoint, head := box, highest, h;
        }
      }
    }
  }
}
