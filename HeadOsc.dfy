/** HeadOSC's ofApp: per frame, the head is placed between the centroid of
    the first blob and the highest contour point near it, normalized, scaled
    and sent as /head; the keyboard edits the settings. */
module HeadOsc {
  import opened Geometry
  import opened Io
  import opened Adjust
  import HighestPoint

  /** The settings fields of the app. */
  datatype Settings = Settings(threshold: int, nearClipping: nat, farClipping: nat,
                               highestPointThreshold: nat, headInterpolation: real,
                               transform: Transform, showRgb: bool,
                               sendAddress: string, sendPort: nat)

  const LocalHost: string := "127.0.0.1"

  /** What resetSettings assigns. */
  const Defaults: Settings := Settings(160, 500, 4000, 50, 0.6, DefaultTransform, false, LocalHost, 9000)

  /** What keyPressed does to the settings ('s' and 'l' change none of them
      here: saving writes a file, and loading is modelled as failing). */
  function OnKey(s: Settings, key: int): (r: Settings)
    ensures 0 <= s.threshold <= 255 ==> 0 <= r.threshold <= 255
    ensures key !in {'-' as int, '=' as int, 'x' as int, 'y' as int, 'z' as int, 'r' as int, 'R' as int}
            ==> r == s
  {
    if key == '-' as int then
      s.(threshold := if s.threshold - 1 < 0 then 0 else s.threshold - 1)
    else if key == '=' as int then
      s.(threshold := if s.threshold + 1 > 255 then 255 else s.threshold + 1)
    else if key == 'x' as int then
      s.(transform := s.transform.(normalizeX := !s.transform.normalizeX))
    else if key == 'y' as int then
      s.(transform := s.transform.(normalizeY := !s.transform.normalizeY))
    else if key == 'z' as int then
      s.(transform := s.transform.(normalizeZ := !s.transform.normalizeZ))
    else if key == 'r' as int then
      s.(showRgb := !s.showRgb)
    else if key == 'R' as int then
      Defaults
    else
      s
  }

  /** '-' and '=' move the threshold by one and stop at 0 and 255. */
  lemma ThresholdKeys(s: Settings)
    ensures OnKey(s, '-' as int).threshold == if s.threshold <= 0 then 0 else s.threshold - 1
    ensures OnKey(s, '=' as int).threshold == if s.threshold >= 255 then 255 else s.threshold + 1
    ensures OnKey(s, '-' as int).(threshold := s.threshold) == s
    ensures OnKey(s, '=' as int).(threshold := s.threshold) == s
  {
  }

  /** 'x', 'y', 'z' and 'r' each flip one flag and change nothing else;
      'R' resets. */
  lemma ToggleKeys(s: Settings)
    ensures OnKey(s, 'x' as int) == s.(transform := s.transform.(normalizeX := !s.transform.normalizeX))
    ensures OnKey(s, 'y' as int) == s.(transform := s.transform.(normalizeY := !s.transform.normalizeY))
    ensures OnKey(s, 'z' as int) == s.(transform := s.transform.(normalizeZ := !s.transform.normalizeZ))
    ensures OnKey(s, 'r' as int) == s.(showRgb := !s.showRgb)
    ensures OnKey(s, 'R' as int) == Defaults
  {
  }

  /** Pressing a toggle key twice restores the settings. */
  lemma ToggleTwice(s: Settings)
    ensures OnKey(OnKey(s, 'x' as int), 'x' as int) == s
    ensures OnKey(OnKey(s, 'y' as int), 'y' as int) == s
    ensures OnKey(OnKey(s, 'z' as int), 'z' as int) == s
    ensures OnKey(OnKey(s, 'r' as int), 'r' as int) == s
  {
  }

  /** The defaults keep the threshold in range, put the head 60% of the way
      from the centroid to the highest point, and make the adjustment the
      identity. */
  lemma DefaultsAreSane(centroid: Point, highest: Point, p: Point, d: Domain)
    ensures 0 <= Defaults.threshold <= 255
    ensures Defaults.nearClipping < Defaults.farClipping
    ensures 0.0 <= Defaults.headInterpolation <= 1.0
    ensures Interpolated(centroid, highest, Defaults.headInterpolation).y
            == centroid.y + 0.6 * (highest.y - centroid.y)
    ensures Adjusted(p, Defaults.transform, d) == p
  {
    DefaultIsIdentity(p, d);
  }

  /** The rough head position: the centroid moved toward the highest point
      by the interpolation fraction, with the depth looked up there. */
  function Head(person: Rect, highest: Point, fraction: real, frame: Frame): Point
  {
    var h := Interpolated(Point(person.x, person.y, 0.0), highest, fraction);
    h.(z := DistanceAt(frame, h))
  }

  /** With a fraction in [0, 1] the head lies in the box spanned by the
      centroid and the highest point, at the centroid for 0 and at the
      highest point for 1. */
  lemma HeadBetween(person: Rect, highest: Point, fraction: real, frame: Frame)
    requires 0.0 <= fraction <= 1.0
    ensures var h := Head(person, highest, fraction, frame);
      && Min(person.x, highest.x) <= h.x <= Max(person.x, highest.x)
      && Min(person.y, highest.y) <= h.y <= Max(person.y, highest.y)
      && h.z == frame.distanceAt(Truncate(h.x), Truncate(h.y))
    ensures fraction == 0.0 ==>
      Head(person, highest, fraction, frame).x == person.x && Head(person, highest, fraction, frame).y == person.y
    ensures fraction == 1.0 ==>
      Head(person, highest, fraction, frame).x == highest.x && Head(person, highest, fraction, frame).y == highest.y
  {
    InterpolatedBetween(Point(person.x, person.y, 0.0), highest, fraction);
  }

  /** The app object: the header's settings and position fields, and the
      messages handed to the OSC sender. */
  class App {
    var threshold: int
    var nearClipping: nat
    var farClipping: nat
    var highestPointThreshold: nat
    var headInterpolation: real
    /** normalizeX/Y/Z, scaleX/Y/Z and scaleXAmt/YAmt/ZAmt. */
    var transform: Transform
    var showRgb: bool
    var sendAddress: string
    var sendPort: nat

    /** Found person centroid and size. */
    var person: Rect
    /** Highest point in the person contour. */
    var highestPoint: Point
    /** Found head position. */
    var head: Point
    /** The head position after normalize and scale. */
    var headAdj: Point

    /** Every message sent so far, oldest first. */
    ghost var sent: seq<OscMessage>

    function CurrentSettings(): Settings
      reads this
    {
      Settings(threshold, nearClipping, farClipping, highestPointThreshold, headInterpolation,
               transform, showRgb, sendAddress, sendPort)
    }

    /** Construction and setup(): default positions, then resetSettings. */
    constructor ()
      ensures CurrentSettings() == Defaults
      ensures person == EmptyRect && highestPoint == Origin && head == Origin && headAdj == Origin
      ensures sent == []
    {
      person := EmptyRect;
      highestPoint := Origin;
      head := Origin;
      headAdj := Origin;
      sent := [];
      new;
      ResetSettings();
    }

    method ResetSettings()
      modifies this`threshold, this`nearClipping, this`farClipping, this`highestPointThreshold
      modifies this`headInterpolation, this`transform, this`showRgb, this`sendAddress, this`sendPort
      ensures CurrentSettings() == Defaults
    {
      threshold := 160;
      nearClipping := 500;
      farClipping := 4000;
      highestPointThreshold := 50;
      headInterpolation := 0.6;
      transform := Transform(false, false, false, false, false, false, 1.0, 1.0, 1.0);
      showRgb := false;
      sendAddress := LocalHost;
      sendPort := 9000;
    }

    method KeyPressed(key: int)
      modifies this`threshold, this`nearClipping, this`farClipping, this`highestPointThreshold
      modifies this`headInterpolation, this`transform, this`showRgb, this`sendAddress, this`sendPort
      ensures CurrentSettings() == OnKey(old(CurrentSettings()), key)
    {
      if key == '-' as int {
        threshold := threshold - 1;
        if threshold < 0 { threshold := 0; }
      } else if key == '=' as int {
        threshold := threshold + 1;
        if threshold > 255 { threshold := 255; }
      } else if key == 'x' as int {
        transform := transform.(normalizeX := !transform.normalizeX);
      } else if key == 'y' as int {
        transform := transform.(normalizeY := !transform.normalizeY);
      } else if key == 'z' as int {
        transform := transform.(normalizeZ := !transform.normalizeZ);
      } else if key == 'r' as int {
        showRgb := !showRgb;
      } else if key == 'R' as int {
        ResetSettings();
      }
    }

    /** One update(): on a new frame with at least one blob, take the first
        blob as the person, search its contour for the highest point within
        the band around the centroid (keeping the previous one when none
        qualifies), interpolate the head, adjust it and send one /head
        message; otherwise nothing. */
    method Update(frame: Frame, blobs: seq<Blob>)
      modifies this`person, this`highestPoint, this`head, this`headAdj, this`sent
      ensures !(frame.isFrameNew && |blobs| > 0) ==>
        person == old(person) && highestPoint == old(highestPoint) && head == old(head)
        && headAdj == old(headAdj) && sent == old(sent)
      ensures frame.isFrameNew && |blobs| > 0 ==>
        && person == PersonRect(blobs[0])
        && highestPoint == HighestPoint.Highest(blobs[0].pts, person.x, highestPointThreshold as real,
                                                old(highestPoint))
        && head == Head(person, highestPoint, headInterpolation, frame)
        && headAdj == Adjusted(head, transform, FrameDomain(frame))
        && sent == old(sent) + [PositionMessage("/head", headAdj)]
      ensures |sent| == |old(sent)| + if frame.isFrameNew && |blobs| > 0 then 1 else 0
    {
      if frame.isFrameNew {
        if |blobs| > 0 {
          var blob := blobs[0];
          var box := Rect(blob.centroidX, blob.centroidY, blob.boundingWidth, blob.boundingHeight);

          var highest := HighestPoint.FindHighestPoint(blob.pts, box.x, highestPointThreshold as real,
                                                       highestPoint);

          var h := Interpolated(Point(box.x, box.y, 0.0), highest, headInterpolation);
          h := h.(z := frame.distanceAt(Truncate(h.x), Truncate(h.y)));
          var adj := AdjustPoint(h, transform, FrameDomain(frame));

          person, highestPoint, head, headAdj := box, highest, h, adj;
          sent := sent + [OscMessage("/head", [adj.x, adj.y, adj.z])];
        }
      }
    }
  }
}
