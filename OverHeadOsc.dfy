/** OverHeadOSC's ofApp: per frame, the brightest pixel of the person
    rectangle becomes the overhead position, which is normalized, scaled and
    sent as /overhead; the keyboard edits the settings. */
module OverHeadOsc {
  import opened Geometry
  import opened Io
  import opened Adjust
  import NearestPoint

  /** The live image draw() shows, with the ordinals of the C++ enum. */
  datatype DisplayImage = NoImage | ThresholdImage | RgbImage | DepthImage

  function Ordinal(d: DisplayImage): (n: int)
    ensures 0 <= n <= 3
  {
    match d
    case NoImage => 0
    case ThresholdImage => 1
    case RgbImage => 2
    case DepthImage => 3
  }

  function FromOrdinal(n: int): (d: DisplayImage)
    requires 0 <= n <= 3
    ensures Ordinal(d) == n
  {
    if n == 0 then NoImage else if n == 1 then ThresholdImage else if n == 2 then RgbImage else DepthImage
  }

  /** The 'd' key: increment the enum, wrapping past DEPTH to NONE. */
  function NextDisplayImage(d: DisplayImage): (r: DisplayImage)
    ensures Ordinal(r) == (Ordinal(d) + 1) % 4
  {
    var n := Ordinal(d) + 1;
    if n > Ordinal(DepthImage) then NoImage else FromOrdinal(n)
  }

  /** NONE -> THRESHOLD -> RGB -> DEPTH -> NONE. */
  lemma DisplayImageCycle(d: DisplayImage)
    ensures NextDisplayImage(NoImage) == ThresholdImage
    ensures NextDisplayImage(ThresholdImage) == RgbImage
    ensures NextDisplayImage(RgbImage) == DepthImage
    ensures NextDisplayImage(DepthImage) == NoImage
    ensures NextDisplayImage(NextDisplayImage(NextDisplayImage(NextDisplayImage(d)))) == d
  {
  }

  /** The settings fields of the app. */
  datatype Settings = Settings(threshold: int, nearClipping: nat, farClipping: nat,
                               personMinArea: nat, personMaxArea: nat,
                               transform: Transform, displayImage: DisplayImage,
                               kinectID: nat, sendAddress: string, sendPort: nat)

  const LocalHost: string := "127.0.0.1"

  /** What resetSettings assigns. */
  const Defaults: Settings := Settings(160, 500, 4000, 5, 3000, DefaultTransform,
                                       ThresholdImage, 0, LocalHost, 9000)

  /** What keyPressed does to the settings. */
  function OnKey(s: Settings, key: int): (r: Settings)
    ensures 0 <= s.threshold <= 255 ==> 0 <= r.threshold <= 255
    ensures key !in {'-' as int, '=' as int, 'x' as int, 'y' as int, 'z' as int, 'd' as int, 'R' as int}
            ==> r == s
  {
    if key == '-' as int then
      s.(threshold := if s.threshold - 1 < 0 then 0 else s.threshold - 1)
    else if key == '=' as int then
      s.(threshold := if s.threshold + 1 > 255 then 255 else s.threshold + 1)
    else if key == 'x' as int then
      s.(transform := s.transform.(normalizeX := !s.transform.normalizeX))
    else if key == 'y' as int then
      s.(transform := s.transform.(normalizeY := !s.transform.normalizeY))
    else if key == 'z' as int then
      s.(transform := s.transform.(normalizeZ := !s.transform.normalizeZ))
    else if key == 'd' as int then
      s.(displayImage := NextDisplayImage(s.displayImage))
    else if key == 'R' as int then
      Defaults
    else
      s
  }

  /** '-' and '=' move the threshold by one and stop at 0 and 255. */
  lemma ThresholdKeys(s: Settings)
    ensures OnKey(s, '-' as int).threshold == if s.threshold <= 0 then 0 else s.threshold - 1
    ensures OnKey(s, '=' as int).threshold == if s.threshold >= 255 then 255 else s.threshold + 1
    ensures OnKey(s, '-' as int).(threshold := s.threshold) == s
    ensures OnKey(s, '=' as int).(threshold := s.threshold) == s
  {
  }

  /** 'x', 'y' and 'z' each flip one normalize flag and change nothing else. */
  lemma NormalizeKeysFlipOneFlag(s: Settings)
    ensures OnKey(s, 'x' as int).transform.normalizeX != s.transform.normalizeX
    ensures OnKey(s, 'x' as int).transform.(normalizeX := s.transform.normalizeX) == s.transform
    ensures OnKey(s, 'y' as int).transform.normalizeY != s.transform.normalizeY
    ensures OnKey(s, 'y' as int).transform.(normalizeY := s.transform.normalizeY) == s.transform
    ensures OnKey(s, 'z' as int).transform.normalizeZ != s.transform.normalizeZ
    ensures OnKey(s, 'z' as int).transform.(normalizeZ := s.transform.normalizeZ) == s.transform
    ensures OnKey(s, 'x' as int).(transform := s.transform) == s
    ensures OnKey(s, 'y' as int).(transform := s.transform) == s
    ensures OnKey(s, 'z' as int).(transform := s.transform) == s
  {
  }

  /** 'd' advances the display image and nothing else; 'R' resets. */
  lemma DisplayAndResetKeys(s: Settings)
    ensures OnKey(s, 'd' as int) == s.(displayImage := NextDisplayImage(s.displayImage))
    ensures OnKey(s, 'R' as int) == Defaults
  {
  }

  /** The defaults keep the threshold in range and make the adjustment the
      identity. */
  lemma DefaultsAreSane(p: Point, d: Domain)
    ensures 0 <= Defaults.threshold <= 255
    ensures Defaults.nearClipping < Defaults.farClipping
    ensures Defaults.personMinArea <= Defaults.personMaxArea
    ensures Adjusted(p, Defaults.transform, d) == p
  {
    DefaultIsIdentity(p, d);
  }

  /** The app object: the header's settings and position fields, and the
      messages handed to the OSC sender. */
  class App {
    var threshold: int
    var nearClipping: nat
    var farClipping: nat
    var personMinArea: nat
    var personMaxArea: nat
    /** normalizeX/Y/Z, scaleX/Y/Z and scaleXAmt/YAmt/ZAmt. */
    var transform: Transform
    var displayImage: DisplayImage
    var kinectID: nat
    var sendAddress: string
    var sendPort: nat

    /** Found person centroid and size. */
    var person: Rect
    /** Found overhead position. */
    var overhead: Point
    /** The overhead position after normalize and scale. */
    var overheadAdj: Point

    /** Every message sent so far, oldest first. */
    ghost var sent: seq<OscMessage>

    function CurrentSettings(): Settings
      reads this
    {
      Settings(threshold, nearClipping, farClipping, personMinArea, personMaxArea,
               transform,
               displayImage, kinectID, sendAddress, sendPort)
    }

    /** Construction and setup(): default positions, then resetSettings. */
    constructor ()
      ensures CurrentSettings() == Defaults
      ensures person == EmptyRect && overhead == Origin && overheadAdj == Origin
      ensures sent == []
    {
      person := EmptyRect;
      overhead := Origin;
      overheadAdj := Origin;
      sent := [];
      new;
      ResetSettings();
    }

    method ResetSettings()
      modifies this`threshold, this`nearClipping, this`farClipping, this`personMinArea, this`personMaxArea
      modifies this`transform, this`displayImage, this`kinectID, this`sendAddress, this`sendPort
      ensures CurrentSettings() == Defaults
    {
      threshold := 160;
      nearClipping := 500;
      farClipping := 4000;
      personMinArea := 5;
      personMaxArea := 3000;
      transform := Transform(false, false, false, false, false, false, 1.0, 1.0, 1.0);
      displayImage := ThresholdImage;
      kinectID := 0;
      sendAddress := LocalHost;
      sendPort := 9000;
    }

    method KeyPressed(key: int)
      modifies this`threshold, this`nearClipping, this`farClipping, this`personMinArea, this`personMaxArea
      modifies this`transform, this`displayImage, this`kinectID, this`sendAddress, this`sendPort
      ensures CurrentSettings() == OnKey(old(CurrentSettings()), key)
    {
      if key == '-' as int {
        threshold := threshold - 1;
        if threshold < 0 { threshold := 0; }
      } else if key == '=' as int {
        threshold := threshold + 1;
        if threshold > 255 { threshold := 255; }
      } else if key == 'x' as int {
        transform := transform.(normalizeX := !transform.normalizeX);
      } else if key == 'y' as int {
        transform := transform.(normalizeY := !transform.normalizeY);
      } else if key == 'z' as int {
        transform := transform.(normalizeZ := !transform.normalizeZ);
      } else if key == 'd' as int {
        var d := Ordinal(displayImage);
        d := d + 1;
        if d > Ordinal(DepthImage) {
          d := Ordinal(NoImage);
        }
        displayImage := FromOrdinal(d);
      } else if key == 'R' as int {
        ResetSettings();
      }
    }

    /** One update(): on a new frame with at least one blob, search the
        person rectangle of the first blob, look the depth up at the found
        pixel, adjust, and send one /overhead message; otherwise nothing. */
    method Update(frame: Frame, blobs: seq<Blob>)
      requires frame.Valid()
      modifies this`person, this`overhead, this`overheadAdj, this`sent
      ensures !(frame.isFrameNew && |blobs| > 0) ==>
        person == old(person) && overhead == old(overhead) && overheadAdj == old(overheadAdj)
        && sent == old(sent)
      ensures frame.isFrameNew && |blobs| > 0 ==>
        var nearest := NearestPoint.Nearest(frame.depthPixels, frame.width, frame.height,
                                            PersonRect(blobs[0]), NearestPoint.DefaultMaxValue);
        && person == PersonRect(blobs[0])
        && overhead == nearest.(z := DistanceAt(frame, nearest))
        && overheadAdj == Adjusted(overhead, CurrentSettings().transform, FrameDomain(frame))
        && sent == old(sent) + [PositionMessage("/overhead", overheadAdj)]
      ensures |sent| == |old(sent)| + if frame.isFrameNew && |blobs| > 0 then 1 else 0
    {
      if frame.isFrameNew {
        if |blobs| > 0 {
          var blob := blobs[0];
          var box := Rect(blob.centroidX, blob.centroidY, blob.boundingWidth, blob.boundingHeight);

          var found := NearestPoint.FindNearestPoint(frame.depthPixels, frame.width, frame.height,
                                                     box, NearestPoint.DefaultMaxValue);
          found := found.(z := frame.distanceAt(Truncate(found.x), Truncate(found.y)));
          var adj := AdjustPoint(found, transform, FrameDomain(frame));

          person, overhead, overheadAdj := box, found, adj;
          sent := sent + [OscMessage("/overhead", [adj.x, adj.y, adj.z])];
        }
      }
    }
  }
}
