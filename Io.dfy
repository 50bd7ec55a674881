/** What the per-frame pipeline reads from its collaborators (the Kinect,
    the OpenCV contour finder) and what it hands to the OSC sender. */
module Io {
  import opened Geometry

  /** One unsigned char of the 8-bit depth image. */
  type Byte = b: int | 0 <= b < 256

  /** A contour point of an ofxCvBlob: the contour finder pushes integer
      pixel coordinates (with z = 0). */
  datatype ContourPoint = ContourPoint(x: int, y: int)

  /** The parts of an ofxCvBlob the pipeline reads: the centroid, the size
      of the bounding rectangle, and the contour in the finder's order. */
  datatype Blob = Blob(centroidX: real, centroidY: real,
                       boundingWidth: real, boundingHeight: real,
                       pts: seq<ContourPoint>)

  /** The sensor as seen during one update(): whether the frame is new, the
      8-bit depth image (row-major, width * height bytes), the clipping planes
      the sensor reports, and the calibrated lookup getDistanceAt(int, int). */
  datatype Frame = Frame(isFrameNew: bool, width: nat, height: nat,
                         depthPixels: seq<Byte>,
                         nearClipping: real, farClipping: real,
                         distanceAt: (int, int) -> real)
  {
    predicate Valid() { |depthPixels| == width * height }
  }

  /** An OSC message: an address and its float arguments, in order. */
  datatype OscMessage = OscMessage(address: string, args: seq<real>)

  /** The `person` rectangle update() builds from a blob: position at the
      centroid, size of the bounding rectangle. */
  function PersonRect(b: Blob): Rect
  {
    Rect(b.centroidX, b.centroidY, b.boundingWidth, b.boundingHeight)
  }

  /** ofxKinect::getDistanceAt(const ofPoint&): the lookup at the point's
      coordinates converted to int. */
  function DistanceAt(f: Frame, p: Point): real
  {
    f.distanceAt(Truncate(p.x), Truncate(p.y))
  }

  /** The message update() sends: three float arguments x, y, z in order. */
  function PositionMessage(address: string, p: Point): OscMessage
  {
    OscMessage(address, [p.x, p.y, p.z])
  }
}
