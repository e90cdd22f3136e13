/** Detected and tracked objects: the records that carry a bounding box and
    its label from the detectors through the tracker pool to the
    visualisation, together with the geometry used to anchor a label on the
    box. */
module TrackedObjects {
  import opened Wrappers
  import opened Geometry
  import opened CameraModel

  /** A detector hit: box in pixels of `frame`, label, probability. */
  datatype DetectedObject = DetectedObject(rect: Rect2d, tag: string, probability: real, frame: CameraFrame)

  /** An object followed across frames, with the camera pose and frame
      height of the frame it was last seen in. */
  datatype TrackedObject = TrackedObject(
    rect: Rect2d, tag: string, intrinsic: CameraIntrinsic, extrinsic: CameraExtrinsic, frameHeight: int)

  /** The main constructor: a zero frame height is rejected. */
  function NewTrackedObject(rect: Rect2d, tag: string, intrinsic: CameraIntrinsic,
                            extrinsic: CameraExtrinsic, frameHeight: int): (r: Result<TrackedObject, ModelError>)
    ensures r.Failure? <==> frameHeight == 0
    ensures r.Failure? ==> r.error == ArgumentOutOfRange
    ensures r.Success? ==>
      r.value.rect == rect && r.value.tag == tag && r.value.intrinsic == intrinsic &&
      r.value.extrinsic == extrinsic && r.value.frameHeight == frameHeight
  {
    if frameHeight == 0 then Failure(ArgumentOutOfRange)
    else Success(TrackedObject(rect, tag, intrinsic, extrinsic, frameHeight))
  }

  /** The copy constructor, which `Clone` calls: it too rejects a zero frame
      height, so a clone never succeeds where construction failed. */
  function CopyTrackedObject(t: TrackedObject): (r: Result<TrackedObject, ModelError>)
    ensures r.Failure? <==> t.frameHeight == 0
    ensures r.Success? ==> r.value == t
  {
    if t.frameHeight == 0 then Failure(ArgumentOutOfRange)
    else Success(TrackedObject(t.rect, t.tag, t.intrinsic, CopyExtrinsic(t.extrinsic), t.frameHeight))
  }

  /** The update constructor: a new box on a new frame, keeping the label. */
  function UpdatedTrackedObject(t: TrackedObject, rect: Rect2d, frame: CameraFrame): (r: Result<TrackedObject, ModelError>)
    ensures r.Failure? <==> frame.height == 0
    ensures r.Success? ==>
      r.value.tag == t.tag && r.value.rect == rect &&
      r.value.extrinsic == frame.extrinsic && r.value.intrinsic == frame.intrinsic &&
      r.value.frameHeight == frame.height
  {
    NewTrackedObject(rect, t.tag, frame.intrinsic, frame.extrinsic, frame.height)
  }

  /** The constructor from a detection: takes box, tag and the detection
      frame's camera data, and performs no frame-height check. */
  function FromDetection(d: DetectedObject): (t: TrackedObject)
    ensures t.rect == d.rect && t.tag == d.tag && t.frameHeight == d.frame.height
    ensures t.intrinsic == d.frame.intrinsic && t.extrinsic == d.frame.extrinsic
  {
    TrackedObject(d.rect, d.tag, d.frame.intrinsic, d.frame.extrinsic, d.frame.height)
  }

  /** Building from a detection agrees with the main constructor whenever
      the latter accepts the frame height, and succeeds where it does not. */
  lemma FromDetectionAgreesWithConstructor(d: DetectedObject)
    ensures d.frame.height != 0 ==>
      NewTrackedObject(d.rect, d.tag, d.frame.intrinsic, d.frame.extrinsic, d.frame.height)
        == Success(FromDetection(d))
  {
  }

  /** The copy of a detection: the same box, tag, probability and frame. */
  function CopyDetectedObject(d: DetectedObject): (c: DetectedObject)
    ensures c == d
  {
    DetectedObject(Rect2d(d.rect.x, d.rect.y, d.rect.width, d.rect.height), d.tag, d.probability, d.frame)
  }

  /** The vertical anchor of the tag inside the box: with the camera at
      `angle` degrees from straight down (at most 90), a fraction between
      one half and one of the height; above 90 degrees the top edge. */
  function OffsetFactor(angle: real): (f: real)
    ensures 0.0 <= angle <= 90.0 ==> 0.5 <= f <= 1.0
    ensures angle > 90.0 ==> f == 0.0
    ensures angle == 0.0 ==> f == 0.5
    ensures angle == 90.0 ==> f == 1.0
  {
    if angle <= 90.0 then 0.5 + angle / 180.0 else 0.0
  }

  /** `GetBoundingBoxTarget`: the horizontal centre of the box, at the
      offset factor of its height below the top edge.  `angle` is
      `Vector3.Angle` between the camera's forward column and down, in
      degrees. */
  function BoundingBoxTarget(t: TrackedObject, angle: real): (p: Point)
    ensures p.x == t.rect.x + t.rect.width / 2.0
    ensures p.y == t.rect.y + t.rect.height * OffsetFactor(angle)
  {
    Point(t.rect.x + t.rect.width / 2.0, t.rect.y + t.rect.height * OffsetFactor(angle))
  }

  /** For a box of non-negative height and a camera tilted at most 90
      degrees from down, the target lies in the lower half of the box and
      moves down monotonically as the camera tilts up. */
  lemma TargetInLowerHalf(t: TrackedObject, angle: real, angle2: real)
    requires t.rect.height >= 0.0
    requires 0.0 <= angle <= angle2 <= 90.0
    ensures t.rect.y + t.rect.height / 2.0 <= BoundingBoxTarget(t, angle).y <= t.rect.y + t.rect.height
    ensures BoundingBoxTarget(t, angle).y <= BoundingBoxTarget(t, angle2).y
  {
    var h, f, f2 := t.rect.height, OffsetFactor(angle), OffsetFactor(angle2);
    ScaleMonotone(h, 0.5, f);
    ScaleMonotone(h, f, 1.0);
    ScaleMonotone(h, f, f2);
  }

  lemma ScaleMonotone(h: real, a: real, b: real)
    requires h >= 0.0 && a <= b
    ensures h * a <= h * b
  {
    assert h * b - h * a == h * (b - a);
  }

  /** `Convert`: from OpenCV's top-left origin to the Cartesian bottom-left
      origin of UWP, mirroring y within the frame height. */
  function ToCartesian(t: TrackedObject, p: Point): (q: Point)
    ensures q.x == p.x && q.y + p.y == t.frameHeight as real
  {
    Point(p.x, t.frameHeight as real - p.y)
  }

  /** The mirror is an involution. */
  lemma ToCartesianInvolution(t: TrackedObject, p: Point)
    ensures ToCartesian(t, ToCartesian(t, p)) == p
  {
  }

  /** `GetCameraPosition`: the position of the tracked object's extrinsic. */
  function CameraPosition(t: TrackedObject): (v: Vector3)
    ensures v == Xyz(t.extrinsic.viewFromWorld.GetColumn(3))
  {
    t.extrinsic.Position()
  }
}
