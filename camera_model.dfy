/** The camera's description of a frame: intrinsic parameters (kept as
    data only), the extrinsic view-from-world matrix with its derived
    right/up/forward/position vectors, and the `CameraFrame` record that
    flows from the camera through detection and tracking. */
module CameraModel {
  import opened Wrappers
  import opened Geometry

  /** Lens parameters; the model carries them through unchanged. */
  datatype CameraIntrinsic = CameraIntrinsic(
    focalLength: Vector2, principalPoint: Vector2, imageWidth: nat, imageHeight: nat)

  /** The camera pose: the view-from-world matrix in Unity's convention. */
  datatype CameraExtrinsic = CameraExtrinsic(viewFromWorld: Matrix4x4)
  {
    /** The right vector: column 0. */
    function Right(): (v: Vector4)
      ensures v == Vector4(viewFromWorld.m00, viewFromWorld.m10, viewFromWorld.m20, viewFromWorld.m30)
    {
      viewFromWorld.GetColumn(0)
    }

    /** The upwards vector: column 1. */
    function Upwards(): (v: Vector4)
      ensures v == Vector4(viewFromWorld.m01, viewFromWorld.m11, viewFromWorld.m21, viewFromWorld.m31)
    {
      viewFromWorld.GetColumn(1)
    }

    /** The forward vector: column 2. */
    function Forward(): (v: Vector4)
      ensures v == Vector4(viewFromWorld.m02, viewFromWorld.m12, viewFromWorld.m22, viewFromWorld.m32)
    {
      viewFromWorld.GetColumn(2)
    }

    /** The camera position: the first three entries of column 3. */
    function Position(): (p: Vector3)
      ensures p == Vector3(viewFromWorld.m03, viewFromWorld.m13, viewFromWorld.m23)
    {
      Xyz(viewFromWorld.GetColumn(3))
    }
  }

  /** The copy constructor. */
  function CopyExtrinsic(e: CameraExtrinsic): (c: CameraExtrinsic)
    ensures c.Position() == e.Position() && c.Forward() == e.Forward()
    ensures c.Right() == e.Right() && c.Upwards() == e.Upwards()
  {
    CameraExtrinsic(e.viewFromWorld)
  }

  /** The constructor used on the device: the camera-to-world transform the
      perception API reports, converted to Unity's handedness, or the
      identity when the API cannot relate the two coordinate systems. */
  function ExtrinsicFromTransform(transform: Option<NumericsMatrix4x4>): (e: CameraExtrinsic)
    ensures transform.None? ==> e.viewFromWorld == Identity
    ensures transform.Some? ==> MatrixToSystem(e.viewFromWorld) == transform.value
  {
    match transform
    case None => CameraExtrinsic(Identity)
    case Some(m) => CameraExtrinsic(MatrixToUnity(m))
  }

  /** The camera position of a device pose is the perception transform's
      translation mirrored along z; without a pose it is the origin. */
  lemma PositionOfTransform(transform: Option<NumericsMatrix4x4>)
    ensures transform.Some? ==>
      ExtrinsicFromTransform(transform).Position() == Vector3ToUnity(Translation(transform.value))
    ensures transform.None? ==>
      ExtrinsicFromTransform(transform).Position() == Vector3(0.0, 0.0, 0.0)
  {
    if transform.Some? {
      MatrixToUnityTranslation(transform.value);
    }
  }

  datatype ColorFormat = Grayscale | RGB | Unknown

  /** One captured frame.  `image` names the pixel buffer, which the model
      does not look into; `frameCount` is the `uint` sequence number. */
  datatype CameraFrame = CameraFrame(
    image: nat,
    intrinsic: CameraIntrinsic,
    extrinsic: CameraExtrinsic,
    width: int,
    height: int,
    frameCount: nat,
    format: ColorFormat)
}
