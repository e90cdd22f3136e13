/** The capture modes of the HoloLens 2 locatable camera: the profile
    enumeration, the width, height and frame rate each profile selects,
    and the mode each profile's own name announces. */
module CameraParameters {

  /** `LocatableCameraProfile`, in declaration order. */
  datatype LocatableCameraProfile =
    | HL2_424x240_15
    | HL2_424x240_30
    | HL2_500x282_15
    | HL2_500x282_30
    | HL2_640x360_15
    | HL2_640x360_30
    | HL2_760x428_15
    | HL2_760x428_30
    | HL2_896x504_15
    | HL2_896x504_30
    | HL2_960x540_15
    | HL2_960x540_30
    | HL2_1128x636_15
    | HL2_1128x636_30
    | HL2_1280x720_15
    | HL2_1280x720_30
    | HL2_1504x846_5
    | HL2_1504x846_10
    | HL2_1504x846_15
    | HL2_1504x846_30
    | HL2_1504x846_60
    | HL2_1920x1080_15
    | HL2_1920x1080_30
    | HL2_1952x1100_15
    | HL2_1952x1100_30
    | HL2_1952x1100_60
    | HL2_2272x1278_15
    | HL2_2272x1278_30

  datatype Mode = Mode(width: int, height: int, frameRate: real)

  /** The mode a profile's name announces: `HL2_<width>x<height>_<fps>`. */
  function NamedMode(p: LocatableCameraProfile): Mode {
    match p
    case HL2_424x240_15 => Mode(424, 240, 15.0)
    case HL2_424x240_30 => Mode(424, 240, 30.0)
    case HL2_500x282_15 => Mode(500, 282, 15.0)
    case HL2_500x282_30 => Mode(500, 282, 30.0)
    case HL2_640x360_15 => Mode(640, 360, 15.0)
    case HL2_640x360_30 => Mode(640, 360, 30.0)
    case HL2_760x428_15 => Mode(760, 428, 15.0)
    case HL2_760x428_30 => Mode(760, 428, 30.0)
    case HL2_896x504_15 => Mode(896, 504, 15.0)
    case HL2_896x504_30 => Mode(896, 504, 30.0)
    case HL2_960x540_15 => Mode(960, 540, 15.0)
    case HL2_960x540_30 => Mode(960, 540, 30.0)
    case HL2_1128x636_15 => Mode(1128, 636, 15.0)
    case HL2_1128x636_30 => Mode(1128, 636, 30.0)
    case HL2_1280x720_15 => Mode(1280, 720, 15.0)
    case HL2_1280x720_30 => Mode(1280, 720, 30.0)
    case HL2_1504x846_5 => Mode(1504, 846, 5.0)
    case HL2_1504x846_10 => Mode(1504, 846, 10.0)
    case HL2_1504x846_15 => Mode(1504, 846, 15.0)
    case HL2_1504x846_30 => Mode(1504, 846, 30.0)
    case HL2_1504x846_60 => Mode(1504, 846, 60.0)
    case HL2_1920x1080_15 => Mode(1920, 1080, 15.0)
    case HL2_1920x1080_30 => Mode(1920, 1080, 30.0)
    case HL2_1952x1100_15 => Mode(1952, 1100, 15.0)
    case HL2_1952x1100_30 => Mode(1952, 1100, 30.0)
    case HL2_1952x1100_60 => Mode(1952, 1100, 60.0)
    case HL2_2272x1278_15 => Mode(2272, 1278, 15.0)
    case HL2_2272x1278_30 => Mode(2272, 1278, 30.0)
  }

  /** `new CameraParameters(profile)`, the switch exactly as written: one
      profile, `HL2_1504x846_10`, is given a frame rate of 5. */
  function Parameters(p: LocatableCameraProfile): (m: Mode)
    ensures p != HL2_1504x846_10 ==> m == NamedMode(p)
    ensures p == HL2_1504x846_10 ==> m.frameRate == 5.0 != NamedMode(p).frameRate
    ensures m.width > m.height > 0 && m.frameRate > 0.0
  {
    match p
    case HL2_424x240_15 => Mode(424, 240, 15.0)
    case HL2_424x240_30 => Mode(424, 240, 30.0)
    case HL2_500x282_15 => Mode(500, 282, 15.0)
    case HL2_500x282_30 => Mode(500, 282, 30.0)
    case HL2_640x360_15 => Mode(640, 360, 15.0)
    case HL2_640x360_30 => Mode(640, 360, 30.0)
    case HL2_760x428_15 => Mode(760, 428, 15.0)
    case HL2_760x428_30 => Mode(760, 428, 30.0)
    case HL2_960x540_15 => Mode(960, 540, 15.0)
    case HL2_960x540_30 => Mode(960, 540, 30.0)
    case HL2_1128x636_15 => Mode(1128, 636, 15.0)
    case HL2_1128x636_30 => Mode(1128, 636, 30.0)
    case HL2_1280x720_15 => Mode(1280, 720, 15.0)
    case HL2_1280x720_30 => Mode(1280, 720, 30.0)
    case HL2_1504x846_5 => Mode(1504, 846, 5.0)
    case HL2_1504x846_10 => Mode(1504, 846, 5.0)
    case HL2_1504x846_15 => Mode(1504, 846, 15.0)
    case HL2_1504x846_30 => Mode(1504, 846, 30.0)
    case HL2_1504x846_60 => Mode(1504, 846, 60.0)
    case HL2_1920x1080_15 => Mode(1920, 1080, 15.0)
    case HL2_1920x1080_30 => Mode(1920, 1080, 30.0)
    case HL2_1952x1100_15 => Mode(1952, 1100, 15.0)
    case HL2_1952x1100_30 => Mode(1952, 1100, 30.0)
    case HL2_1952x1100_60 => Mode(1952, 1100, 60.0)
    case HL2_896x504_15 => Mode(896, 504, 15.0)
    case HL2_896x504_30 => Mode(896, 504, 30.0)
    case HL2_2272x1278_15 => Mode(2272, 1278, 15.0)
    case HL2_2272x1278_30 => Mode(2272, 1278, 30.0)
  }

  /** The table as evidently intended: every profile selects the mode its
      name announces. */
  function CorrectedParameters(p: LocatableCameraProfile): (m: Mode)
    ensures m == NamedMode(p)
  {
    if p == HL2_1504x846_10 then Mode(1504, 846, 10.0) else Parameters(p)
  }

  /** As written, two distinct profiles select the same mode, so the 10 fps
      profile cannot be reached. */
  lemma TenFpsProfileCollapses()
    ensures Parameters(HL2_1504x846_10) == Parameters(HL2_1504x846_5)
    ensures forall p :: Parameters(p).frameRate != 10.0
  {
    forall p ensures Parameters(p).frameRate != 10.0 {
    }
  }

  /** With the correction, distinct profiles select distinct modes. */
  lemma CorrectedParametersInjective(p: LocatableCameraProfile, q: LocatableCameraProfile)
    requires p != q
    ensures CorrectedParameters(p) != CorrectedParameters(q)
  {
  }
}
