/** The HoloLens locatable camera: the frame reader's configured size
    (width padded to a multiple of 64 for the shaders), the pixel buffer
    sized for the colour format, and the frame counter that numbers every
    delivered frame. */
module LocatableCameraModel {
  import opened Wrappers
  import opened CSharpInt
  import opened CameraModel

  /** `PadTo64`: the width rounded up to a multiple of 64, computed as
      `((w >> 6) + 1) << 6` on a 32-bit `int`. */
  function PadTo64(w: int): (r: int)
    requires IsInt32(w)
    ensures IsInt32(r)
    ensures w % 64 == 0 ==> r == w
    ensures w <= Int32Max - 63 ==> r % 64 == 0 && w <= r < w + 64
    ensures w <= Int32Max - 63 ==> (r == w <==> w % 64 == 0)
  {
    if w % 64 == 0 then w
    else
      var q := ShiftRightInt32(w, 6);
      assert q * 64 <= w < (q + 1) * 64;
      var p := ShiftLeftInt32(q + 1, 6);
      assert w <= Int32Max - 63 ==> IsInt32((q + 1) * 64);
      p
  }

  /** Padding is idempotent on every width it does not overflow. */
  lemma PadTo64Idempotent(w: int)
    requires IsInt32(w) && w <= Int32Max - 63
    ensures PadTo64(PadTo64(w)) == PadTo64(w)
  {
  }

  /** Widths in the last 63 below `int.MaxValue` that are not multiples of
      64 overflow: the padded width wraps to `int.MinValue`. */
  lemma PadTo64Overflows(w: int)
    requires Int32Max - 63 < w <= Int32Max && w % 64 != 0
    ensures PadTo64(w) == Int32Min
  {
    assert ShiftRightInt32(w, 6) == 0x1FF_FFFF;
  }

  /** The rows and columns of the single-channel buffer frames are copied into. */
  datatype Bitmap = Bitmap(rows: int, cols: int)

  /** The rows an NV12 buffer needs: the luminance plane alone for
      grayscale, plus the half-height chrominance plane otherwise. */
  function BitmapRows(frameHeight: int, format: ColorFormat): (rows: int)
    requires IsInt32(frameHeight)
    ensures format == Grayscale ==> rows == frameHeight
    ensures format != Grayscale && 0 <= frameHeight <= 0x2AAA_AAAA ==>
      2 * rows <= 3 * frameHeight < 2 * rows + 2
  {
    if format == Grayscale then frameHeight
    else TruncatingDiv(WrapInt32(frameHeight * 3), 2)
  }

  class LocatableCamera {
    var frameCount: int
    var frameHeight: int
    var frameWidth: int
    var hasFrameReader: bool
    var bitmap: Option<Bitmap>
    const format: ColorFormat

    ghost predicate Valid()
      reads this
    {
      IsInt32(frameCount) && IsInt32(frameHeight) && IsInt32(frameWidth)
    }

    constructor(format: ColorFormat)
      ensures Valid()
      ensures this.format == format && frameCount == 0
      ensures frameWidth == 0 && frameHeight == 0
      ensures !hasFrameReader && bitmap == None
    {
      this.format := format;
      frameCount := 0;
      frameHeight := 0;
      frameWidth := 0;
      hasFrameReader := false;
      bitmap := None;
    }

    /** `CreateFrameReader`.  `selected` is the video format the device
        chose for the profile (width and height as unsigned values), or
        `None` when selecting it or creating the reader failed.  Any
        exception makes the method return false; `Convert.ToInt32` throws
        after the reader has been created when a size exceeds `int`. */
    method CreateFrameReader(selected: Option<(nat, nat)>) returns (ok: bool)
      requires Valid()
      modifies this
      ensures Valid()
      ensures selected.None? ==> !ok && unchanged(this)
      ensures selected.Some? ==> hasFrameReader && bitmap == old(bitmap) && frameCount == old(frameCount)
      ensures ok <==> selected.Some? && selected.value.0 <= Int32Max && selected.value.1 <= Int32Max
      ensures ok ==> frameWidth == PadTo64(selected.value.0) && frameHeight == selected.value.1
      ensures ok ==> frameWidth % 64 == 0 || selected.value.0 > Int32Max - 63
    {
      if selected.None? {
        return false;
      }
      hasFrameReader := true;
      var (width, height) := selected.value;
      if width > Int32Max {
        return false;
      }
      frameWidth := width;
      if height > Int32Max {
        return false;
      }
      frameHeight := height;
      frameWidth := PadTo64(frameWidth);
      return true;
    }

    /** `InitializeBitmap`: throws unless the frame reader exists. */
    method InitializeBitmap() returns (r: Result<Bitmap, ModelError>)
      requires Valid()
      modifies this
      ensures Valid()
      ensures !hasFrameReader ==> r == Failure(InvalidOperation) && unchanged(this)
      ensures hasFrameReader ==>
        (r.Success? && r.value == Bitmap(BitmapRows(frameHeight, format), frameWidth) &&
         bitmap == Some(r.value))
      ensures frameCount == old(frameCount) && frameWidth == old(frameWidth)
      ensures frameHeight == old(frameHeight) && hasFrameReader == old(hasFrameReader)
    {
      if !hasFrameReader {
        return Failure(InvalidOperation);
      }
      var height := BitmapRows(frameHeight, format);
      var b := Bitmap(height, frameWidth);
      bitmap := Some(b);
      return Success(b);
    }

    /** `OnFrameArrived`: `image` is the acquired frame's pixel buffer, or
        `None` when no frame or no image came with the event, which ends the
        handler quietly.  Copying an image into a buffer that was never
        created is rejected by `MatUtils.copyToMat` (`ArgumentNull`).
        Otherwise the frame carries the configured size and the next value
        of the counter, cast to `uint`. */
    method OnFrameArrived(image: Option<nat>, intrinsic: CameraIntrinsic, extrinsic: CameraExtrinsic)
      returns (frame: Result<Option<CameraFrame>, ModelError>)
      requires Valid()
      modifies this
      ensures Valid()
      ensures image.None? ==> frame == Success(None) && unchanged(this)
      ensures image.Some? && bitmap.None? ==> frame == Failure(ArgumentNull) && unchanged(this)
      ensures image.Some? && bitmap.Some? ==>
        frameCount == IncrementInt32(old(frameCount)) &&
        frame == Success(Some(CameraFrame(image.value, intrinsic, extrinsic, frameWidth, frameHeight,
                                          ToUInt32(frameCount), format)))
      ensures frameWidth == old(frameWidth) && frameHeight == old(frameHeight)
      ensures bitmap == old(bitmap) && hasFrameReader == old(hasFrameReader)
    {
      if image.None? {
        return Success(None);
      }
      if bitmap.None? {
        return Failure(ArgumentNull);
      }
      frameCount := IncrementInt32(frameCount);
      frame := Success(Some(CameraFrame(image.value, intrinsic, extrinsic, frameWidth, frameHeight,
                                          ToUInt32(frameCount), format)));
    }
  }

  /** Starting from zero, the n-th delivered frame carries sequence number n
      for as long as the `int` counter has not wrapped. */
  lemma FrameNumbersCount(count: int)
    requires 0 <= count < Int32Max
    ensures ToUInt32(IncrementInt32(count)) == count + 1
  {
  }
}
