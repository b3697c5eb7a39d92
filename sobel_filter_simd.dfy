/** The buffer-managed variant `SobelFilterSIMD` (include/sobel_filter_simd.hpp,
    src/sobel_filter_simd.cpp): one cached, zero-filled grayscale buffer whose rows are
    padded to a multiple of 32 bytes, written by the gray conversion and read by a
    zero-padded 5x5 convolution.  Every "SSE" and "AVX2" path forwards to the scalar one. */
module SobelSimd {
  import opened Images
  import opened SobelSpec
  import opened SobelProperties
  import SobelReference

  /** `SobelFilterSIMD::OptimizationLevel`. */
  datatype OptimizationLevel = SCALAR | SSE | AVX2 | AUTO

  /** `sub` occurs in `s` starting at index `i`. */
  predicate OccursAt(s: string, sub: string, i: nat) {
    i + |sub| <= |s| && s[i..i + |sub|] == sub
  }

  ghost predicate Contains(s: string, sub: string) {
    exists i: nat :: OccursAt(s, sub, i)
  }

  /** `std::string::npos`. */
  const NPOS: int := -1

  /** `s.find(sub, from)`: the first position at or after `from` where `sub` occurs, or
      `NPOS` when there is none. */
  function Find(s: string, sub: string, from: nat := 0): (r: int)
    decreases |s| - from
    ensures r == NPOS || (from <= r && OccursAt(s, sub, r))
    ensures r == NPOS <==> forall i: nat :: from <= i ==> !OccursAt(s, sub, i)
    ensures r != NPOS ==> forall i: nat :: from <= i < r ==> !OccursAt(s, sub, i)
  {
    if from + |sub| > |s| then NPOS
    else if s[from..from + |sub|] == sub then from
    else Find(s, sub, from + 1)
  }

  /** The level a constructor stores: a concrete level is kept; `AUTO` becomes `AVX2` when
      the capability string mentions "AVX2", else `SSE` when it mentions "SSE4.1", else
      `SCALAR`. */
  function ResolveLevel(level: OptimizationLevel, caps: string): (r: OptimizationLevel)
    ensures r != AUTO
    ensures level != AUTO ==> r == level
    ensures level == AUTO ==> (r == AVX2 <==> Contains(caps, "AVX2"))
    ensures level == AUTO ==> (r == SSE <==> !Contains(caps, "AVX2") && Contains(caps, "SSE4.1"))
    ensures level == AUTO ==> (r == SCALAR <==> !Contains(caps, "AVX2") && !Contains(caps, "SSE4.1"))
  {
    if level != AUTO then level
    else if Find(caps, "AVX2") != NPOS then AVX2
    else if Find(caps, "SSE4.1") != NPOS then SSE
    else SCALAR
  }

  /** A pattern whose first character never occurs in `s` is not found. */
  lemma NotFoundWithoutFirstChar(s: string, sub: string)
    requires |sub| > 0 && forall i :: 0 <= i < |s| ==> s[i] != sub[0]
    ensures Find(s, sub) == NPOS
  {
    forall i: nat
      ensures !OccursAt(s, sub, i)
    {
      if i + |sub| <= |s| {
        assert s[i..i + |sub|][0] == s[i];
      }
    }
  }

  /** Off MSVC the capability string is "Unknown ", so `AUTO` runs the scalar code. */
  lemma ResolveWithoutCpuid()
    ensures ResolveLevel(AUTO, "Unknown ") == SCALAR
  {
    NotFoundWithoutFirstChar("Unknown ", "AVX2");
    NotFoundWithoutFirstChar("Unknown ", "SSE4.1");
  }

  /** A CPU reporting every feature `getCPUCapabilities` tests for gets `AVX2`. */
  lemma ResolveWithAvx2()
    ensures ResolveLevel(AUTO, "SSE SSE2 SSE3 SSE4.1 SSE4.2 AVX AVX2 ") == AVX2
  {
    assert OccursAt("SSE SSE2 SSE3 SSE4.1 SSE4.2 AVX AVX2 ", "AVX2", 32);
  }

  /** `(width + 31) & ~31`: the row stride of the buffer. */
  function PadTo32(width: nat): (padded: nat)
    ensures padded % 32 == 0 && width <= padded < width + 32
  {
    (width + 31) / 32 * 32
  }

  /** The padded width is the least multiple of 32 not below the width. */
  lemma PadTo32IsLeast(width: nat, m: nat)
    requires m % 32 == 0 && width <= m
    ensures PadTo32(width) <= m
  {
    var q := (width + 31) / 32;
    assert m / 32 * 32 == m;
    assert q <= m / 32;
  }

  /** On 64-bit `size_t`, clearing the low five bits rounds down to a multiple of 32. */
  lemma MaskIsRoundDown(v: bv64)
    ensures v & !(31 as bv64) == (v / 32) * 32
  {
  }

  /** The kernel tables `kx` and `ky` local to `sobel5x5Scalar`. */
  const KX_TABLE: Kernel := [
    [-1, -2,   0,  2, 1],
    [-4, -8,   0,  8, 4],
    [-6, -12,  0, 12, 6],
    [-4, -8,   0,  8, 4],
    [-1, -2,   0,  2, 1]]

  const KY_TABLE: Kernel := [
    [-1, -4,  -6, -4, -1],
    [-2, -8, -12, -8, -2],
    [ 0,  0,   0,  0,  0],
    [ 2,  8,  12,  8,  2],
    [ 1,  4,   6,  4,  1]]

  /** The variant's kernels are the reference kernels. */
  lemma KernelTablesAreBaseline()
    ensures KX_TABLE == SOBEL_X && KY_TABLE == SOBEL_Y
  {
  }

  /** Every padding byte (column `x` in `[width, stride)`) of a strided buffer is 0. */
  ghost predicate PaddingZero(buf: seq<uint8>, width: nat, height: nat, stride: nat) {
    && width <= stride && |buf| == stride * height
    && forall i :: 0 <= i < |buf| && width <= i % stride ==> buf[i] == 0
  }

  /** Byte `i` of the padded gray buffer of an RGB raster. */
  function PaddedByte(rgb: seq<RGBPixel>, width: nat, height: nat, stride: nat, i: nat): uint8
    requires |rgb| == width * height && width <= stride && i < stride * height
  {
    IndexToCoordinates(i, stride, height);
    if i % stride < width then
      IndexInBounds(i % stride, i / stride, width, height);
      ToGrayscale(rgb[(i / stride) * width + i % stride])
    else 0
  }

  /** The buffer after `convertRGBToGrayscaleScalar`: row `y` at `y * stride` holds the gray
      values of the input row, and the padding columns are 0. */
  function PaddedGray(rgb: seq<RGBPixel>, width: nat, height: nat, stride: nat): (buf: seq<uint8>)
    requires |rgb| == width * height && width <= stride
    ensures |buf| == stride * height
    ensures forall i :: 0 <= i < |buf| ==> buf[i] == PaddedByte(rgb, width, height, stride, i)
  {
    seq(stride * height, i requires 0 <= i < stride * height => PaddedByte(rgb, width, height, stride, i))
  }

  /** A logical byte of the padded buffer is the gray value of its pixel. */
  lemma PaddedGrayAt(rgb: seq<RGBPixel>, width: nat, height: nat, stride: nat, x: nat, y: nat)
    requires |rgb| == width * height && width <= stride && x < width && y < height
    ensures y * stride + x < stride * height && y * width + x < width * height
    ensures PaddedGray(rgb, width, height, stride)[y * stride + x] == ToGrayscale(rgb[y * width + x])
  {
    IndexInBounds(x, y, stride, height);
    IndexInBounds(x, y, width, height);
    CoordinatesToIndex(x, y, stride);
  }

  /** A padding byte of the padded buffer is 0. */
  lemma PaddedGrayPadding(rgb: seq<RGBPixel>, width: nat, height: nat, stride: nat, x: nat, y: nat)
    requires |rgb| == width * height && width <= x < stride && y < height
    ensures y * stride + x < stride * height
    ensures PaddedGray(rgb, width, height, stride)[y * stride + x] == 0
  {
    IndexInBounds(x, y, stride, height);
    CoordinatesToIndex(x, y, stride);
  }

  /** The padding of the converted buffer is zero: the invariant `apply` keeps. */
  lemma PaddedGrayHasZeroPadding(rgb: seq<RGBPixel>, width: nat, height: nat, stride: nat)
    requires |rgb| == width * height && width <= stride
    ensures PaddingZero(PaddedGray(rgb, width, height, stride), width, height, stride)
  {
  }

  /** The padded plane and the dense grayscale plane agree on every tap, in range or not. */
  lemma {:induction false} PaddedPlaneSamples(rgb: seq<RGBPixel>, width: nat, height: nat, stride: nat)
    requires |rgb| == width * height && width <= stride
    ensures ValidPlane(Plane(PaddedGray(rgb, width, height, stride), width, height, stride))
    ensures ValidPlane(DensePlane(GrayOf(rgb), width, height))
    ensures forall sx, sy ::
      Sample(Plane(PaddedGray(rgb, width, height, stride), width, height, stride), sx, sy)
        == Sample(DensePlane(GrayOf(rgb), width, height), sx, sy)
  {
    var padded := Plane(PaddedGray(rgb, width, height, stride), width, height, stride);
    var dense := DensePlane(GrayOf(rgb), width, height);
    forall sx, sy
      ensures Sample(padded, sx, sy) == Sample(dense, sx, sy)
    {
      if 0 <= sx < width && 0 <= sy < height {
        PaddedGrayAt(rgb, width, height, stride, sx, sy);
      }
    }
  }

  /** The refinement theorem: the edge map of the padded buffer is the edge map of the
      reference pipeline's grayscale image. */
  lemma PaddedEdgeMapIsReference(rgb: seq<RGBPixel>, width: nat, height: nat, stride: nat,
                                 c: SobelConfig, sqrt: real -> real)
    requires |rgb| == width * height && width <= stride && WellDefined(c)
    ensures ValidPlane(Plane(PaddedGray(rgb, width, height, stride), width, height, stride))
    ensures ValidPlane(DensePlane(GrayOf(rgb), width, height))
    ensures EdgeMap(Plane(PaddedGray(rgb, width, height, stride), width, height, stride), c, sqrt)
         == EdgeMap(DensePlane(GrayOf(rgb), width, height), c, sqrt)
  {
    PaddedPlaneSamples(rgb, width, height, stride);
    EdgeMapOnlySamples(Plane(PaddedGray(rgb, width, height, stride), width, height, stride),
                       DensePlane(GrayOf(rgb), width, height), c, sqrt);
  }

  class SobelFilterSimd {
    var config: SobelConfig
    var level: OptimizationLevel
    var grayBuffer: array?<uint8>
    var bufferWidth: nat
    var bufferHeight: nat
    var paddedWidth: nat

    /** The class invariant: the level is resolved; before the first `apply` there is no
        buffer and all three dimensions are 0; afterwards the buffer has `paddedWidth`
        bytes per row for `bufferHeight` rows, `paddedWidth` is `bufferWidth` rounded up
        to 32, and every padding byte is 0. */
    ghost predicate Valid()
      reads this, grayBuffer
    {
      && level != AUTO
      && (grayBuffer == null ==> bufferWidth == 0 && bufferHeight == 0 && paddedWidth == 0)
      && (grayBuffer != null ==>
            paddedWidth == PadTo32(bufferWidth)
            && PaddingZero(grayBuffer[..], bufferWidth, bufferHeight, paddedWidth))
    }

    /** `SobelFilterSIMD(level)`: the default configuration; an `AUTO` level is resolved
        against `caps`, the string `getCPUCapabilities()` returns. */
    constructor (caps: string, level: OptimizationLevel := AUTO)
      ensures Valid()
      ensures config == SobelConfig() && this.level == ResolveLevel(level, caps)
      ensures grayBuffer == null && bufferWidth == 0 && bufferHeight == 0 && paddedWidth == 0
    {
      config := SobelConfig();
      this.level := ResolveLevel(level, caps);
      grayBuffer := null;
      bufferWidth, bufferHeight, paddedWidth := 0, 0, 0;
    }

    /** `SobelFilterSIMD(config, level)`. */
    constructor WithConfig(config: SobelConfig, caps: string, level: OptimizationLevel := AUTO)
      ensures Valid()
      ensures this.config == config && this.level == ResolveLevel(level, caps)
      ensures grayBuffer == null && bufferWidth == 0 && bufferHeight == 0 && paddedWidth == 0
    {
      this.config := config;
      this.level := ResolveLevel(level, caps);
      grayBuffer := null;
      bufferWidth, bufferHeight, paddedWidth := 0, 0, 0;
    }

    /** `setConfig(config)`: replaces the configuration and nothing else. */
    method SetConfig(config: SobelConfig)
      requires Valid()
      modifies this`config
      ensures Valid() && this.config == config
    {
      this.config := config;
    }

    /** `ensureBuffers(width, height)`: nothing happens when the dimensions are the
        recorded ones and a buffer exists; otherwise the dimensions are recorded and a new
        buffer of `paddedWidth * height` bytes is allocated and zero-filled. */
    method EnsureBuffers(width: nat, height: nat)
      requires Valid()
      modifies this`grayBuffer, this`bufferWidth, this`bufferHeight, this`paddedWidth
      ensures Valid() && grayBuffer != null
      ensures bufferWidth == width && bufferHeight == height && paddedWidth == PadTo32(width)
      ensures grayBuffer.Length == paddedWidth * height
      ensures old(width == bufferWidth && height == bufferHeight && grayBuffer != null) ==>
        grayBuffer == old(grayBuffer) && grayBuffer[..] == old(grayBuffer[..])
      ensures !old(width == bufferWidth && height == bufferHeight && grayBuffer != null) ==>
        fresh(grayBuffer) && grayBuffer[..] == seq(paddedWidth * height, _ => 0)
    {
      if width == bufferWidth && height == bufferHeight && grayBuffer != null {
        return;
      }
      bufferWidth := width;
      bufferHeight := height;
      paddedWidth := PadTo32(width);
      grayBuffer := ZeroedBuffer(paddedWidth * height);
    }

    /** `alignedAlloc(bytes, 32)` followed by `memset(buffer, 0, bytes)`; the allocation is
        taken to succeed. */
    static method ZeroedBuffer(bytes: nat) returns (buffer: array<uint8>)
      ensures fresh(buffer) && buffer[..] == seq(bytes, _ => 0)
    {
      buffer := new uint8[bytes];
      var i := 0;
      while i < bytes
        invariant 0 <= i <= bytes
        invariant forall j :: 0 <= j < i ==> buffer[j] == 0
      {
        buffer[i] := 0;
        i := i + 1;
      }
      assert buffer[..] == seq(bytes, _ => 0);
    }

    /** One row of `convertRGBToGrayscaleScalar`: pixel `x < width` of row `y` is written
        at `rowOffset + x`; the row's padding and every other row are left alone. */
    method ConvertRow(input: RGBImage, y: nat, rowOffset: nat, ghost target: seq<uint8>, ghost before: seq<uint8>)
      requires Valid() && grayBuffer != null && input.Valid()
      requires input.width == bufferWidth && input.height == bufferHeight && y < bufferHeight
      requires rowOffset == y * paddedWidth
      requires target == PaddedGray(input.data, bufferWidth, bufferHeight, paddedWidth)
      requires |before| == grayBuffer.Length
      requires forall i :: 0 <= i < grayBuffer.Length ==> grayBuffer[i] == if i < rowOffset then target[i] else before[i]
      modifies grayBuffer
      ensures forall i :: 0 <= i < grayBuffer.Length ==>
        grayBuffer[i] == if i < rowOffset + bufferWidth then target[i] else before[i]
    {
      var x := 0;
      while x < bufferWidth
        invariant 0 <= x <= bufferWidth
        invariant forall i :: 0 <= i < grayBuffer.Length ==>
          grayBuffer[i] == if i < rowOffset + x then target[i] else before[i]
      {
        var p := input.At(x, y);
        PaddedGrayAt(input.data, bufferWidth, bufferHeight, paddedWidth, x, y);
        grayBuffer[rowOffset + x] := ToGrayscale(p.value);
        x := x + 1;
      }
    }

    /** `convertRGBToGrayscaleScalar(input)`: every logical byte of the buffer becomes the
        gray value (the formula of `RGBPixel::toGrayscale`) of its pixel; the padding bytes,
        0 by the invariant, are not written. */
    method ConvertRGBToGrayscaleScalar(input: RGBImage)
      requires Valid() && grayBuffer != null && input.Valid()
      requires input.width == bufferWidth && input.height == bufferHeight
      modifies grayBuffer
      ensures Valid()
      ensures grayBuffer[..] == PaddedGray(input.data, bufferWidth, bufferHeight, paddedWidth)
    {
      var w, h := bufferWidth, bufferHeight;
      ghost var target := PaddedGray(input.data, w, h, paddedWidth);
      ghost var before := grayBuffer[..];
      var y := 0;
      while y < h
        invariant 0 <= y <= h
        invariant forall i :: 0 <= i < grayBuffer.Length ==>
          grayBuffer[i] == if i < y * paddedWidth then target[i] else before[i]
      {
        var rowOffsetDst := y * paddedWidth;
        ConvertRow(input, y, rowOffsetDst, target, before);
        assert rowOffsetDst + paddedWidth == (y + 1) * paddedWidth;
        MultiplyMonotone(y + 1, h, paddedWidth);
        forall i | rowOffsetDst + w <= i < rowOffsetDst + paddedWidth
          ensures before[i] == target[i]
        {
          PaddedGrayPadding(input.data, w, h, paddedWidth, i - rowOffsetDst, y);
          CoordinatesToIndex(i - rowOffsetDst, y, paddedWidth);
        }
        y := y + 1;
      }
      assert grayBuffer[..] == target;
      PaddedGrayHasZeroPadding(input.data, w, h, paddedWidth);
    }

    /** `convertRGBToGrayscaleSSE`: forwards to the scalar conversion. */
    method ConvertRGBToGrayscaleSse(input: RGBImage)
      requires Valid() && grayBuffer != null && input.Valid()
      requires input.width == bufferWidth && input.height == bufferHeight
      modifies grayBuffer
      ensures Valid()
      ensures grayBuffer[..] == PaddedGray(input.data, bufferWidth, bufferHeight, paddedWidth)
    {
      ConvertRGBToGrayscaleScalar(input);
    }

    /** `convertRGBToGrayscaleAVX2`: forwards to the scalar conversion. */
    method ConvertRGBToGrayscaleAvx2(input: RGBImage)
      requires Valid() && grayBuffer != null && input.Valid()
      requires input.width == bufferWidth && input.height == bufferHeight
      modifies grayBuffer
      ensures Valid()
      ensures grayBuffer[..] == PaddedGray(input.data, bufferWidth, bufferHeight, paddedWidth)
    {
      ConvertRGBToGrayscaleScalar(input);
    }

    /** One tap of `sobel5x5Scalar`: the buffer byte at `srcY * stride + srcX` when the
        tap lies inside the `width x height` image, and 0 (zero padding) otherwise. */
    static method ReadTap(gray: array<uint8>, width: nat, height: nat, stride: nat, srcX: int, srcY: int)
      returns (pixel: uint8)
      requires ValidPlane(Plane(gray[..], width, height, stride))
      ensures pixel == Sample(Plane(gray[..], width, height, stride), srcX, srcY)
    {
      pixel := 0;
      if srcY >= 0 && srcY < height && srcX >= 0 && srcX < width {
        IndexInBounds(srcX, srcY, stride, height);
        pixel := gray[srcY * stride + srcX];
      }
    }

    /** The inner loop of `sobel5x5Scalar` for kernel row `j + 2` at `(x, y)`: five taps,
        each the buffer byte at `src_y * stride + src_x` when the tap is inside the
        `width x height` image and 0 otherwise, added to both 32-bit sums. */
    static method AccumulateRowPair(gray: array<uint8>, width: nat, height: nat, stride: nat,
                                    kx: Kernel, ky: Kernel, x: nat, y: nat, j: int, gxSum0: int32, gySum0: int32)
      returns (gxSum: int32, gySum: int32)
      requires ValidPlane(Plane(gray[..], width, height, stride)) && -2 <= j <= 2
      requires FitsAccumulator(kx) && FitsAccumulator(ky)
      requires gxSum0 == WindowSum(Plane(gray[..], width, height, stride), kx, x, y, j + 2)
      requires gySum0 == WindowSum(Plane(gray[..], width, height, stride), ky, x, y, j + 2)
      ensures gxSum == WindowSum(Plane(gray[..], width, height, stride), kx, x, y, j + 3)
      ensures gySum == WindowSum(Plane(gray[..], width, height, stride), ky, x, y, j + 3)
    {
      ghost var plane := Plane(gray[..], width, height, stride);
      gxSum, gySum := gxSum0, gySum0;
      var i := -2;
      while i <= 2
        invariant -2 <= i <= 3
        invariant gxSum == WindowSum(plane, kx, x, y, j + 2) + RowSum(plane, kx, x, y, j + 2, i + 2)
        invariant gySum == WindowSum(plane, ky, x, y, j + 2) + RowSum(plane, ky, x, y, j + 2, i + 2)
      {
        var pixel := ReadTap(gray, width, height, stride, x + i, y + j);
        SobelReference.TapStep(plane, kx, x, y, i, j, gxSum, pixel);
        SobelReference.TapStep(plane, ky, x, y, i, j, gySum, pixel);
        gxSum := gxSum + pixel * kx[j + 2][i + 2];
        gySum := gySum + pixel * ky[j + 2][i + 2];
        i := i + 1;
      }
    }

    /** The body of the gradient loop for one pixel: both 25-tap sums, each clamped to
        `int16_t`. */
    static method GradientPair(gray: array<uint8>, width: nat, height: nat, stride: nat,
                               kx: Kernel, ky: Kernel, x: nat, y: nat)
      returns (gxValue: int16, gyValue: int16)
      requires ValidPlane(Plane(gray[..], width, height, stride))
      requires FitsAccumulator(kx) && FitsAccumulator(ky)
      ensures gxValue == Gradient(Plane(gray[..], width, height, stride), kx, x, y)
      ensures gyValue == Gradient(Plane(gray[..], width, height, stride), ky, x, y)
    {
      var gxSum: int32, gySum: int32 := 0, 0;
      var j := -2;
      while j <= 2
        invariant -2 <= j <= 3
        invariant gxSum == WindowSum(Plane(gray[..], width, height, stride), kx, x, y, j + 2)
        invariant gySum == WindowSum(Plane(gray[..], width, height, stride), ky, x, y, j + 2)
      {
        gxSum, gySum := AccumulateRowPair(gray, width, height, stride, kx, ky, x, y, j, gxSum, gySum);
        j := j + 1;
      }
      gxValue := ClampInt(gxSum, INT16_MIN, INT16_MAX);
      gyValue := ClampInt(gySum, INT16_MIN, INT16_MAX);
    }

    /** The gradient loops of `sobel5x5Scalar`: both gradients of pixel `(x, y)` stored at
        `y * width + x` of two unpadded vectors. */
    static method Gradients(gray: array<uint8>, width: nat, height: nat, stride: nat, kx: Kernel, ky: Kernel)
      returns (gx: seq<int16>, gy: seq<int16>)
      requires ValidPlane(Plane(gray[..], width, height, stride))
      requires FitsAccumulator(kx) && FitsAccumulator(ky)
      ensures gx == SobelSpec.Convolve(Plane(gray[..], width, height, stride), kx)
      ensures gy == SobelSpec.Convolve(Plane(gray[..], width, height, stride), ky)
    {
      ghost var plane := Plane(gray[..], width, height, stride);
      ghost var specX, specY := SobelSpec.Convolve(plane, kx), SobelSpec.Convolve(plane, ky);
      gx, gy := seq(width * height, _ => 0), seq(width * height, _ => 0);
      ghost var k := 0;
      var y := 0;
      while y < height
        invariant 0 <= y <= height && k == y * width && k <= width * height
        invariant |gx| == |gy| == width * height
        invariant forall i :: 0 <= i < k ==> gx[i] == specX[i] && gy[i] == specY[i]
      {
        var x := 0;
        while x < width
          invariant 0 <= x <= width && k == y * width + x && k <= width * height
          invariant |gx| == |gy| == width * height
          invariant forall i :: 0 <= i < k ==> gx[i] == specX[i] && gy[i] == specY[i]
        {
          var gxValue, gyValue := GradientPair(gray, width, height, stride, kx, ky, x, y);
          IndexInBounds(x, y, width, height);
          CoordinatesToIndex(x, y, width);
          assert specX[k] == gxValue && specY[k] == gyValue;
          var idx := y * width + x;
          gx, gy := gx[idx := gxValue], gy[idx := gyValue];
          x, k := x + 1, k + 1;
        }
        assert k == (y + 1) * width;
        y := y + 1;
      }
      assert k == width * height;
    }

    /** The magnitude loop of `sobel5x5Scalar`: `sqrt(gx[i]^2 + gy[i]^2)` for every index. */
    static method GradientMagnitudes(gx: seq<int16>, gy: seq<int16>, sqrt: real -> real)
      returns (magnitudes: seq<real>)
      requires |gx| == |gy|
      ensures magnitudes == Magnitudes(gx, gy, sqrt)
    {
      magnitudes := seq(|gx|, _ => 0.0);
      var i := 0;
      while i < |gx|
        invariant 0 <= i <= |gx|
        invariant |magnitudes| == |gx|
        invariant forall j :: 0 <= j < i ==> magnitudes[j] == MagnitudeAt(gx[j], gy[j], sqrt)
      {
        var magnitude := sqrt((gx[i] as real) * (gx[i] as real) + (gy[i] as real) * (gy[i] as real));
        assert magnitude == MagnitudeAt(gx[i], gy[i], sqrt);
        magnitudes := magnitudes[i := magnitude];
        i := i + 1;
      }
    }

    /** `quantizeWithConfig(magnitudes)`: the same three paths as `SobelFilter::quantize`,
        hence the same function of the magnitudes and the configuration. */
    method QuantizeWithConfig(magnitudes: seq<real>) returns (result: seq<uint8>)
      requires WellDefined(config)
      ensures result == SobelSpec.Quantize(magnitudes, config)
    {
      if |magnitudes| == 0 {
        return [];
      }
      result := seq(|magnitudes|, _ => 0);
      if !config.useQuantization {
        var i := 0;
        while i < |magnitudes|
          invariant 0 <= i <= |magnitudes|
          invariant |result| == |magnitudes|
          invariant forall j :: 0 <= j < i ==> result[j] == ClampToByte(magnitudes[j])
        {
          result := result[i := ToUint8(ClampReal(magnitudes[i], 0.0, 255.0))];
          i := i + 1;
        }
        assert result == ClampAll(magnitudes);
        return;
      }
      var minMag, maxMag := SeqMin(magnitudes), SeqMax(magnitudes);
      var range := maxMag - minMag;
      if range < RANGE_EPSILON {
        assert result == seq(|magnitudes|, _ => 0);
        return;
      }
      var scale := config.quantizationLevels as real / range;
      var i := 0;
      while i < |magnitudes|
        invariant 0 <= i <= |magnitudes|
        invariant |result| == |magnitudes|
        invariant forall j :: 0 <= j < i ==> result[j] == NormalizeValue(magnitudes[j], minMag, range, config)
      {
        var b := SobelReference.SobelFilter.NormalizePixel(magnitudes[i], minMag, range, scale, config);
        result := result[i := b];
        i := i + 1;
      }
      assert result == NormalizeAll(magnitudes, minMag, range, config);
    }

    /** The copy loop of `sobel5x5Scalar`: `out.at(x, y) = quantized[y * width + x]` for
        every pixel, row by row. */
    static method CopyRaster(out: GrayscaleImage, quantized: seq<uint8>)
      requires out.Valid() && |quantized| == out.width * out.height
      modifies out`data
      ensures out.Valid() && out.data == quantized
    {
      var w, h := out.width, out.height;
      ghost var k := 0;
      var y := 0;
      while y < h
        invariant 0 <= y <= h && k == y * w && k <= w * h
        invariant out.Valid() && out.width == w && out.height == h
        invariant forall i :: 0 <= i < k ==> out.data[i] == quantized[i]
      {
        var x := 0;
        while x < w
          invariant 0 <= x <= w && k == y * w + x && k <= w * h
          invariant out.Valid() && out.width == w && out.height == h
          invariant forall i :: 0 <= i < k ==> out.data[i] == quantized[i]
        {
          IndexInBounds(x, y, w, h);
          var ok := out.SetPixel(x, y, quantized[y * w + x]);
          x, k := x + 1, k + 1;
        }
        assert k == (y + 1) * w;
        y := y + 1;
      }
      assert k == w * h;
      assert out.data == quantized;
    }

    /** `sobel5x5Scalar(gray, out)`: `out` is resized to the buffer's dimensions, failing
        with `InvalidDimensions` (and unchanged) when one is 0; otherwise it holds the edge
        map of the padded plane of `gray`. */
    method Sobel5x5Scalar(gray: array<uint8>, out: GrayscaleImage, sqrt: real -> real) returns (r: Outcome)
      requires ValidPlane(Plane(gray[..], bufferWidth, bufferHeight, paddedWidth))
      requires out.Valid() && WellDefined(config)
      modifies out
      ensures r == if bufferWidth > 0 && bufferHeight > 0 then Pass else Fail(InvalidDimensions)
      ensures out.Valid()
      ensures r.Pass? ==> out.width == bufferWidth && out.height == bufferHeight
      ensures r.Pass? ==> out.data == EdgeMap(Plane(gray[..], bufferWidth, bufferHeight, paddedWidth), config, sqrt)
      ensures r.Fail? ==> out.width == old(out.width) && out.height == old(out.height) && out.data == old(out.data)
    {
      r := out.Resize(bufferWidth, bufferHeight);
      if r.Fail? {
        return;
      }
      var quantized := EdgeMapOfBuffer(gray, sqrt);
      CopyRaster(out, quantized);
    }

    /** The middle of `sobel5x5Scalar`: both gradients with the local kernel tables, their
        magnitudes, and `quantizeWithConfig`. */
    method EdgeMapOfBuffer(gray: array<uint8>, sqrt: real -> real) returns (quantized: seq<uint8>)
      requires ValidPlane(Plane(gray[..], bufferWidth, bufferHeight, paddedWidth)) && WellDefined(config)
      ensures quantized == EdgeMap(Plane(gray[..], bufferWidth, bufferHeight, paddedWidth), config, sqrt)
    {
      KernelTablesAreBaseline();
      SobelKernelsFit();
      var gx, gy := Gradients(gray, bufferWidth, bufferHeight, paddedWidth, KX_TABLE, KY_TABLE);
      var magnitudes := GradientMagnitudes(gx, gy, sqrt);
      quantized := QuantizeWithConfig(magnitudes);
    }

    /** `sobel5x5SSE`: forwards to the scalar convolution. */
    method Sobel5x5Sse(gray: array<uint8>, out: GrayscaleImage, sqrt: real -> real) returns (r: Outcome)
      requires ValidPlane(Plane(gray[..], bufferWidth, bufferHeight, paddedWidth))
      requires out.Valid() && WellDefined(config)
      modifies out
      ensures r == if bufferWidth > 0 && bufferHeight > 0 then Pass else Fail(InvalidDimensions)
      ensures out.Valid()
      ensures r.Pass? ==> out.width == bufferWidth && out.height == bufferHeight
      ensures r.Pass? ==> out.data == EdgeMap(Plane(gray[..], bufferWidth, bufferHeight, paddedWidth), config, sqrt)
      ensures r.Fail? ==> out.width == old(out.width) && out.height == old(out.height) && out.data == old(out.data)
    {
      r := Sobel5x5Scalar(gray, out, sqrt);
    }

    /** `sobel5x5AVX2`: forwards to the scalar convolution. */
    method Sobel5x5Avx2(gray: array<uint8>, out: GrayscaleImage, sqrt: real -> real) returns (r: Outcome)
      requires ValidPlane(Plane(gray[..], bufferWidth, bufferHeight, paddedWidth))
      requires out.Valid() && WellDefined(config)
      modifies out
      ensures r == if bufferWidth > 0 && bufferHeight > 0 then Pass else Fail(InvalidDimensions)
      ensures out.Valid()
      ensures r.Pass? ==> out.width == bufferWidth && out.height == bufferHeight
      ensures r.Pass? ==> out.data == EdgeMap(Plane(gray[..], bufferWidth, bufferHeight, paddedWidth), config, sqrt)
      ensures r.Fail? ==> out.width == old(out.width) && out.height == old(out.height) && out.data == old(out.data)
    {
      r := Sobel5x5Scalar(gray, out, sqrt);
    }

    /** `apply(input, output)`: the buffer is made ready, filled by the conversion of the
        chosen level and convolved by the convolution of the chosen level.  At every level
        a non-empty input yields exactly the reference edge map of `SobelFilter(config)`,
        and the padding stays zero for the next call; a 0 x 0 input fails at
        `out.resize(0, 0)`, leaving `output` as it was. */
    method Apply(input: RGBImage, output: GrayscaleImage, sqrt: real -> real) returns (r: Outcome)
      requires Valid() && input.Valid() && output.Valid() && WellDefined(config)
      modifies this, grayBuffer, output
      ensures Valid() && grayBuffer != null
      ensures config == old(config) && level == old(level)
      ensures bufferWidth == input.width && bufferHeight == input.height && paddedWidth == PadTo32(input.width)
      ensures grayBuffer[..] == PaddedGray(input.data, bufferWidth, bufferHeight, paddedWidth)
      ensures old(grayBuffer != null && input.width == bufferWidth && input.height == bufferHeight) ==>
        grayBuffer == old(grayBuffer)
      ensures !old(grayBuffer != null && input.width == bufferWidth && input.height == bufferHeight) ==>
        fresh(grayBuffer)
      ensures r == if input.IsEmpty() then Fail(InvalidDimensions) else Pass
      ensures output.Valid()
      ensures r.Pass? ==> output.width == input.width && output.height == input.height
      ensures r.Pass? ==> output.data == EdgeMap(DensePlane(GrayOf(input.data), input.width, input.height), config, sqrt)
      ensures r.Fail? ==> output.width == old(output.width) && output.height == old(output.height)
                          && output.data == old(output.data)
    {
      EnsureBuffers(input.width, input.height);
      ConvertAtLevel(input);
      PaddedEdgeMapIsReference(input.data, bufferWidth, bufferHeight, paddedWidth, config, sqrt);
      r := ConvolveAtLevel(grayBuffer, output, sqrt);
    }

    /** The first switch of `apply`: the conversion of the stored level. */
    method ConvertAtLevel(input: RGBImage)
      requires Valid() && grayBuffer != null && input.Valid()
      requires input.width == bufferWidth && input.height == bufferHeight
      modifies grayBuffer
      ensures Valid()
      ensures grayBuffer[..] == PaddedGray(input.data, bufferWidth, bufferHeight, paddedWidth)
    {
      if level == AVX2 {
        ConvertRGBToGrayscaleAvx2(input);
      } else if level == SSE {
        ConvertRGBToGrayscaleSse(input);
      } else {
        ConvertRGBToGrayscaleScalar(input);
      }
    }

    /** The second switch of `apply`: the convolution of the stored level. */
    method ConvolveAtLevel(gray: array<uint8>, out: GrayscaleImage, sqrt: real -> real) returns (r: Outcome)
      requires ValidPlane(Plane(gray[..], bufferWidth, bufferHeight, paddedWidth))
      requires out.Valid() && WellDefined(config)
      modifies out
      ensures r == if bufferWidth > 0 && bufferHeight > 0 then Pass else Fail(InvalidDimensions)
      ensures out.Valid()
      ensures r.Pass? ==> out.width == bufferWidth && out.height == bufferHeight
      ensures r.Pass? ==> out.data == EdgeMap(Plane(gray[..], bufferWidth, bufferHeight, paddedWidth), config, sqrt)
      ensures r.Fail? ==> out.width == old(out.width) && out.height == old(out.height) && out.data == old(out.data)
    {
      if level == AVX2 {
        r := Sobel5x5Avx2(gray, out, sqrt);
      } else if level == SSE {
        r := Sobel5x5Sse(gray, out, sqrt);
      } else {
        r := Sobel5x5Scalar(gray, out, sqrt);
      }
    }
  }
}
