/** The mathematics of the 5x5 Sobel pipeline shared by both filters
    (include/sobel_filter.hpp, src/sobel_filter.cpp): configuration, the two kernels,
    zero-padded convolution over a strided plane of gray bytes, gradient magnitude and
    quantization.  The methods of SobelFilter and SobelFilterSimd are proved equal to
    these functions. */
module SobelSpec {
  import opened Images

  /** A signed 16-bit gradient value (`int16_t`). */
  type int16 = x: int | -0x8000 <= x < 0x8000

  const INT16_MIN: int := -0x8000
  const INT16_MAX: int := 0x7FFF

  /** The range of the `int32_t` accumulator of the convolution. */
  predicate InInt32(v: int) {
    -0x8000_0000 <= v < 0x8000_0000
  }

  /** A signed 32-bit value: assigning a sum to one proves that the sum does not wrap. */
  type int32 = x: int | InInt32(x)

  /** `SobelConfig`; `SobelConfig()` is the default {true, 64, true}. */
  datatype SobelConfig = SobelConfig(
    useQuantization: bool := true,
    quantizationLevels: uint8 := 64,
    normalizeOutput: bool := true)

  /** Configurations for which the quantizer never divides 0 by 0: with quantization and
      normalization both on, the level count `L` is divided by itself. */
  predicate WellDefined(c: SobelConfig) {
    c.useQuantization && c.normalizeOutput ==> c.quantizationLevels >= 1
  }

  /** `SobelKernel5x5`: five rows of five integer weights. */
  type Kernel = k: seq<seq<int>> | |k| == 5 && forall r | 0 <= r < 5 :: |k[r]| == 5
    witness [[0, 0, 0, 0, 0], [0, 0, 0, 0, 0], [0, 0, 0, 0, 0], [0, 0, 0, 0, 0], [0, 0, 0, 0, 0]]

  /** `SOBEL_X_5x5`, the horizontal-gradient kernel. */
  const SOBEL_X: Kernel := [
    [-1, -2,   0,  2, 1],
    [-4, -8,   0,  8, 4],
    [-6, -12,  0, 12, 6],
    [-4, -8,   0,  8, 4],
    [-1, -2,   0,  2, 1]]

  /** `SOBEL_Y_5x5`, the vertical-gradient kernel. */
  const SOBEL_Y: Kernel := [
    [-1, -4,  -6, -4, -1],
    [-2, -8, -12, -8, -2],
    [ 0,  0,   0,  0,  0],
    [ 2,  8,  12,  8,  2],
    [ 1,  4,   6,  4,  1]]

  /** A grid of gray bytes as the convolution sees it: `width x height` logical pixels,
      row `y` starting at `y * stride`.  The grayscale image is the plane whose stride is
      its width; the aligned buffer of SobelFilterSimd is the plane whose stride is the
      padded width. */
  datatype Plane = Plane(buf: seq<uint8>, width: nat, height: nat, stride: nat)

  predicate ValidPlane(p: Plane) {
    p.width <= p.stride && |p.buf| == p.stride * p.height
  }

  /** A tap of the convolution: the stored byte inside the plane, and 0 (zero padding) at
      any coordinate outside `[0, width) x [0, height)`.  Padding columns of a strided
      plane are never read. */
  function Sample(p: Plane, x: int, y: int): (v: uint8)
    requires ValidPlane(p)
    ensures !(0 <= x < p.width && 0 <= y < p.height) ==> v == 0
    ensures 0 <= x < p.width && 0 <= y < p.height ==> y * p.stride + x < |p.buf| && v == p.buf[y * p.stride + x]
  {
    if 0 <= x < p.width && 0 <= y < p.height then
      IndexInBounds(x, y, p.stride, p.height);
      p.buf[y * p.stride + x]
    else 0
  }

  /** The first `c` products of kernel row `r` at `(x, y)`, in the order of the inner loop:
      `sum (j < c) k[r][j] * Sample(x + j - 2, y + r - 2)`. */
  function RowSum(p: Plane, k: Kernel, x: int, y: int, r: nat, c: nat): int
    requires ValidPlane(p) && r < 5 && c <= 5
  {
    if c == 0 then 0
    else RowSum(p, k, x, y, r, c - 1) + k[r][c - 1] * Sample(p, x + (c - 1) - 2, y + r - 2)
  }

  /** The complete first `r` kernel rows at `(x, y)`. */
  function WindowSum(p: Plane, k: Kernel, x: int, y: int, r: nat): int
    requires ValidPlane(p) && r <= 5
  {
    if r == 0 then 0
    else WindowSum(p, k, x, y, r - 1) + RowSum(p, k, x, y, r - 1, 5)
  }

  /** The unclamped kernel response: all 25 taps. */
  function Response(p: Plane, k: Kernel, x: int, y: int): int
    requires ValidPlane(p)
  {
    WindowSum(p, k, x, y, 5)
  }

  /** The stored gradient: the response clamped to the `int16_t` range. */
  function Gradient(p: Plane, k: Kernel, x: int, y: int): (g: int16)
    requires ValidPlane(p)
    ensures INT16_MIN <= Response(p, k, x, y) <= INT16_MAX ==> g == Response(p, k, x, y)
  {
    ClampInt(Response(p, k, x, y), INT16_MIN, INT16_MAX)
  }

  /** The gradient raster, row-major and unpadded: element `y * width + x` is the gradient
      at pixel `(x, y)`. */
  function Convolve(p: Plane, k: Kernel): (g: seq<int16>)
    requires ValidPlane(p)
    ensures |g| == p.width * p.height
    ensures forall i :: 0 <= i < |g| ==> p.width > 0 && g[i] == Gradient(p, k, i % p.width, i / p.width)
  {
    seq(p.width * p.height, i requires 0 <= i < p.width * p.height => Gradient(p, k, i % p.width, i / p.width))
  }

  /** `std::sqrt`, a library call, enters the model as a parameter; what the model needs
      of it is that it is non-negative, zero exactly at zero, and monotone. */
  ghost predicate SqrtLaws(sqrt: real -> real) {
    && (forall v :: 0.0 <= v ==> 0.0 <= sqrt(v))
    && (forall v :: 0.0 <= v ==> (sqrt(v) == 0.0 <==> v == 0.0))
    && (forall u, v :: 0.0 <= u <= v ==> sqrt(u) <= sqrt(v))
  }

  /** `sqrt(gx * gx + gy * gy)`, the products taken in double precision, which is exact
      for 16-bit operands. */
  function MagnitudeAt(gx: int16, gy: int16, sqrt: real -> real): real {
    sqrt((gx as real) * (gx as real) + (gy as real) * (gy as real))
  }

  /** The magnitude raster, element by element. */
  function Magnitudes(gx: seq<int16>, gy: seq<int16>, sqrt: real -> real): (m: seq<real>)
    requires |gx| == |gy|
    ensures |m| == |gx|
    ensures forall i :: 0 <= i < |m| ==> m[i] == MagnitudeAt(gx[i], gy[i], sqrt)
  {
    seq(|gx|, i requires 0 <= i < |gx| => MagnitudeAt(gx[i], gy[i], sqrt))
  }

  /** The degenerate-range threshold `1e-10`. */
  const RANGE_EPSILON: real := 0.0000000001

  /** `std::clamp` on reals. */
  function ClampReal(v: real, lo: real, hi: real): (c: real)
    requires lo <= hi
    ensures lo <= c <= hi
    ensures lo <= v <= hi ==> c == v
  {
    if v < lo then lo else if hi < v then hi else v
  }

  /** `static_cast<uint8_t>` of a value already clamped to [0, 255]: truncation. */
  function ToUint8(v: real): (b: uint8)
    requires 0.0 <= v <= 255.0
    ensures b as real <= v < b as real + 1.0
  {
    v.Floor
  }

  /** The smallest element (`*std::minmax_element(...).first`). */
  function SeqMin(s: seq<real>): (m: real)
    requires |s| > 0
    ensures forall i :: 0 <= i < |s| ==> m <= s[i]
  {
    if |s| == 1 then s[0]
    else
      var rest := SeqMin(s[1..]);
      if s[0] <= rest then s[0] else rest
  }

  /** The largest element (`*std::minmax_element(...).second`). */
  function SeqMax(s: seq<real>): (m: real)
    requires |s| > 0
    ensures forall i :: 0 <= i < |s| ==> s[i] <= m
  {
    if |s| == 1 then s[0]
    else
      var rest := SeqMax(s[1..]);
      if rest <= s[0] then s[0] else rest
  }

  /** The clamp-only path: saturate to [0, 255], then truncate. */
  function ClampToByte(v: real): uint8 {
    ToUint8(ClampReal(v, 0.0, 255.0))
  }

  /** One value on the min-max path before the cast: scale by `L / range`, then, when
      `normalize_output` is set, rescale by `255 / L` (in that order). */
  function Rescaled(v: real, lo: real, range: real, c: SobelConfig): real
    requires range > 0.0 && WellDefined(c) && c.useQuantization
  {
    var scale := c.quantizationLevels as real / range;
    var normalized := (v - lo) * scale;
    if c.normalizeOutput then (normalized / c.quantizationLevels as real) * 255.0 else normalized
  }

  /** One value on the min-max path: rescaled, clamped to [0, 255], truncated. */
  function NormalizeValue(v: real, lo: real, range: real, c: SobelConfig): uint8
    requires range > 0.0 && WellDefined(c) && c.useQuantization
  {
    ClampToByte(Rescaled(v, lo, range, c))
  }

  /** The clamp-only path over a whole raster. */
  function ClampAll(m: seq<real>): (q: seq<uint8>)
    ensures |q| == |m|
    ensures forall i :: 0 <= i < |m| ==> q[i] == ClampToByte(m[i])
  {
    seq(|m|, i requires 0 <= i < |m| => ClampToByte(m[i]))
  }

  /** The min-max path over a whole raster, given its minimum and range. */
  function NormalizeAll(m: seq<real>, lo: real, range: real, c: SobelConfig): (q: seq<uint8>)
    requires range > 0.0 && WellDefined(c) && c.useQuantization
    ensures |q| == |m|
    ensures forall i :: 0 <= i < |m| ==> q[i] == NormalizeValue(m[i], lo, range, c)
  {
    seq(|m|, i requires 0 <= i < |m| => NormalizeValue(m[i], lo, range, c))
  }

  /** `SobelFilter::quantize`: empty in, empty out; the clamp-only path; all zeros when the
      magnitude range is below 1e-10; otherwise min-max normalization. */
  function Quantize(m: seq<real>, c: SobelConfig): (q: seq<uint8>)
    requires WellDefined(c)
    ensures |q| == |m|
  {
    if |m| == 0 then []
    else if !c.useQuantization then ClampAll(m)
    else
      var lo := SeqMin(m);
      var range := SeqMax(m) - lo;
      if range < RANGE_EPSILON then seq(|m|, _ => 0)
      else NormalizeAll(m, lo, range, c)
  }

  /** The plane of a grayscale image: its pixel vector with stride `width`. */
  function DensePlane(pixels: seq<uint8>, width: nat, height: nat): Plane {
    Plane(pixels, width, height, width)
  }

  /** Convolve with both kernels, combine, quantize. */
  function EdgeMap(p: Plane, c: SobelConfig, sqrt: real -> real): (out: seq<uint8>)
    requires ValidPlane(p) && WellDefined(c)
    ensures |out| == p.width * p.height
  {
    Quantize(Magnitudes(Convolve(p, SOBEL_X), Convolve(p, SOBEL_Y), sqrt), c)
  }

  /** Per-pixel grayscale conversion of an RGB pixel vector. */
  function GrayOf(rgb: seq<RGBPixel>): (g: seq<uint8>)
    ensures |g| == |rgb|
    ensures forall i :: 0 <= i < |g| ==> g[i] == ToGrayscale(rgb[i])
  {
    seq(|rgb|, i requires 0 <= i < |rgb| => ToGrayscale(rgb[i]))
  }
}
