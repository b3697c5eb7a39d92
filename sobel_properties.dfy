/** What the pipeline functions of SobelSpec guarantee: the shape of the kernels, the
    range of the convolution sums, zero padding, magnitude and quantizer properties. */
module SobelProperties {
  import opened Images
  import opened SobelSpec

  function Abs(v: int): nat {
    if v < 0 then -v else v
  }

  /** Sum of the absolute weights of the first `c` entries of kernel row `r`. */
  function AbsRow(k: Kernel, r: nat, c: nat): nat
    requires r < 5 && c <= 5
  {
    if c == 0 then 0 else AbsRow(k, r, c - 1) + Abs(k[r][c - 1])
  }

  /** Sum of the absolute weights of the first `r` kernel rows. */
  function AbsWindow(k: Kernel, r: nat): nat
    requires r <= 5
  {
    if r == 0 then 0 else AbsWindow(k, r - 1) + AbsRow(k, r - 1, 5)
  }

  /** The largest magnitude a response can reach per unit of pixel value. */
  function AbsWeight(k: Kernel): nat {
    AbsWindow(k, 5)
  }

  /** Kernels whose every partial sum over 8-bit pixels fits the `int32_t` accumulator. */
  predicate FitsAccumulator(k: Kernel) {
    255 * AbsWeight(k) < 0x8000_0000
  }

  // ---------------------------------------------------------------------------
  // The kernels

  /** The vertical kernel is the transpose of the horizontal one. */
  lemma KernelYIsTransposeOfX()
    ensures forall r, c :: 0 <= r < 5 && 0 <= c < 5 ==> SOBEL_Y[r][c] == SOBEL_X[c][r]
  {
  }

  /** Column `4 - c` of the horizontal kernel negates column `c`, so its middle column is
      zero and every row sums to zero; dually every column of the vertical kernel sums to
      zero. */
  lemma KernelXAntisymmetric()
    ensures forall r, c :: 0 <= r < 5 && 0 <= c < 5 ==> SOBEL_X[r][4 - c] == -SOBEL_X[r][c]
    ensures forall r :: 0 <= r < 5 ==> SOBEL_X[r][0] + SOBEL_X[r][1] + SOBEL_X[r][2] + SOBEL_X[r][3] + SOBEL_X[r][4] == 0
    ensures forall c :: 0 <= c < 5 ==> SOBEL_Y[0][c] + SOBEL_Y[1][c] + SOBEL_Y[2][c] + SOBEL_Y[3][c] + SOBEL_Y[4][c] == 0
  {
  }

  /** Each Sobel kernel has absolute weight 96, so 255 times it fits 32 bits easily. */
  lemma {:induction false} KernelXAbsWeight()
    ensures AbsWeight(SOBEL_X) == 96 && FitsAccumulator(SOBEL_X)
  {
    assert AbsRow(SOBEL_X, 0, 5) == 6 && AbsRow(SOBEL_X, 1, 5) == 24 && AbsRow(SOBEL_X, 2, 5) == 36;
    assert AbsRow(SOBEL_X, 3, 5) == 24 && AbsRow(SOBEL_X, 4, 5) == 6;
  }

  lemma {:induction false} KernelYAbsWeight()
    ensures AbsWeight(SOBEL_Y) == 96 && FitsAccumulator(SOBEL_Y)
  {
    assert AbsRow(SOBEL_Y, 0, 5) == 16 && AbsRow(SOBEL_Y, 1, 5) == 32 && AbsRow(SOBEL_Y, 2, 5) == 0;
    assert AbsRow(SOBEL_Y, 3, 5) == 32 && AbsRow(SOBEL_Y, 4, 5) == 16;
  }

  /** Both Sobel kernels satisfy the accumulator bound. */
  lemma SobelKernelsFit()
    ensures FitsAccumulator(SOBEL_X) && FitsAccumulator(SOBEL_Y)
  {
    KernelXAbsWeight();
    KernelYAbsWeight();
  }

  // ---------------------------------------------------------------------------
  // Range of the convolution sums

  lemma {:induction false} RowSumBound(p: Plane, k: Kernel, x: int, y: int, r: nat, c: nat)
    requires ValidPlane(p) && r < 5 && c <= 5
    ensures -255 * AbsRow(k, r, c) <= RowSum(p, k, x, y, r, c) <= 255 * AbsRow(k, r, c)
  {
    if c > 0 {
      RowSumBound(p, k, x, y, r, c - 1);
      var a, v := k[r][c - 1], Sample(p, x + (c - 1) - 2, y + r - 2);
      assert -255 * Abs(a) <= a * v <= 255 * Abs(a) by {
        if a >= 0 {
          MultiplyMonotone(v, 255, a);
        } else {
          MultiplyMonotone(v, 255, -a);
        }
      }
    }
  }

  lemma {:induction false} WindowSumBound(p: Plane, k: Kernel, x: int, y: int, r: nat)
    requires ValidPlane(p) && r <= 5
    ensures -255 * AbsWindow(k, r) <= WindowSum(p, k, x, y, r) <= 255 * AbsWindow(k, r)
  {
    if r > 0 {
      WindowSumBound(p, k, x, y, r - 1);
      RowSumBound(p, k, x, y, r - 1, 5);
    }
  }

  lemma {:induction false} AbsRowGrows(k: Kernel, r: nat, c: nat)
    requires r < 5 && c <= 5
    ensures AbsRow(k, r, c) <= AbsRow(k, r, 5)
    decreases 5 - c
  {
    if c < 5 {
      AbsRowGrows(k, r, c + 1);
    }
  }

  lemma {:induction false} AbsWindowGrows(k: Kernel, r: nat)
    requires r <= 5
    ensures AbsWindow(k, r) <= AbsWeight(k)
    decreases 5 - r
  {
    if r < 5 {
      AbsWindowGrows(k, r + 1);
    }
  }

  /** The convolution response is bounded by 255 times the kernel's absolute weight. */
  lemma ResponseBound(p: Plane, k: Kernel, x: int, y: int)
    requires ValidPlane(p)
    ensures -255 * AbsWeight(k) <= Response(p, k, x, y) <= 255 * AbsWeight(k)
  {
    WindowSumBound(p, k, x, y, 5);
  }

  /** Every partial sum of the convolution loops, after row `r`'s first `c` taps, fits the
      32-bit accumulator: the `int32_t` sum never wraps. */
  lemma AccumulatorFits(p: Plane, k: Kernel, x: int, y: int, r: nat, c: nat)
    requires ValidPlane(p) && FitsAccumulator(k) && r < 5 && c <= 5
    ensures InInt32(WindowSum(p, k, x, y, r) + RowSum(p, k, x, y, r, c))
  {
    WindowSumBound(p, k, x, y, r);
    RowSumBound(p, k, x, y, r, c);
    AbsRowGrows(k, r, c);
    AbsWindowGrows(k, r + 1);
  }

  /** With the horizontal kernel the clamp to `int16_t` never changes a value: responses
      stay within +-24480 (255 * 96). */
  lemma ClampNeverFiresX(p: Plane, x: int, y: int)
    requires ValidPlane(p)
    ensures -24480 <= Response(p, SOBEL_X, x, y) <= 24480
    ensures Gradient(p, SOBEL_X, x, y) == Response(p, SOBEL_X, x, y)
  {
    KernelXAbsWeight();
    ResponseBound(p, SOBEL_X, x, y);
  }

  /** The same for the vertical kernel. */
  lemma ClampNeverFiresY(p: Plane, x: int, y: int)
    requires ValidPlane(p)
    ensures -24480 <= Response(p, SOBEL_Y, x, y) <= 24480
    ensures Gradient(p, SOBEL_Y, x, y) == Response(p, SOBEL_Y, x, y)
  {
    KernelYAbsWeight();
    ResponseBound(p, SOBEL_Y, x, y);
  }

  // ---------------------------------------------------------------------------
  // Zero padding and locality

  /** A row of the window written out tap by tap. */
  lemma RowSumExpanded(p: Plane, k: Kernel, x: int, y: int, r: nat)
    requires ValidPlane(p) && r < 5
    ensures RowSum(p, k, x, y, r, 5) ==
      k[r][0] * Sample(p, x - 2, y + r - 2) + k[r][1] * Sample(p, x - 1, y + r - 2) +
      k[r][2] * Sample(p, x, y + r - 2) + k[r][3] * Sample(p, x + 1, y + r - 2) +
      k[r][4] * Sample(p, x + 2, y + r - 2)
  {
    assert RowSum(p, k, x, y, r, 1) == k[r][0] * Sample(p, x - 2, y + r - 2);
    assert RowSum(p, k, x, y, r, 2) == RowSum(p, k, x, y, r, 1) + k[r][1] * Sample(p, x - 1, y + r - 2);
    assert RowSum(p, k, x, y, r, 3) == RowSum(p, k, x, y, r, 2) + k[r][2] * Sample(p, x, y + r - 2);
    assert RowSum(p, k, x, y, r, 4) == RowSum(p, k, x, y, r, 3) + k[r][3] * Sample(p, x + 1, y + r - 2);
  }

  /** The response as the sum of its five rows. */
  lemma ResponseByRows(p: Plane, k: Kernel, x: int, y: int)
    requires ValidPlane(p)
    ensures Response(p, k, x, y) ==
      RowSum(p, k, x, y, 0, 5) + RowSum(p, k, x, y, 1, 5) + RowSum(p, k, x, y, 2, 5) +
      RowSum(p, k, x, y, 3, 5) + RowSum(p, k, x, y, 4, 5)
  {
    assert WindowSum(p, k, x, y, 1) == RowSum(p, k, x, y, 0, 5);
    assert WindowSum(p, k, x, y, 2) == WindowSum(p, k, x, y, 1) + RowSum(p, k, x, y, 1, 5);
    assert WindowSum(p, k, x, y, 3) == WindowSum(p, k, x, y, 2) + RowSum(p, k, x, y, 2, 5);
    assert WindowSum(p, k, x, y, 4) == WindowSum(p, k, x, y, 3) + RowSum(p, k, x, y, 3, 5);
  }

  /** Two planes that sample alike at every coordinate, whatever their strides and
      padding, have the same row sums. */
  lemma {:induction false} RowSumOnlySamples(p: Plane, q: Plane, k: Kernel, x: int, y: int, r: nat, c: nat)
    requires ValidPlane(p) && ValidPlane(q) && r < 5 && c <= 5
    requires forall sx, sy :: Sample(p, sx, sy) == Sample(q, sx, sy)
    ensures RowSum(p, k, x, y, r, c) == RowSum(q, k, x, y, r, c)
  {
    if c > 0 {
      RowSumOnlySamples(p, q, k, x, y, r, c - 1);
    }
  }

  lemma {:induction false} WindowSumOnlySamples(p: Plane, q: Plane, k: Kernel, x: int, y: int, r: nat)
    requires ValidPlane(p) && ValidPlane(q) && r <= 5
    requires forall sx, sy :: Sample(p, sx, sy) == Sample(q, sx, sy)
    ensures WindowSum(p, k, x, y, r) == WindowSum(q, k, x, y, r)
  {
    if r > 0 {
      WindowSumOnlySamples(p, q, k, x, y, r - 1);
      RowSumOnlySamples(p, q, k, x, y, r - 1, 5);
    }
  }

  /** The convolution depends on a plane only through its samples: two planes of the same
      dimensions that sample alike convolve alike. */
  lemma ConvolveOnlySamples(p: Plane, q: Plane, k: Kernel)
    requires ValidPlane(p) && ValidPlane(q)
    requires p.width == q.width && p.height == q.height
    requires forall sx, sy :: Sample(p, sx, sy) == Sample(q, sx, sy)
    ensures Convolve(p, k) == Convolve(q, k)
  {
    forall i | 0 <= i < p.width * p.height
      ensures Convolve(p, k)[i] == Convolve(q, k)[i]
    {
      WindowSumOnlySamples(p, q, k, i % p.width, i / p.width, 5);
    }
  }

  /** The whole edge map depends on a plane only through its samples. */
  lemma EdgeMapOnlySamples(p: Plane, q: Plane, c: SobelConfig, sqrt: real -> real)
    requires ValidPlane(p) && ValidPlane(q) && WellDefined(c)
    requires p.width == q.width && p.height == q.height
    requires forall sx, sy :: Sample(p, sx, sy) == Sample(q, sx, sy)
    ensures EdgeMap(p, c, sqrt) == EdgeMap(q, c, sqrt)
  {
    ConvolveOnlySamples(p, q, SOBEL_X);
    ConvolveOnlySamples(p, q, SOBEL_Y);
  }

  /** Every pixel of the plane holds `v`. */
  ghost predicate Uniform(p: Plane, v: uint8)
    requires ValidPlane(p)
  {
    forall x, y :: 0 <= x < p.width && 0 <= y < p.height ==> Sample(p, x, y) == v
  }

  /** On a uniform image the five taps of a window row agree when their columns all lie
      inside the image: the value of the image if the row does, 0 (padding) if not. */
  lemma FlatRow(p: Plane, v: uint8, x: int, y: int, r: nat)
    requires ValidPlane(p) && Uniform(p, v) && r < 5
    requires 2 <= x && x + 2 < p.width
    ensures Sample(p, x - 2, y + r - 2) == Sample(p, x, y + r - 2)
    ensures Sample(p, x - 1, y + r - 2) == Sample(p, x, y + r - 2)
    ensures Sample(p, x + 1, y + r - 2) == Sample(p, x, y + r - 2)
    ensures Sample(p, x + 2, y + r - 2) == Sample(p, x, y + r - 2)
  {
  }

  /** On a uniform image the five taps of a window column agree when their rows all lie
      inside the image. */
  lemma FlatColumn(p: Plane, v: uint8, x: int, y: int)
    requires ValidPlane(p) && Uniform(p, v)
    requires 2 <= y && y + 2 < p.height
    ensures Sample(p, x, y - 2) == Sample(p, x, y)
    ensures Sample(p, x, y - 1) == Sample(p, x, y)
    ensures Sample(p, x, y + 1) == Sample(p, x, y)
    ensures Sample(p, x, y + 2) == Sample(p, x, y)
  {
  }

  /** One row of the horizontal kernel over five equal taps sums to zero. */
  lemma FlatRowX(p: Plane, v: uint8, x: int, y: int, r: nat)
    requires ValidPlane(p) && Uniform(p, v) && r < 5
    requires 2 <= x && x + 2 < p.width
    ensures RowSum(p, SOBEL_X, x, y, r, 5) == 0
  {
    RowSumExpanded(p, SOBEL_X, x, y, r);
    FlatRow(p, v, x, y, r);
    var s := Sample(p, x, y + r - 2);
    assert SOBEL_X[r][0] * s + SOBEL_X[r][1] * s + SOBEL_X[r][2] * s + SOBEL_X[r][3] * s + SOBEL_X[r][4] * s == 0 by {
      if r == 0 {} else if r == 1 {} else if r == 2 {} else if r == 3 {} else {}
    }
  }

  /** On a uniform image the horizontal gradient vanishes wherever all five columns of
      the window lie inside the image, whatever the row. */
  lemma UniformInteriorGx(p: Plane, v: uint8, x: int, y: int)
    requires ValidPlane(p) && Uniform(p, v)
    requires 2 <= x && x + 2 < p.width
    ensures Response(p, SOBEL_X, x, y) == 0
  {
    ResponseByRows(p, SOBEL_X, x, y);
    FlatRowX(p, v, x, y, 0);
    FlatRowX(p, v, x, y, 1);
    FlatRowX(p, v, x, y, 2);
    FlatRowX(p, v, x, y, 3);
    FlatRowX(p, v, x, y, 4);
  }

  /** Window row `ty` weighted by (1, 4, 6, 4, 1): every row of the vertical kernel is a
      multiple of it. */
  function BinomialRow(p: Plane, x: int, ty: int): int
    requires ValidPlane(p)
  {
    Sample(p, x - 2, ty) + 4 * Sample(p, x - 1, ty) + 6 * Sample(p, x, ty) + 4 * Sample(p, x + 1, ty) + Sample(p, x + 2, ty)
  }

  lemma OuterRowsY(p: Plane, x: int, y: int)
    requires ValidPlane(p)
    ensures RowSum(p, SOBEL_Y, x, y, 0, 5) == -BinomialRow(p, x, y - 2)
    ensures RowSum(p, SOBEL_Y, x, y, 4, 5) == BinomialRow(p, x, y + 2)
  {
    RowSumExpanded(p, SOBEL_Y, x, y, 0);
    RowSumExpanded(p, SOBEL_Y, x, y, 4);
  }

  lemma InnerRowsY(p: Plane, x: int, y: int)
    requires ValidPlane(p)
    ensures RowSum(p, SOBEL_Y, x, y, 1, 5) == -2 * BinomialRow(p, x, y - 1)
    ensures RowSum(p, SOBEL_Y, x, y, 2, 5) == 0
    ensures RowSum(p, SOBEL_Y, x, y, 3, 5) == 2 * BinomialRow(p, x, y + 1)
  {
    RowSumExpanded(p, SOBEL_Y, x, y, 1);
    RowSumExpanded(p, SOBEL_Y, x, y, 2);
    RowSumExpanded(p, SOBEL_Y, x, y, 3);
  }

  /** On a uniform image the vertical gradient vanishes wherever all five rows of the
      window lie inside the image, whatever the column. */
  lemma UniformInteriorGy(p: Plane, v: uint8, x: int, y: int)
    requires ValidPlane(p) && Uniform(p, v)
    requires 2 <= y && y + 2 < p.height
    ensures Response(p, SOBEL_Y, x, y) == 0
  {
    ResponseByRows(p, SOBEL_Y, x, y);
    OuterRowsY(p, x, y);
    InnerRowsY(p, x, y);
    FlatColumn(p, v, x - 2, y);
    FlatColumn(p, v, x - 1, y);
    FlatColumn(p, v, x, y);
    FlatColumn(p, v, x + 1, y);
    FlatColumn(p, v, x + 2, y);
  }

  // ---------------------------------------------------------------------------
  // Magnitude

  /** The magnitude is never negative, and it is zero exactly when both gradients are. */
  lemma MagnitudeZeroIff(gx: int16, gy: int16, sqrt: real -> real)
    requires SqrtLaws(sqrt)
    ensures MagnitudeAt(gx, gy, sqrt) >= 0.0
    ensures MagnitudeAt(gx, gy, sqrt) == 0.0 <==> gx == 0 && gy == 0
  {
    var sx, sy := (gx as real) * (gx as real), (gy as real) * (gy as real);
    assert sx >= 0.0 && sy >= 0.0;
    assert gx != 0 ==> sx > 0.0;
    assert gy != 0 ==> sy > 0.0;
  }

  /** A stronger gradient never has a smaller magnitude. */
  lemma MagnitudeMonotone(gx: int16, gy: int16, hx: int16, hy: int16, sqrt: real -> real)
    requires SqrtLaws(sqrt)
    requires gx * gx + gy * gy <= hx * hx + hy * hy
    ensures MagnitudeAt(gx, gy, sqrt) <= MagnitudeAt(hx, hy, sqrt)
  {
    var u := (gx as real) * (gx as real) + (gy as real) * (gy as real);
    var v := (hx as real) * (hx as real) + (hy as real) * (hy as real);
    assert u == (gx * gx + gy * gy) as real;
    assert v == (hx * hx + hy * hy) as real;
    assert 0.0 <= u;
  }

  // ---------------------------------------------------------------------------
  // Quantizer

  /** Real multiplication and division steps of the quantizer lemmas below, each proved in
      a context of its own, where nonlinear real arithmetic is cheap for the solver. */
  lemma ScaleMonotone(a: real, b: real, s: real)
    requires a <= b && 0.0 <= s
    ensures a * s <= b * s
  {
  }

  lemma DivideMonotone(a: real, b: real, d: real)
    requires a <= b && d > 0.0
    ensures a / d <= b / d
  {
  }

  lemma MulDivCancel(a: real, levels: real, range: real)
    requires levels > 0.0 && range > 0.0
    ensures (a * (levels / range)) / levels == a / range
  {
    var u, w := levels / range, a / range;
    assert range * u == levels;
    assert range * w == a;
    assert a * u == w * levels;
  }

  /** The minimum and maximum of a raster are elements of it. */
  lemma {:induction false} SeqMinMaxAttained(s: seq<real>)
    requires |s| > 0
    ensures SeqMin(s) in s && SeqMax(s) in s
  {
    if |s| > 1 {
      SeqMinMaxAttained(s[1..]);
      assert s[1..] <= s || s == [s[0]] + s[1..];
    }
  }

  /** Element `i` of the quantizer's output on the clamp-only path. */
  lemma QuantizeClampAt(m: seq<real>, c: SobelConfig, i: nat)
    requires WellDefined(c) && !c.useQuantization && i < |m|
    ensures Quantize(m, c)[i] == ClampToByte(m[i])
  {
  }

  /** Element `i` of the quantizer's output on the min-max path. */
  lemma QuantizeNormalizeAt(m: seq<real>, c: SobelConfig, i: nat)
    requires WellDefined(c) && c.useQuantization && i < |m|
    requires SeqMax(m) - SeqMin(m) >= RANGE_EPSILON
    ensures Quantize(m, c)[i] == NormalizeValue(m[i], SeqMin(m), SeqMax(m) - SeqMin(m), c)
  {
  }

  lemma ClampToByteMonotone(a: real, b: real)
    requires a <= b
    ensures ClampToByte(a) <= ClampToByte(b)
  {
  }

  lemma RescaledMonotone(a: real, b: real, lo: real, range: real, c: SobelConfig)
    requires range > 0.0 && WellDefined(c) && c.useQuantization && a <= b
    ensures Rescaled(a, lo, range, c) <= Rescaled(b, lo, range, c)
  {
    var levels := c.quantizationLevels as real;
    var scale := levels / range;
    ScaleMonotone(a - lo, b - lo, scale);
    if c.normalizeOutput {
      DivideMonotone((a - lo) * scale, (b - lo) * scale, levels);
      ScaleMonotone((a - lo) * scale / levels, (b - lo) * scale / levels, 255.0);
    }
  }

  /** The quantizer preserves order: a pixel of no greater magnitude gets no greater
      output, on every path. */
  lemma QuantizeMonotone(m: seq<real>, c: SobelConfig, i: nat, j: nat)
    requires WellDefined(c) && i < |m| && j < |m| && m[i] <= m[j]
    ensures Quantize(m, c)[i] <= Quantize(m, c)[j]
  {
    if c.useQuantization {
      var lo := SeqMin(m);
      var range := SeqMax(m) - lo;
      if range < RANGE_EPSILON {
        QuantizeDegenerate(m, c, i);
        QuantizeDegenerate(m, c, j);
      } else {
        QuantizeNormalizeAt(m, c, i);
        QuantizeNormalizeAt(m, c, j);
        RescaledMonotone(m[i], m[j], lo, range, c);
        ClampToByteMonotone(Rescaled(m[i], lo, range, c), Rescaled(m[j], lo, range, c));
      }
    } else {
      QuantizeClampAt(m, c, i);
      QuantizeClampAt(m, c, j);
      ClampToByteMonotone(m[i], m[j]);
    }
  }

  /** With quantization on, a pixel of minimum magnitude maps to 0. */
  lemma QuantizeMinimumIsZero(m: seq<real>, c: SobelConfig, i: nat)
    requires WellDefined(c) && c.useQuantization && i < |m| && m[i] == SeqMin(m)
    ensures Quantize(m, c)[i] == 0
  {
    var range := SeqMax(m) - SeqMin(m);
    if range < RANGE_EPSILON {
      QuantizeDegenerate(m, c, i);
    } else {
      QuantizeNormalizeAt(m, c, i);
      assert Rescaled(m[i], SeqMin(m), range, c) == 0.0;
    }
  }

  /** Without normalization a value of the magnitude range is scaled into [0, L]. */
  lemma RescaledWithinLevels(v: real, lo: real, range: real, c: SobelConfig)
    requires range > 0.0 && WellDefined(c) && c.useQuantization && !c.normalizeOutput
    requires lo <= v <= lo + range
    ensures 0.0 <= Rescaled(v, lo, range, c) <= c.quantizationLevels as real
    ensures NormalizeValue(v, lo, range, c) <= c.quantizationLevels
  {
    var levels := c.quantizationLevels as real;
    var scale := levels / range;
    ScaleMonotone(0.0, v - lo, scale);
    ScaleMonotone(v - lo, range, scale);
    assert range * scale == levels;
  }

  /** With quantization on and normalization off, no output exceeds the level count. */
  lemma QuantizeWithinLevels(m: seq<real>, c: SobelConfig, i: nat)
    requires WellDefined(c) && c.useQuantization && !c.normalizeOutput && i < |m|
    ensures Quantize(m, c)[i] <= c.quantizationLevels
  {
    var lo := SeqMin(m);
    var range := SeqMax(m) - lo;
    if range < RANGE_EPSILON {
      QuantizeDegenerate(m, c, i);
    } else {
      QuantizeNormalizeAt(m, c, i);
      RescaledWithinLevels(m[i], lo, range, c);
    }
  }

  /** With normalization on, the level count cancels: a value maps to
      `(v - min) / range * 255`, clamped and truncated, whatever `L >= 1` is. */
  lemma NormalizationCancelsLevels(v: real, lo: real, range: real, c: SobelConfig)
    requires range > 0.0 && WellDefined(c) && c.useQuantization && c.normalizeOutput
    ensures Rescaled(v, lo, range, c) == (v - lo) / range * 255.0
    ensures NormalizeValue(v, lo, range, c) == ClampToByte((v - lo) / range * 255.0)
  {
    MulDivCancel(v - lo, c.quantizationLevels as real, range);
  }

  lemma SelfRatio(r: real)
    requires r > 0.0
    ensures r / r == 1.0
  {
  }

  /** With normalization on, the top of the range maps to 255. */
  lemma NormalizeTop(lo: real, range: real, c: SobelConfig)
    requires range > 0.0 && WellDefined(c) && c.useQuantization && c.normalizeOutput
    ensures NormalizeValue(lo + range, lo, range, c) == 255
  {
    NormalizationCancelsLevels(lo + range, lo, range, c);
    assert lo + range - lo == range;
    SelfRatio(range);
  }

  /** With normalization on, over the range [0, 255] every value maps as on the
      clamp-only path. */
  lemma NormalizeFullRange(v: real, c: SobelConfig)
    requires WellDefined(c) && c.useQuantization && c.normalizeOutput
    ensures NormalizeValue(v, 0.0, 255.0, c) == ClampToByte(v)
  {
    NormalizationCancelsLevels(v, 0.0, 255.0, c);
    assert (v - 0.0) / 255.0 * 255.0 == v;
  }

  /** With normalization on, a pixel of maximum magnitude maps to 255 (exact arithmetic). */
  lemma QuantizeMaximumIs255(m: seq<real>, c: SobelConfig, i: nat)
    requires WellDefined(c) && c.useQuantization && c.normalizeOutput && i < |m|
    requires m[i] == SeqMax(m) && SeqMax(m) - SeqMin(m) >= RANGE_EPSILON
    ensures Quantize(m, c)[i] == 255
  {
    QuantizeNormalizeAt(m, c, i);
    var lo := SeqMin(m);
    NormalizeTop(lo, SeqMax(m) - lo, c);
    assert m[i] == lo + (SeqMax(m) - lo);
  }

  /** With quantization on and a range below 1e-10, every output is 0. */
  lemma QuantizeDegenerate(m: seq<real>, c: SobelConfig, i: nat)
    requires WellDefined(c) && c.useQuantization && i < |m|
    requires SeqMax(m) - SeqMin(m) < RANGE_EPSILON
    ensures Quantize(m, c)[i] == 0
  {
  }

  /** With quantization off, a magnitude is saturated to [0, 255] and truncated. */
  lemma QuantizeClampOnly(m: seq<real>, c: SobelConfig, i: nat)
    requires WellDefined(c) && !c.useQuantization && i < |m|
    ensures m[i] <= 0.0 ==> Quantize(m, c)[i] == 0
    ensures 0.0 <= m[i] <= 255.0 ==> Quantize(m, c)[i] as real <= m[i] < Quantize(m, c)[i] as real + 1.0
    ensures m[i] >= 255.0 ==> Quantize(m, c)[i] == 255
  {
    QuantizeClampAt(m, c, i);
  }

  lemma FullRangeMatchesClampPathAt(m: seq<real>, c: SobelConfig, i: nat)
    requires WellDefined(c) && c.useQuantization && c.normalizeOutput && i < |m|
    requires SeqMin(m) == 0.0 && SeqMax(m) == 255.0
    ensures Quantize(m, c)[i] == ClampToByte(m[i])
  {
    QuantizeNormalizeAt(m, c, i);
    NormalizeFullRange(m[i], c);
  }

  /** Magnitudes spanning exactly [0, 255] come out of the normalizing path as they come
      out of the clamp-only path. */
  lemma FullRangeMatchesClampPath(m: seq<real>, c: SobelConfig)
    requires WellDefined(c) && c.useQuantization && c.normalizeOutput && |m| > 0
    requires SeqMin(m) == 0.0 && SeqMax(m) == 255.0
    ensures Quantize(m, c) == Quantize(m, c.(useQuantization := false))
  {
    var clampOnly := c.(useQuantization := false);
    forall i | 0 <= i < |m|
      ensures Quantize(m, c)[i] == Quantize(m, clampOnly)[i]
    {
      FullRangeMatchesClampPathAt(m, c, i);
      QuantizeClampAt(m, clampOnly, i);
    }
  }

  // ---------------------------------------------------------------------------
  // Whole pipeline

  lemma {:induction false} RowSumOfBlack(p: Plane, k: Kernel, x: int, y: int, r: nat, c: nat)
    requires ValidPlane(p) && Uniform(p, 0) && r < 5 && c <= 5
    ensures RowSum(p, k, x, y, r, c) == 0
  {
    if c > 0 {
      RowSumOfBlack(p, k, x, y, r, c - 1);
    }
  }

  lemma {:induction false} WindowSumOfBlack(p: Plane, k: Kernel, x: int, y: int, r: nat)
    requires ValidPlane(p) && Uniform(p, 0) && r <= 5
    ensures WindowSum(p, k, x, y, r) == 0
  {
    if r > 0 {
      WindowSumOfBlack(p, k, x, y, r - 1);
      RowSumOfBlack(p, k, x, y, r - 1, 5);
    }
  }

  /** An all-black image produces an all-zero edge map under every configuration. */
  lemma BlackImageGivesZeros(p: Plane, c: SobelConfig, sqrt: real -> real)
    requires ValidPlane(p) && WellDefined(c) && SqrtLaws(sqrt) && Uniform(p, 0)
    ensures forall i :: 0 <= i < |EdgeMap(p, c, sqrt)| ==> EdgeMap(p, c, sqrt)[i] == 0
  {
    var gx, gy := Convolve(p, SOBEL_X), Convolve(p, SOBEL_Y);
    forall i | 0 <= i < |gx|
      ensures gx[i] == 0 && gy[i] == 0
    {
      WindowSumOfBlack(p, SOBEL_X, i % p.width, i / p.width, 5);
      WindowSumOfBlack(p, SOBEL_Y, i % p.width, i / p.width, 5);
    }
    var m := Magnitudes(gx, gy, sqrt);
    forall i | 0 <= i < |m|
      ensures m[i] == 0.0
    {
      MagnitudeZeroIff(gx[i], gy[i], sqrt);
    }
    if |m| > 0 {
      SeqMinMaxAttained(m);
      assert SeqMin(m) == 0.0 && SeqMax(m) == 0.0;
    }
  }
}
