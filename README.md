# A verified model of the 5x5 Sobel edge filter

This project models the core of a C++ 5x5 Sobel edge detector.

- **Images** (`image.dfy`): the pixel types and the row-major raster `Image<T>` (`include/image.hpp`, `src/image.cpp`).
  - An RGB pixel becomes gray through the ITU-R BT.709 luma equation, Y = 0.2126 R + 0.7152 G + 0.0722 B. It is computed exactly in units of 1/10000, clamped to [0, 255] and rounded half up.
  - Construction, `at`, `setPixel` and `resize` report their exceptions as `Result`/`Outcome` values.
  - `getPixelSafe` never fails and returns its default outside the image.
- **SobelSpec** (`sobel_spec.dfy`): the mathematics shared by both filters.
  - The configuration and the two kernels.
  - A *plane* is a strided grid of gray bytes that reads as 0 outside its `width x height` logical pixels. The convolution is defined over planes.
  - The `int16_t` clamp, the gradient magnitude and the three-path quantizer.
  - `EdgeMap` is the whole pipeline as one function.
- **SobelProperties** (`sobel_properties.dfy`): theorems about those functions.
  - Kernel structure, and the bounds that keep the `int32_t` accumulator and the `int16_t` clamp exact.
  - Locality: the output depends only on what the taps read.
  - Zero interior gradients on uniform images, and an all-zero result for a black image.
  - Magnitude laws.
  - The quantizer's paths, monotonicity, range and end points.
- **SobelReference** (`sobel_filter.dfy`): the reference class `SobelFilter`. Each loop of `convolve`, `calculateMagnitude`, `quantize` and both `apply` overloads is an imperative method proved equal to its SobelSpec function.
- **SobelSimd** (`sobel_filter_simd.dfy`): the buffer-managed variant `SobelFilterSIMD`. It is a class that owns these fields:
  - a resolved optimization level;
  - a gray buffer (an `array`) whose row stride is the width rounded up to a multiple of 32;
  - the recorded buffer dimensions.

  The class invariant says that every padding byte is zero. `apply` keeps the invariant, so the padding stays zero across calls. The main theorem (`PaddedEdgeMapIsReference`, used by `Apply`) says something about the padded buffer. Its edge map is the edge map of the reference pipeline's dense grayscale image. So for every non-empty input and at every level, `SobelFilterSIMD::apply` produces exactly what `SobelFilter::apply` produces. The "SSE" and "AVX2" methods forward to the scalar ones, as the source does.

Four primitives enter the model as values or parameters:

- `std::sqrt` is a parameter `sqrt: real -> real`. The predicate `SqrtLaws` states the laws the proofs need: non-negative, zero exactly at zero, monotone.
- The capability string of `getCPUCapabilities()` is the parameter `caps` of the SIMD constructors. That resolves `AUTO` deterministically for each string; over all strings it covers every possible choice.
- Doubles are modelled as exact reals.
- `static_cast<uint8_t>` of a clamped value is `Floor`.

Three places where the code is followed rather than its comments:

- The comment on `Image::resize` (include/image.hpp:116) says the data is destroyed. The code calls `std::vector::resize`, which keeps the first `w*h` pixels and appends blank ones, so the model does the same.
- With normalization on, the quantizer multiplies by `levels / range` and then divides by `levels`. In exact arithmetic the level count therefore cancels: the output is `clamp((v - min) / range * 255)` for every level count (`NormalizationCancelsLevels`). So the order of the two scalings matters only for floating-point rounding, which is left out.
- "`levels = 255` with normalization reproduces the clamp-only path" holds when the magnitudes span exactly [0, 255]. `FullRangeMatchesClampPath` proves this for the min-max path at any level count.

## Model

| member | source | states |
|---|---|---|
| Images.ToGrayscale | src/image.cpp:16-24 | the gray value is the BT.709 weighted sum rounded to the nearest integer, halves up: `10000*g - 5000 <= luma < 10000*g + 5000` |
| Images.GrayscaleOfNeutral | src/image.cpp:18-23 | the weights sum to one, so a neutral pixel `(v, v, v)` maps to `v` |
| Images.GrayscaleOfBlackAndWhite | src/image.cpp:16-24 | black maps to 0 and white maps to 255 |
| Images.GrayscaleMonotone | src/image.cpp:22-23 | brightening any channel never lowers the gray value |
| Images.IndexInBounds | src/image.cpp:48-51 | an in-range pixel's row-major index `y*width + x` lies inside the `width*height` vector |
| Images.IndexToCoordinates | src/sobel_filter.cpp:68-71 | vector index `i` is pixel `(i % width, i / width)`, which lies inside the image and maps back to `i` |
| Images.CoordinatesToIndex | src/sobel_filter.cpp:68-71 | pixel `(x, y)` is stored at `y*width + x`, and `i % width`, `i / width` recover it |
| Images.VectorResize | src/image.cpp:92 | `vector::resize(n)` keeps the first `n` elements and pads with the blank value |
| Images.Image.Empty | include/image.hpp:53 | the default image is 0 x 0 with no data |
| Images.Image.New | src/image.cpp:27-33 | succeeds exactly when both dimensions are positive, with `w*h` blank pixels; otherwise `InvalidDimensions` |
| Images.Image.FromData | src/image.cpp:35-44 | succeeds exactly when both dimensions are positive and the length is `w*h`, adopting the data; otherwise `InvalidDimensions` |
| Images.Image.Size | include/image.hpp:73 | the number of pixels is `width*height` |
| Images.Image.IsEmpty | include/image.hpp:74 | empty exactly when the image is 0 x 0 |
| Images.Image.At | src/image.cpp:46-60 | returns the pixel at `y*width + x` exactly when `x < width` and `y < height`; otherwise `OutOfRange` |
| Images.Image.GetPixelSafe | src/image.cpp:62-68 | returns the stored pixel inside the image and the default anywhere else, negative coordinates included |
| Images.Image.SetPixel | src/image.cpp:70-76 | replaces exactly the pixel at `y*width + x`; outside the image it fails with `OutOfRange` and changes nothing |
| Images.Image.Clear | src/image.cpp:78-83 | the image becomes 0 x 0 and empty |
| Images.Image.Resize | src/image.cpp:85-93 | new dimensions with the data resized as a vector; on a zero dimension `InvalidDimensions` with nothing changed |
| Images.SafeAccessAgreesWithAt | src/image.cpp:46-68 | `getPixelSafe` agrees with `at` wherever `at` succeeds and returns its default exactly where `at` fails |
| SobelSpec.Sample | src/sobel_filter.cpp:103-110 | the tap reads the stored byte inside the image and 0 outside it, and that byte's index is in range |
| SobelSpec.Gradient | src/sobel_filter.cpp:117-122 | the stored gradient equals the response whenever the response fits `int16_t` |
| SobelSpec.Convolve | src/sobel_filter.cpp:89-127 | one gradient per pixel, element `i` being pixel `(i % width, i / width)` |
| SobelSpec.Magnitudes | src/sobel_filter.cpp:129-145 | one magnitude per gradient pair, element by element |
| SobelSpec.ToUint8 | src/sobel_filter.cpp:187-189 | the cast truncates: `b <= v < b + 1` |
| SobelSpec.SeqMin | src/sobel_filter.cpp:165-166 | a lower bound of every magnitude |
| SobelSpec.SeqMax | src/sobel_filter.cpp:165-167 | an upper bound of every magnitude |
| SobelSpec.GrayOf | src/sobel_filter.cpp:37-43 | pixel `i` of the gray raster is the gray value of RGB pixel `i` |
| SobelProperties.KernelYIsTransposeOfX | src/sobel_filter.cpp:17-31 | the vertical kernel is the transpose of the horizontal one |
| SobelProperties.KernelXAntisymmetric | src/sobel_filter.cpp:17-31 | the horizontal kernel is antisymmetric left to right, its rows sum to 0, and the vertical kernel's columns sum to 0 |
| SobelProperties.KernelXAbsWeight | src/sobel_filter.cpp:17-23 | the absolute weights of `SOBEL_X` sum to 96 |
| SobelProperties.KernelYAbsWeight | src/sobel_filter.cpp:25-31 | the absolute weights of `SOBEL_Y` sum to 96 |
| SobelProperties.RowSumBound | src/sobel_filter.cpp:104-114 | a partial kernel-row sum lies within +-255 times its absolute weights |
| SobelProperties.WindowSumBound | src/sobel_filter.cpp:103-115 | a partial window sum lies within +-255 times its absolute weights |
| SobelProperties.ResponseBound | src/sobel_filter.cpp:103-115 | the full response lies within +-255 times the kernel's absolute weight |
| SobelProperties.AccumulatorFits | src/sobel_filter.cpp:100-115 | every partial sum of the loop fits the `int32_t` accumulator, so it never wraps |
| SobelProperties.ClampNeverFiresX | src/sobel_filter.cpp:117-122 | with `SOBEL_X` the response stays within +-24480, so the `int16_t` clamp never changes it |
| SobelProperties.ClampNeverFiresY | src/sobel_filter.cpp:117-122 | the same for `SOBEL_Y` |
| SobelProperties.RowSumOnlySamples | src/sobel_filter.cpp:106-113 | a row sum depends only on the taps' samples |
| SobelProperties.WindowSumOnlySamples | src/sobel_filter.cpp:103-115 | a window sum depends only on the taps' samples |
| SobelProperties.ConvolveOnlySamples | src/sobel_filter.cpp:89-127 | two planes that read the same everywhere have the same gradients: nothing outside the logical image is read |
| SobelProperties.EdgeMapOnlySamples | src/sobel_filter.cpp:48-75 | two planes that read the same everywhere have the same edge map |
| SobelProperties.FlatRowX | src/sobel_filter.cpp:17-23 | on a uniform image each row of `SOBEL_X` sums to 0 at any `x` with `2 <= x <= width-3` |
| SobelProperties.UniformInteriorGx | src/sobel_filter.cpp:89-127 | on a uniform image `gx` is 0 at every `x` with `2 <= x <= width-3`, in every row |
| SobelProperties.OuterRowsY | src/sobel_filter.cpp:25-31 | the outer rows of `SOBEL_Y` are the negated and the plain binomial row sums at `y-2` and `y+2` |
| SobelProperties.InnerRowsY | src/sobel_filter.cpp:25-31 | the middle row of `SOBEL_Y` sums to 0, and rows 1 and 3 are -2 and +2 times the binomial row sums at `y-1` and `y+1` |
| SobelProperties.UniformInteriorGy | src/sobel_filter.cpp:89-127 | on a uniform image `gy` is 0 at every `y` with `2 <= y <= height-3`, in every column |
| SobelProperties.MagnitudeZeroIff | src/sobel_filter.cpp:135-141 | a magnitude is at least 0, and it is 0 exactly when `gx == gy == 0` |
| SobelProperties.MagnitudeMonotone | src/sobel_filter.cpp:137-140 | a larger squared gradient never gives a smaller magnitude |
| SobelProperties.SeqMinMaxAttained | src/sobel_filter.cpp:165-167 | the minimum and the maximum are elements of the raster |
| SobelProperties.QuantizeClampAt | src/sobel_filter.cpp:154-161 | without quantization each output is the clamped, truncated magnitude |
| SobelProperties.QuantizeNormalizeAt | src/sobel_filter.cpp:176-190 | with quantization and a range of at least 1e-10, each output is the min-max normalized magnitude |
| SobelProperties.QuantizeDegenerate | src/sobel_filter.cpp:169-174 | with quantization and a range below 1e-10, every output is 0 |
| SobelProperties.ClampToByteMonotone | src/sobel_filter.cpp:157-159 | the clamp-and-cast never reverses order |
| SobelProperties.RescaledMonotone | src/sobel_filter.cpp:177-185 | the min-max rescaling never reverses order |
| SobelProperties.QuantizeMonotone | src/sobel_filter.cpp:147-193 | on every path, a larger magnitude never gets a smaller output |
| SobelProperties.QuantizeMinimumIsZero | src/sobel_filter.cpp:176-190 | with quantization the smallest magnitude maps to 0 |
| SobelProperties.RescaledWithinLevels | src/sobel_filter.cpp:177-180 | without normalization a magnitude in `[min, max]` is scaled into `[0, levels]` |
| SobelProperties.QuantizeWithinLevels | src/sobel_filter.cpp:176-190 | with quantization and without normalization every output is at most the level count |
| SobelProperties.NormalizationCancelsLevels | src/sobel_filter.cpp:182-185 | with normalization the level count cancels: output is `clamp((v - min) / range * 255)` |
| SobelProperties.NormalizeTop | src/sobel_filter.cpp:182-190 | with normalization the top of the range maps to 255 |
| SobelProperties.NormalizeFullRange | src/sobel_filter.cpp:182-190 | with normalization, over the range [0, 255], normalizing is the plain clamp-and-cast |
| SobelProperties.QuantizeMaximumIs255 | src/sobel_filter.cpp:176-190 | with quantization and normalization, the largest magnitude maps to 255 (non-degenerate range) |
| SobelProperties.QuantizeClampOnly | src/sobel_filter.cpp:154-161 | without quantization negative values give 0, in-range values truncate, and values >= 255 give 255 |
| SobelProperties.FullRangeMatchesClampPath | src/sobel_filter.cpp:147-193 | magnitudes spanning exactly [0, 255] give the same output on the normalizing path as on the clamp-only path |
| SobelProperties.WindowSumOfBlack | src/sobel_filter.cpp:103-115 | on a black image every window sum is 0 |
| SobelProperties.BlackImageGivesZeros | src/sobel_filter.cpp:48-75 | a black image gives an all-zero edge map under every configuration |
| SobelReference.SafePixelIsSample | src/sobel_filter.cpp:106-110 | `getPixelSafe(x, y, 0)` on a grayscale image is the zero-padded sample of its dense plane |
| SobelReference.TapStep | src/sobel_filter.cpp:112-113 | one tap extends the partial sum by one term, and the new sum fits `int32_t` |
| SobelReference.RescaledSteps | src/sobel_filter.cpp:177-185 | the two loop steps, with the scale hoisted, compute the rescaled value |
| SobelReference.SobelFilter.constructor | src/sobel_filter.cpp:33 | the filter holds the given configuration, or the default `{true, 64, true}` |
| SobelReference.SobelFilter.GetConfig | include/sobel_filter.hpp:92 | returns the stored configuration |
| SobelReference.SobelFilter.SetConfig | src/sobel_filter.cpp:85-87 | replaces the configuration |
| SobelReference.SobelFilter.GetKernelX | src/sobel_filter.cpp:77-79 | returns `SOBEL_X_5x5` |
| SobelReference.SobelFilter.GetKernelY | src/sobel_filter.cpp:81-83 | returns `SOBEL_Y_5x5` |
| SobelReference.SobelFilter.AccumulateRow | src/sobel_filter.cpp:104-115 | the inner loop adds exactly the five taps of one kernel row to the sum |
| SobelReference.SobelFilter.ConvolvePixel | src/sobel_filter.cpp:100-122 | the 25-tap sum of one pixel, clamped to `int16_t`, is that pixel's gradient |
| SobelReference.SobelFilter.Convolve | src/sobel_filter.cpp:89-127 | the result is the gradient raster of the image's dense plane |
| SobelReference.SobelFilter.CalculateMagnitude | src/sobel_filter.cpp:129-145 | the result is the magnitude raster of the two gradients |
| SobelReference.SobelFilter.NormalizePixel | src/sobel_filter.cpp:180-189 | one iteration of the min-max loop computes the normalized byte |
| SobelReference.SobelFilter.Quantize | src/sobel_filter.cpp:147-193 | the result is the quantizer function of the magnitudes under the filter's configuration, on all three paths |
| SobelReference.SobelFilter.StoreRaster | src/sobel_filter.cpp:66-72 | a fresh `width x height` image whose data is exactly the quantized raster |
| SobelReference.SobelFilter.ApplyGray | src/sobel_filter.cpp:48-75 | an empty input gives a 0 x 0 image; otherwise a same-size image holding the edge map of the input |
| SobelReference.SobelFilter.ConvertToGrayscale | src/sobel_filter.cpp:37-43 | a same-size gray image whose pixel `i` is the gray value of input pixel `i`; a 0 x 0 input gives `InvalidDimensions` |
| SobelReference.SobelFilter.Apply | src/sobel_filter.cpp:35-46 | fails exactly on a 0 x 0 input; otherwise a same-size image holding the edge map of the grayscale conversion |
| SobelSimd.Find | src/sobel_filter_simd.cpp:14 | `find` returns the first position of an occurrence, or `npos` exactly when there is none |
| SobelSimd.ResolveLevel | src/sobel_filter_simd.cpp:11-18 | the stored level is never `AUTO`; a concrete level is kept; `AUTO` becomes `AVX2` iff the string has "AVX2", else `SSE` iff it has "SSE4.1", else `SCALAR` |
| SobelSimd.NotFoundWithoutFirstChar | src/sobel_filter_simd.cpp:14-15 | a pattern whose first character is absent is not found |
| SobelSimd.ResolveWithoutCpuid | src/sobel_filter_simd.cpp:255-256 | with the non-MSVC capability string "Unknown ", `AUTO` resolves to `SCALAR` |
| SobelSimd.ResolveWithAvx2 | src/sobel_filter_simd.cpp:240-253 | a CPU reporting every tested feature resolves `AUTO` to `AVX2` |
| SobelSimd.PadTo32 | src/sobel_filter_simd.cpp:55 | the padded width is a multiple of 32 with `w <= padded < w + 32` |
| SobelSimd.PadTo32IsLeast | src/sobel_filter_simd.cpp:55 | no multiple of 32 at least `w` is smaller than the padded width |
| SobelSimd.MaskIsRoundDown | src/sobel_filter_simd.cpp:55 | on 64-bit values, `v & ~31` rounds down to a multiple of 32 |
| SobelSimd.KernelTablesAreBaseline | src/sobel_filter_simd.cpp:100-101 | the local tables `kx` and `ky` are the reference kernels |
| SobelSimd.PaddedGray | src/sobel_filter_simd.cpp:62-80 | the converted buffer has `stride*height` bytes, each byte being its pixel's gray value or padding |
| SobelSimd.PaddedGrayAt | src/sobel_filter_simd.cpp:72-76 | byte `y*stride + x` of the converted buffer is the gray value of pixel `(x, y)` |
| SobelSimd.PaddedGrayPadding | src/sobel_filter_simd.cpp:78 | every padding byte of the converted buffer is 0 |
| SobelSimd.PaddedGrayHasZeroPadding | src/sobel_filter_simd.cpp:71-79 | the converted buffer satisfies the zero-padding invariant |
| SobelSimd.PaddedPlaneSamples | src/sobel_filter_simd.cpp:115-119 | the padded plane and the dense grayscale plane read the same at every tap, in range or not |
| SobelSimd.PaddedEdgeMapIsReference | src/sobel_filter_simd.cpp:182-201 | the edge map of the padded buffer equals the reference edge map of the grayscale image |
| SobelSimd.SobelFilterSimd.constructor | src/sobel_filter_simd.cpp:11-18 | default configuration, resolved level, no buffer, all three dimensions 0 |
| SobelSimd.SobelFilterSimd.WithConfig | src/sobel_filter_simd.cpp:20-28 | the given configuration, resolved level, no buffer, all three dimensions 0 |
| SobelSimd.SobelFilterSimd.SetConfig | include/sobel_filter_simd.hpp:33 | replaces the configuration and no other field |
| SobelSimd.SobelFilterSimd.EnsureBuffers | src/sobel_filter_simd.cpp:50-60 | a no-op when the dimensions match and a buffer exists; otherwise it records them and makes a fresh all-zero buffer of `padded*h` bytes |
| SobelSimd.SobelFilterSimd.ZeroedBuffer | src/sobel_filter_simd.cpp:56-59 | allocate and `memset`: a fresh buffer of the given size holding only zeros |
| SobelSimd.SobelFilterSimd.ConvertRow | src/sobel_filter_simd.cpp:72-78 | one row writes exactly its logical bytes with their gray values and leaves every other byte alone |
| SobelSimd.SobelFilterSimd.ConvertRGBToGrayscaleScalar | src/sobel_filter_simd.cpp:62-80 | the buffer becomes the padded gray buffer of the input, and the padding stays zero |
| SobelSimd.SobelFilterSimd.ConvertRGBToGrayscaleSse | src/sobel_filter_simd.cpp:83-86 | the same result as the scalar conversion |
| SobelSimd.SobelFilterSimd.ConvertRGBToGrayscaleAvx2 | src/sobel_filter_simd.cpp:89-92 | the same result as the scalar conversion |
| SobelSimd.SobelFilterSimd.ReadTap | src/sobel_filter_simd.cpp:112-119 | a tap reads `gray[src_y*stride + src_x]` inside the image and 0 outside it: the zero-padded sample |
| SobelSimd.SobelFilterSimd.AccumulateRowPair | src/sobel_filter_simd.cpp:111-123 | the inner loop adds exactly one kernel row's five taps to both sums |
| SobelSimd.SobelFilterSimd.GradientPair | src/sobel_filter_simd.cpp:107-128 | both clamped 25-tap sums of one pixel are its two gradients |
| SobelSimd.SobelFilterSimd.Gradients | src/sobel_filter_simd.cpp:104-130 | `gx` and `gy` are the gradient rasters of the padded plane, unpadded and row-major |
| SobelSimd.SobelFilterSimd.GradientMagnitudes | src/sobel_filter_simd.cpp:133-140 | the result is the magnitude raster of the two gradients |
| SobelSimd.SobelFilterSimd.QuantizeWithConfig | src/sobel_filter_simd.cpp:158-180 | the same quantizer function as `SobelFilter::quantize`, on all three paths |
| SobelSimd.SobelFilterSimd.CopyRaster | src/sobel_filter_simd.cpp:146-150 | the output image's data becomes exactly the quantized raster |
| SobelSimd.SobelFilterSimd.EdgeMapOfBuffer | src/sobel_filter_simd.cpp:99-143 | gradients, magnitudes and quantization of the buffer give its edge map |
| SobelSimd.SobelFilterSimd.Sobel5x5Scalar | src/sobel_filter_simd.cpp:95-151 | `out` is resized, failing and unchanged on a zero dimension, and then holds the edge map of the padded plane |
| SobelSimd.SobelFilterSimd.Sobel5x5Sse | src/sobel_filter_simd.cpp:154 | the same result as the scalar convolution |
| SobelSimd.SobelFilterSimd.Sobel5x5Avx2 | src/sobel_filter_simd.cpp:155 | the same result as the scalar convolution |
| SobelSimd.SobelFilterSimd.ConvertAtLevel | src/sobel_filter_simd.cpp:190-194 | at every level the buffer becomes the padded gray buffer |
| SobelSimd.SobelFilterSimd.ConvolveAtLevel | src/sobel_filter_simd.cpp:197-201 | at every level the output holds the edge map of the padded plane |
| SobelSimd.SobelFilterSimd.Apply | src/sobel_filter_simd.cpp:182-226 | at any level: a non-empty input succeeds with the reference edge map and the same dimensions; a 0 x 0 input fails with output unchanged; the buffer records the input's dimensions, holds the padded gray image of the input with zero padding, and is the cached array when the dimensions are unchanged and a fresh one otherwise |

## Left out

- IEEE double rounding. Luma, magnitudes and the quantizer are computed on exact reals and rationals, so the SIMD and reference outputs are proved *equal*. The validation test only asks that they differ by at most one level.
- `getCPUCapabilities` (cpuid) becomes the `caps` string parameter of the constructors. Its MSVC / non-MSVC text appears only in `ResolveWithoutCpuid` and `ResolveWithAvx2`.
- `alignedAlloc`, `alignedDeleter` and the `bad_alloc` path: allocation is taken to succeed. A 0 x 0 input therefore fails at `out.resize(0, 0)` (`InvalidDimensions`), not at allocation.
- Profiling: `enableProfiling`, `startProfiling`, `endProfiling` and `lastMetrics_` are timing only.
- Images.Image: the value-initialised pixel `PixelType{}` is the constructor argument `blank`, which accepts any value. Faithful use passes `0` for grayscale images and `RGBPixel()` (black) for RGB images. No result about the filters depends on it, because every output raster is overwritten in full.
- The raw `data()` pointer accessors of `Image`. Writes through the mutable `at` are modelled by `SetPixel`.
- Integer widths of dimensions and indices (`size_t`, the `(int)` casts of `sobel5x5Scalar`): dimensions are unbounded naturals. The `int32_t` accumulator and the `int16_t` cast are modelled, and the accumulator is proved never to wrap.
- `quantization_levels == 0` with normalization on gives 0/0 (NaN) in the source. The predicate `WellDefined` excludes that configuration.
- SobelReference.SobelFilter.Quantize: requires `WellDefined(config)`. The source also accepts 0 levels with normalization, producing NaN, which is not modelled.
- SobelReference.SobelFilter.ApplyGray: requires `WellDefined(config)` for the same reason.
- SobelReference.SobelFilter.Apply: requires `WellDefined(config)` for the same reason.
- SobelSimd.SobelFilterSimd.QuantizeWithConfig: requires `WellDefined(config)` for the same reason.
- SobelSimd.SobelFilterSimd.Apply: requires `WellDefined(config)` for the same reason.
- SobelSimd.PadTo32: computes `(w + 31) / 32 * 32` on integers. `MaskIsRoundDown` proves the 64-bit mask form rounds down in the same way, but the conversion between `bv64` and integers is not proved.
- SobelSimd.SobelFilterSimd.ConvertRGBToGrayscaleScalar: requires the input's dimensions to equal the buffer's, as `apply` guarantees by calling `ensureBuffers` first. A smaller input would make `at` throw, and that is not modelled.
- `SobelFilterSIMD::apply` returns `true` or throws. Both outcomes are the `Outcome` result (`Pass` or `Fail(InvalidDimensions)`).
- Image file I/O, the command-line tools, the benchmarks and the debug programs are outside the core.
