/** The reference pipeline `SobelFilter` (include/sobel_filter.hpp, src/sobel_filter.cpp):
    each stage is a loop over the image, proved equal to its function in SobelSpec. */
module SobelReference {
  import opened Images
  import opened SobelSpec
  import opened SobelProperties

  /** `getPixelSafe(x, y, 0)` on a grayscale image reads its dense plane. */
  lemma SafePixelIsSample(image: GrayscaleImage, x: int, y: int)
    requires image.Valid()
    ensures ValidPlane(DensePlane(image.data, image.width, image.height))
    ensures image.GetPixelSafe(x, y, 0) == Sample(DensePlane(image.data, image.width, image.height), x, y)
  {
  }

  /** One step of the inner convolution loop: adding the product of the tap at offset
      `(kx, ky)` extends the partial sum by one term, and the new sum still fits 32 bits. */
  lemma TapStep(p: Plane, k: Kernel, x: int, y: int, kx: int, ky: int, sum: int, pixel: int)
    requires ValidPlane(p) && FitsAccumulator(k) && -2 <= kx <= 2 && -2 <= ky <= 2
    requires sum == WindowSum(p, k, x, y, ky + 2) + RowSum(p, k, x, y, ky + 2, kx + 2)
    requires pixel == Sample(p, x + kx, y + ky)
    ensures sum + pixel * k[ky + 2][kx + 2] == WindowSum(p, k, x, y, ky + 2) + RowSum(p, k, x, y, ky + 2, kx + 3)
    ensures InInt32(sum + pixel * k[ky + 2][kx + 2])
  {
    AccumulatorFits(p, k, x, y, ky + 2, kx + 3);
  }

  /** `Rescaled` computed in the two steps of `quantize`'s loop, with the scale factor
      hoisted out of it. */
  lemma RescaledSteps(v: real, lo: real, range: real, c: SobelConfig, scale: real)
    requires range > 0.0 && WellDefined(c) && c.useQuantization
    requires scale == c.quantizationLevels as real / range
    ensures c.normalizeOutput ==> Rescaled(v, lo, range, c) == ((v - lo) * scale / c.quantizationLevels as real) * 255.0
    ensures !c.normalizeOutput ==> Rescaled(v, lo, range, c) == (v - lo) * scale
  {
  }

  class SobelFilter {
    var config: SobelConfig

    /** `SobelFilter()` and `SobelFilter(config)`. */
    constructor (config: SobelConfig := SobelConfig())
      ensures this.config == config
    {
      this.config := config;
    }

    /** `getConfig()`. */
    function GetConfig(): (c: SobelConfig)
      reads this
      ensures c == config
    {
      config
    }

    /** `setConfig(config)`: replaces the configuration. */
    method SetConfig(config: SobelConfig)
      modifies this
      ensures this.config == config
    {
      this.config := config;
    }

    /** `getKernelX()` and `getKernelY()`. */
    static function GetKernelX(): (k: Kernel)
      ensures k == SOBEL_X
    {
      SOBEL_X
    }

    static function GetKernelY(): (k: Kernel)
      ensures k == SOBEL_Y
    {
      SOBEL_Y
    }

    /** The inner loop of `convolve` for kernel row `ky + 2` at pixel `(x, y)`: five taps
        read through `getPixelSafe(..., 0)` and added to the 32-bit sum. */
    static method AccumulateRow(image: GrayscaleImage, kernel: Kernel, x: nat, y: nat, ky: int, sum0: int32)
      returns (sum: int32)
      requires image.Valid() && FitsAccumulator(kernel) && -2 <= ky <= 2
      requires sum0 == WindowSum(DensePlane(image.data, image.width, image.height), kernel, x, y, ky + 2)
      ensures sum == WindowSum(DensePlane(image.data, image.width, image.height), kernel, x, y, ky + 3)
    {
      ghost var plane := DensePlane(image.data, image.width, image.height);
      ghost var before := WindowSum(plane, kernel, x, y, ky + 2);
      sum := sum0;
      var kx := -2;
      while kx <= 2
        invariant -2 <= kx <= 3
        invariant sum == before + RowSum(plane, kernel, x, y, ky + 2, kx + 2)
      {
        var pixel := image.GetPixelSafe(x + kx, y + ky, 0);
        SafePixelIsSample(image, x + kx, y + ky);
        TapStep(plane, kernel, x, y, kx, ky, sum, pixel);
        sum := sum + pixel * kernel[ky + 2][kx + 2];
        kx := kx + 1;
      }
    }

    /** The body of `convolve` for one pixel: the 25 taps summed in 32 bits, row by row,
        then clamped to `int16_t`. */
    static method ConvolvePixel(image: GrayscaleImage, kernel: Kernel, x: nat, y: nat) returns (value: int16)
      requires image.Valid() && FitsAccumulator(kernel)
      ensures value == Gradient(DensePlane(image.data, image.width, image.height), kernel, x, y)
    {
      var sum: int32 := 0;
      var ky := -2;
      while ky <= 2
        invariant -2 <= ky <= 3
        invariant sum == WindowSum(DensePlane(image.data, image.width, image.height), kernel, x, y, ky + 2)
      {
        sum := AccumulateRow(image, kernel, x, y, ky, sum);
        ky := ky + 1;
      }
      value := ClampInt(sum, INT16_MIN, INT16_MAX);
    }

    /** `convolve`: the gradient of every pixel stored at `y * width + x`. */
    static method Convolve(image: GrayscaleImage, kernel: Kernel) returns (result: seq<int16>)
      requires image.Valid() && FitsAccumulator(kernel)
      ensures result == SobelSpec.Convolve(DensePlane(image.data, image.width, image.height), kernel)
    {
      var width, height := image.width, image.height;
      ghost var spec := SobelSpec.Convolve(DensePlane(image.data, width, height), kernel);
      result := seq(width * height, _ => 0);
      ghost var k := 0;
      var y := 0;
      while y < height
        invariant 0 <= y <= height && k == y * width && k <= width * height
        invariant |result| == width * height
        invariant forall i :: 0 <= i < k ==> result[i] == spec[i]
      {
        var x := 0;
        while x < width
          invariant 0 <= x <= width && k == y * width + x && k <= width * height
          invariant |result| == width * height
          invariant forall i :: 0 <= i < k ==> result[i] == spec[i]
        {
          var value := ConvolvePixel(image, kernel, x, y);
          IndexInBounds(x, y, width, height);
          CoordinatesToIndex(x, y, width);
          assert spec[k] == value;
          result := result[y * width + x := value];
          x, k := x + 1, k + 1;
        }
        assert k == (y + 1) * width;
        y := y + 1;
      }
      assert k == width * height;
    }

    /** `calculateMagnitude`: `sqrt(gx[i]^2 + gy[i]^2)` for every index. */
    method CalculateMagnitude(gx: seq<int16>, gy: seq<int16>, width: nat, height: nat, sqrt: real -> real)
      returns (magnitudes: seq<real>)
      requires |gx| == |gy| == width * height
      ensures magnitudes == Magnitudes(gx, gy, sqrt)
    {
      magnitudes := seq(width * height, _ => 0.0);
      var i := 0;
      while i < |gx|
        invariant 0 <= i <= |gx|
        invariant |magnitudes| == |gx|
        invariant forall j :: 0 <= j < i ==> magnitudes[j] == MagnitudeAt(gx[j], gy[j], sqrt)
      {
        var magnitude := sqrt((gx[i] as real) * (gx[i] as real) + (gy[i] as real) * (gy[i] as real));
        assert magnitude == MagnitudeAt(gx[i], gy[i], sqrt);
        magnitudes := magnitudes[i := magnitude];
        i := i + 1;
      }
    }

    /** The body of `quantize`'s min-max loop for one magnitude, with the scale factor
        `L / range` computed once before the loop. */
    static method NormalizePixel(v: real, minMag: real, range: real, scale: real, config: SobelConfig)
      returns (b: uint8)
      requires range > 0.0 && WellDefined(config) && config.useQuantization
      requires scale == config.quantizationLevels as real / range
      ensures b == NormalizeValue(v, minMag, range, config)
    {
      RescaledSteps(v, minMag, range, config, scale);
      var normalized := (v - minMag) * scale;
      if config.normalizeOutput {
        normalized := (normalized / config.quantizationLevels as real) * 255.0;
      }
      b := ToUint8(ClampReal(normalized, 0.0, 255.0));
    }

    /** `quantize` with the filter's configuration. */
    method Quantize(magnitudes: seq<real>) returns (result: seq<uint8>)
      requires WellDefined(config)
      ensures result == SobelSpec.Quantize(magnitudes, config)
    {
      if |magnitudes| == 0 {
        return [];
      }
      result := seq(|magnitudes|, _ => 0);
      if !config.useQuantization {
        var i := 0;
        while i < |magnitudes|
          invariant 0 <= i <= |magnitudes|
          invariant |result| == |magnitudes|
          invariant forall j :: 0 <= j < i ==> result[j] == ClampToByte(magnitudes[j])
        {
          result := result[i := ToUint8(ClampReal(magnitudes[i], 0.0, 255.0))];
          i := i + 1;
        }
        assert result == ClampAll(magnitudes);
        return;
      }
      var minMag, maxMag := SeqMin(magnitudes), SeqMax(magnitudes);
      var range := maxMag - minMag;
      if range < RANGE_EPSILON {
        assert result == seq(|magnitudes|, _ => 0);
        return;
      }
      var scale := config.quantizationLevels as real / range;
      var i := 0;
      while i < |magnitudes|
        invariant 0 <= i <= |magnitudes|
        invariant |result| == |magnitudes|
        invariant forall j :: 0 <= j < i ==> result[j] == NormalizeValue(magnitudes[j], minMag, range, config)
      {
        var b := NormalizePixel(magnitudes[i], minMag, range, scale, config);
        result := result[i := b];
        i := i + 1;
      }
      assert result == NormalizeAll(magnitudes, minMag, range, config);
    }

    /** The last step of `apply`: a fresh `width x height` image whose pixel
        `(i % width, i / width)` is set to `quantized[i]`, for every `i`. */
    static method StoreRaster(quantized: seq<uint8>, width: nat, height: nat) returns (result: GrayscaleImage)
      requires width > 0 && height > 0 && |quantized| == width * height
      ensures fresh(result) && result.Valid() && result.blank == 0
      ensures result.width == width && result.height == height && result.data == quantized
    {
      var created := Image<uint8>.New(width, height, 0);
      result := created.value;
      var i := 0;
      while i < |quantized|
        invariant 0 <= i <= |quantized| == width * height
        invariant fresh(result) && result.Valid() && result.width == width && result.height == height && result.blank == 0
        invariant forall j :: 0 <= j < |result.data| ==> result.data[j] == if j < i then quantized[j] else 0
      {
        var x, y := i % width, i / width;
        IndexToCoordinates(i, width, height);
        var ok := result.SetPixel(x, y, quantized[i]);
        i := i + 1;
      }
      assert result.data == quantized;
    }

    /** `apply(const GrayscaleImage&)`: an empty input gives an empty image; otherwise
        pixel `(i % width, i / width)` of the result is `quantized[i]`. */
    method ApplyGray(input: GrayscaleImage, sqrt: real -> real) returns (result: GrayscaleImage)
      requires input.Valid() && WellDefined(config)
      ensures fresh(result) && result.Valid() && result.blank == 0
      ensures result.width == input.width && result.height == input.height
      ensures result.data == if input.IsEmpty() then []
        else EdgeMap(DensePlane(input.data, input.width, input.height), config, sqrt)
    {
      if input.IsEmpty() {
        result := new Image<uint8>.Empty(0);
        return;
      }
      var width, height := input.width, input.height;
      SobelKernelsFit();
      var gx := Convolve(input, SOBEL_X);
      var gy := Convolve(input, SOBEL_Y);
      var magnitudes := CalculateMagnitude(gx, gy, width, height, sqrt);
      var quantized := Quantize(magnitudes);
      assert quantized == EdgeMap(DensePlane(input.data, width, height), config, sqrt);
      result := StoreRaster(quantized, width, height);
    }

    /** The first half of `apply(const RGBImage&)`: a fresh `GrayscaleImage(width,
        height)` — `InvalidDimensions` for a 0 x 0 input — whose every pixel is set, row
        by row, to the gray value of the input pixel read through `at`. */
    static method ConvertToGrayscale(input: RGBImage) returns (r: Result<GrayscaleImage>)
      requires input.Valid()
      ensures r.Ok? <==> !input.IsEmpty()
      ensures r.Err? ==> r.error == InvalidDimensions
      ensures r.Ok? ==> fresh(r.value) && r.value.Valid() && r.value.blank == 0
      ensures r.Ok? ==> r.value.width == input.width && r.value.height == input.height
      ensures r.Ok? ==> r.value.data == GrayOf(input.data)
    {
      var width, height := input.width, input.height;
      var created := Image<uint8>.New(width, height, 0);
      if created.Err? {
        return Err(created.error);
      }
      var grayscale := created.value;
      ghost var expected := GrayOf(input.data);
      ghost var k := 0;
      var y := 0;
      while y < height
        invariant 0 <= y <= height && k == y * width && k <= width * height
        invariant fresh(grayscale) && grayscale.Valid() && grayscale.blank == 0
        invariant grayscale.width == width && grayscale.height == height
        invariant forall i :: 0 <= i < k ==> grayscale.data[i] == expected[i]
      {
        var x := 0;
        while x < width
          invariant 0 <= x <= width && k == y * width + x && k <= width * height
          invariant fresh(grayscale) && grayscale.Valid() && grayscale.blank == 0
          invariant grayscale.width == width && grayscale.height == height
          invariant forall i :: 0 <= i < k ==> grayscale.data[i] == expected[i]
        {
          var pixel := input.At(x, y);
          IndexInBounds(x, y, width, height);
          var ok := grayscale.SetPixel(x, y, ToGrayscale(pixel.value));
          x, k := x + 1, k + 1;
        }
        assert k == (y + 1) * width;
        y := y + 1;
      }
      assert grayscale.data == expected;
      r := Ok(grayscale);
    }

    /** `apply(const RGBImage&)`: every pixel through `toGrayscale`, then the grayscale
        overload.  The grayscale image's constructor rejects a 0 x 0 input, so unlike the
        grayscale overload this one fails on it. */
    method Apply(input: RGBImage, sqrt: real -> real) returns (r: Result<GrayscaleImage>)
      requires input.Valid() && WellDefined(config)
      ensures r.Ok? <==> !input.IsEmpty()
      ensures r.Err? ==> r.error == InvalidDimensions
      ensures r.Ok? ==> fresh(r.value) && r.value.Valid()
      ensures r.Ok? ==> r.value.width == input.width && r.value.height == input.height
      ensures r.Ok? ==> r.value.data == EdgeMap(DensePlane(GrayOf(input.data), input.width, input.height), config, sqrt)
    {
      var converted := ConvertToGrayscale(input);
      if converted.Err? {
        return Err(converted.error);
      }
      var result := ApplyGray(converted.value, sqrt);
      r := Ok(result);
    }
  }
}
