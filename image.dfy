/** Pixels and the generic row-major raster `Image<T>` with its RGB and grayscale
    instances (include/image.hpp, src/image.cpp). */
module Images {

  /** An unsigned 8-bit channel or intensity (`uint8_t`). */
  type uint8 = x: int | 0 <= x < 256

  /** `std::invalid_argument` from the constructors and `resize`, `std::out_of_range` from `at`/`setPixel`. */
  datatype Error = InvalidDimensions | OutOfRange

  datatype Result<T> = Ok(value: T) | Err(error: Error)

  datatype Outcome = Pass | Fail(error: Error)

  /** Three independent 8-bit channels; `RGBPixel()` is black, as the default constructor is. */
  datatype RGBPixel = RGBPixel(r: uint8 := 0, g: uint8 := 0, b: uint8 := 0)

  /** The BT.709 luma weights 0.2126, 0.7152 and 0.0722, in units of 1/10000. */
  const R_WEIGHT: int := 2126
  const G_WEIGHT: int := 7152
  const B_WEIGHT: int := 722
  const WEIGHT_SCALE: int := 10000

  /** 10000 * (0.2126 R + 0.7152 G + 0.0722 B), computed exactly. */
  function Luma(p: RGBPixel): int {
    R_WEIGHT * p.r + G_WEIGHT * p.g + B_WEIGHT * p.b
  }

  /** `std::clamp` on integers. */
  function ClampInt(v: int, lo: int, hi: int): (c: int)
    requires lo <= hi
    ensures lo <= c <= hi
    ensures lo <= v <= hi ==> c == v
  {
    if v < lo then lo else if hi < v then hi else v
  }

  /** `RGBPixel::toGrayscale`: the weighted sum clamped to [0, 255] and rounded to the
      nearest integer, halves rounded up (away from zero, as `std::round` does for
      non-negative values). */
  function ToGrayscale(p: RGBPixel): (gray: uint8)
    ensures WEIGHT_SCALE * gray - WEIGHT_SCALE / 2 <= Luma(p) < WEIGHT_SCALE * gray + WEIGHT_SCALE / 2
  {
    var clamped := ClampInt(Luma(p), 0, 255 * WEIGHT_SCALE);
    (clamped + WEIGHT_SCALE / 2) / WEIGHT_SCALE
  }

  /** The weights sum to one: a neutral gray pixel keeps its level. */
  lemma GrayscaleOfNeutral(v: uint8)
    ensures ToGrayscale(RGBPixel(v, v, v)) == v
  {
    assert Luma(RGBPixel(v, v, v)) == WEIGHT_SCALE * v;
  }

  lemma GrayscaleOfBlackAndWhite()
    ensures ToGrayscale(RGBPixel()) == 0
    ensures ToGrayscale(RGBPixel(255, 255, 255)) == 255
  {
    GrayscaleOfNeutral(0);
    GrayscaleOfNeutral(255);
  }

  /** Brightening any channel never darkens the gray value. */
  lemma GrayscaleMonotone(p: RGBPixel, q: RGBPixel)
    requires p.r <= q.r && p.g <= q.g && p.b <= q.b
    ensures ToGrayscale(p) <= ToGrayscale(q)
  {
  }

  /** The row-major index of an in-range pixel lies inside the pixel vector. */
  lemma {:induction false} IndexInBounds(x: nat, y: nat, width: nat, height: nat)
    requires x < width && y < height
    ensures y * width + x < width * height
  {
    assert y * width + x < y * width + width;
    assert y * width + width == (y + 1) * width;
    assert (y + 1) * width <= height * width by {
      assert y + 1 <= height;
      MultiplyMonotone(y + 1, height, width);
    }
  }

  lemma MultiplyMonotone(a: nat, b: nat, c: nat)
    requires a <= b
    ensures a * c <= b * c
  {
  }

  lemma MultiplyCancel(a: nat, b: nat, c: nat)
    requires a * c < b * c
    ensures a < b
  {
  }

  /** Index `i` of a `width * height` vector is pixel `(i % width, i / width)`. */
  lemma IndexToCoordinates(i: nat, width: nat, height: nat)
    requires i < width * height
    ensures width > 0 && i % width < width && i / width < height
    ensures (i / width) * width + i % width == i
  {
    assert width > 0;
    assert (i / width) * width <= i;
    MultiplyCancel(i / width, height, width);
  }

  /** Pixel `(x, y)` has row-major index `y * width + x`, and back. */
  lemma CoordinatesToIndex(x: nat, y: nat, width: nat)
    requires x < width
    ensures (y * width + x) % width == x
    ensures (y * width + x) / width == y
  {
    var i := y * width + x;
    var q, r := i / width, i % width;
    assert q * width + r == y * width + x;
    assert 0 <= r < width;
    assert q * width < (y + 1) * width;
    MultiplyCancel(q, y + 1, width);
    assert y * width < (q + 1) * width;
    MultiplyCancel(y, q + 1, width);
  }

  /** `std::vector::resize(n)`: keeps the first `n` elements and appends value-initialised ones. */
  function VectorResize<T>(s: seq<T>, n: nat, fill: T): (r: seq<T>)
    ensures |r| == n
    ensures forall i :: 0 <= i < n ==> r[i] == if i < |s| then s[i] else fill
  {
    if n <= |s| then s[..n] else s + seq(n - |s|, _ => fill)
  }

  /** `Image<PixelType>`: a row-major pixel vector with its dimensions.  `blank` stands
      for `PixelType{}` (0 for grayscale, black for RGB), the value of a new pixel and the
      default of `GetPixelSafe`. */
  class Image<T> {
    var data: seq<T>
    var width: nat
    var height: nat
    const blank: T

    /** The class invariant: one stored pixel per coordinate, and either both dimensions
        are zero or neither is. */
    ghost predicate Valid()
      reads this
    {
      |data| == width * height && (width == 0 <==> height == 0)
    }

    /** `Image()`: 0 x 0 and empty. */
    constructor Empty(blank: T)
      ensures Valid() && this.blank == blank
      ensures data == [] && width == 0 && height == 0
    {
      data, width, height := [], 0, 0;
      this.blank := blank;
    }

    /** `Image(width, height)`: `width * height` blank pixels, or `InvalidDimensions`. */
    static method New(width: nat, height: nat, blank: T) returns (r: Result<Image<T>>)
      ensures r.Ok? <==> width > 0 && height > 0
      ensures r.Err? ==> r.error == InvalidDimensions
      ensures r.Ok? ==> fresh(r.value) && r.value.Valid() && r.value.blank == blank
      ensures r.Ok? ==> r.value.width == width && r.value.height == height
      ensures r.Ok? ==> r.value.data == seq(width * height, _ => blank)
    {
      if width == 0 || height == 0 {
        return Err(InvalidDimensions);
      }
      var img := new Image<T>.Empty(blank);
      img.data, img.width, img.height := seq(width * height, _ => blank), width, height;
      r := Ok(img);
    }

    /** `Image(data, width, height)`: adopts `data`, or `InvalidDimensions` when a dimension
        is zero or the length is not `width * height`. */
    static method FromData(data: seq<T>, width: nat, height: nat, blank: T) returns (r: Result<Image<T>>)
      ensures r.Ok? <==> width > 0 && height > 0 && |data| == width * height
      ensures r.Err? ==> r.error == InvalidDimensions
      ensures r.Ok? ==> fresh(r.value) && r.value.Valid() && r.value.blank == blank
      ensures r.Ok? ==> r.value.width == width && r.value.height == height && r.value.data == data
    {
      if width == 0 || height == 0 || |data| != width * height {
        return Err(InvalidDimensions);
      }
      var img := new Image<T>.Empty(blank);
      img.data, img.width, img.height := data, width, height;
      r := Ok(img);
    }

    /** `size()`: the number of stored pixels. */
    function Size(): (n: nat)
      reads this
      requires Valid()
      ensures n == width * height
    {
      |data|
    }

    /** `empty()`: no pixel is stored, which with the invariant means 0 x 0. */
    function IsEmpty(): (e: bool)
      reads this
      requires Valid()
      ensures e <==> Size() == 0
      ensures e <==> width == 0 && height == 0
    {
      |data| == 0
    }

    /** `at(x, y)`: the pixel at `(x, y)`, or `OutOfRange`. */
    function At(x: nat, y: nat): (r: Result<T>)
      reads this
      requires Valid()
      ensures r.Ok? <==> x < width && y < height
      ensures r.Err? ==> r.error == OutOfRange
      ensures r.Ok? ==> y * width + x < |data| && r.value == data[y * width + x]
    {
      if x >= width || y >= height then Err(OutOfRange)
      else
        IndexInBounds(x, y, width, height);
        Ok(data[y * width + x])
    }

    /** `getPixelSafe(x, y, default)`: never fails; `defaultValue` for any coordinate
        outside the image, negative ones included. */
    function GetPixelSafe(x: int, y: int, defaultValue: T := blank): (p: T)
      reads this
      requires Valid()
      ensures 0 <= x < width && 0 <= y < height ==> y * width + x < |data| && p == data[y * width + x]
      ensures !(0 <= x < width && 0 <= y < height) ==> p == defaultValue
    {
      if x < 0 || y < 0 || x >= width || y >= height then defaultValue
      else
        IndexInBounds(x, y, width, height);
        data[y * width + x]
    }

    /** `setPixel(x, y, pixel)`: replaces exactly the pixel at `(x, y)`, or `OutOfRange`
        with nothing changed.  It also models assignment through the mutable `at`. */
    method SetPixel(x: nat, y: nat, pixel: T) returns (r: Outcome)
      requires Valid()
      modifies this`data
      ensures Valid()
      ensures r == if x < width && y < height then Pass else Fail(OutOfRange)
      ensures r.Pass? ==> y * width + x < |old(data)| && data == old(data)[y * width + x := pixel]
      ensures r.Fail? ==> data == old(data)
    {
      if x >= width || y >= height {
        return Fail(OutOfRange);
      }
      IndexInBounds(x, y, width, height);
      data := data[y * width + x := pixel];
      r := Pass;
    }

    /** `clear()`: back to 0 x 0. */
    method Clear()
      requires Valid()
      modifies this
      ensures Valid() && data == [] && width == 0 && height == 0
    {
      data, width, height := [], 0, 0;
    }

    /** `resize(w, h)`: new dimensions and `data_.resize(w * h)`, or `InvalidDimensions`
        with nothing changed. */
    method Resize(w: nat, h: nat) returns (r: Outcome)
      requires Valid()
      modifies this
      ensures Valid()
      ensures r == if w > 0 && h > 0 then Pass else Fail(InvalidDimensions)
      ensures r.Pass? ==> width == w && height == h && data == VectorResize(old(data), w * h, blank)
      ensures r.Fail? ==> width == old(width) && height == old(height) && data == old(data)
    {
      if w == 0 || h == 0 {
        return Fail(InvalidDimensions);
      }
      width, height := w, h;
      data := VectorResize(data, w * h, blank);
      r := Pass;
    }
  }

  type RGBImage = Image<RGBPixel>
  type GrayscaleImage = Image<uint8>

  /** A pixel read through `at` and through `getPixelSafe` agree inside the image, and
      `getPixelSafe` falls back to its default exactly where `at` fails. */
  lemma SafeAccessAgreesWithAt<T>(img: Image<T>, x: nat, y: nat, d: T)
    requires img.Valid()
    ensures img.At(x, y).Ok? ==> img.GetPixelSafe(x, y, d) == img.At(x, y).value
    ensures img.At(x, y).Err? ==> img.GetPixelSafe(x, y, d) == d
  {
  }
}
