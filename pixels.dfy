/// The canvas pixel buffer: the RGBA bytes that `getImageData` hands to the
/// sampling pass, four bytes per pixel, rows stored top to bottom.
module Pixels {

  /** One channel value of a `Uint8ClampedArray`. */
  type Byte = b: int | 0 <= b < 256

  /** A particle's fill colour (the source formats it as `rgb(r, g, b)`). */
  datatype Rgb = Rgb(red: Byte, green: Byte, blue: Byte)

  /** Bytes per pixel: red, green, blue, alpha. */
  const BytesPerPixel: nat := 4

  /** A buffer read from a `width` x `height` canvas. */
  predicate IsCanvasBuffer(pixels: seq<Byte>, width: nat, height: nat)
  {
    |pixels| == width * height * BytesPerPixel
  }

  /** Byte offset of pixel (x, y): `(y * width + x) * 4`. */
  function Offset(width: nat, x: int, y: int): int
  {
    (y * width + x) * BytesPerPixel
  }

  /** Every channel of an in-canvas pixel lies inside the buffer. */
  lemma IndexInBounds(width: nat, height: nat, x: int, y: int)
    requires 0 <= x < width && 0 <= y < height
    ensures 0 <= Offset(width, x, y)
    ensures Offset(width, x, y) + 3 < width * height * BytesPerPixel
  {
    assert y * width + x < (y + 1) * width;
    assert (y + 1) * width <= height * width;
  }

  /** The alpha byte of pixel (x, y). */
  function Alpha(pixels: seq<Byte>, width: nat, height: nat, x: int, y: int): Byte
    requires IsCanvasBuffer(pixels, width, height)
    requires 0 <= x < width && 0 <= y < height
  {
    IndexInBounds(width, height, x, y);
    pixels[Offset(width, x, y) + 3]
  }

  /** The red, green and blue bytes of pixel (x, y). */
  function ColorAt(pixels: seq<Byte>, width: nat, height: nat, x: int, y: int): Rgb
    requires IsCanvasBuffer(pixels, width, height)
    requires 0 <= x < width && 0 <= y < height
  {
    IndexInBounds(width, height, x, y);
    var index := Offset(width, x, y);
    Rgb(pixels[index], pixels[index + 1], pixels[index + 2])
  }
}
