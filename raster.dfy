/** RGBA pixel buffers as the canvas API exposes them: four bytes per pixel,
    rows of `width` pixels, top row first. Offsets are written with `Times`
    so that proofs about a buffer stay in linear arithmetic; the lemmas
    `PixelBaseIsProduct` and `SizedIsProduct` give them as plain products. */
module Raster {
  import opened Common

  predicate IsByte(v: int) { 0 <= v <= 255 }

  /** Every entry of the buffer is a byte (an `Uint8ClampedArray`). */
  predicate IsByteBuffer(a: seq<int>)
  {
    forall i :: 0 <= i < |a| ==> IsByte(a[i])
  }

  /** The index of the first byte of row y: `y * width * 4`. */
  function RowStart(width: nat, y: nat): int
  {
    Times(y, 4 * width)
  }

  /** The index of the red byte of pixel (x, y): `(y * width + x) * 4`. */
  function PixelBase(width: nat, x: nat, y: nat): int
  {
    RowStart(width, y) + 4 * x
  }

  /** The buffer holds exactly `width`×`height` RGBA pixels. */
  predicate Sized(data: seq<int>, width: nat, height: nat)
  {
    |data| == RowStart(width, height)
  }

  lemma PixelBaseIsProduct(width: nat, x: nat, y: nat)
    ensures RowStart(width, y) == y * width * 4
    ensures PixelBase(width, x, y) == (y * width + x) * 4
  {
    TimesIsProduct(y, 4 * width);
  }

  lemma SizedIsProduct(data: seq<int>, width: nat, height: nat)
    ensures Sized(data, width, height) <==> |data| == width * height * 4
  {
    TimesIsProduct(height, 4 * width);
  }

  /** A pixel inside the picture has its four bytes inside the buffer. */
  lemma PixelInBounds(data: seq<int>, width: nat, height: nat, x: nat, y: nat)
    requires Sized(data, width, height) && x < width && y < height
    ensures 0 <= PixelBase(width, x, y) && PixelBase(width, x, y) + 3 < |data|
  {
    TimesGrows(0, y, 4 * width);
    TimesGrows(y + 1, height, 4 * width);
    TimesAdd(y, 1, 4 * width);
  }

  /** Four rows further down the rows start `16·width` bytes later. */
  lemma RowStartStep(width: nat, y: nat, next: nat)
    requires next == y + 4
    ensures RowStart(width, next) == RowStart(width, y) + 16 * width
  {
    TimesAdd(y, 4, 4 * width);
    TimesIsProduct(4, 4 * width);
  }

  /** Row and column of a pixel are recovered from its linear index. */
  lemma PixelCoords(width: nat, x: nat, y: nat)
    requires x < width
    ensures (y * width + x) / width == y
    ensures (y * width + x) % width == x
  {
    DivModUnique(y * width + x, width, y, x);
  }

  lemma MulMonotone(a: nat, b: nat, c: nat)
    requires a <= b
    ensures a * c <= b * c
  {
  }

  lemma DivModUnique(p: int, d: int, q: int, r: int)
    requires d > 0 && p == q * d + r && 0 <= r < d
    ensures p / d == q && p % d == r
  {
    var q', r' := p / d, p % d;
    assert p == q' * d + r';
    assert (q - q') * d == r' - r;
    if q > q' {
      MulMonotone(1, q - q', d);
      assert false;
    } else if q < q' {
      MulMonotone(1, q' - q, d);
      assert false;
    }
  }

  /** The pixel and the channel of a byte index. */
  lemma ByteCoords(p: nat, c: nat)
    requires c < 4
    ensures (p * 4 + c) / 4 == p && (p * 4 + c) % 4 == c
  {
  }
}
