/** `createNormalMap` (app/components/ARClient.tsx): a normal map for the
    layered picture from the Sobel gradient of its red channel, and the
    picture's average luminance, which sets the renderer's exposure. */
module ArNormalMap {
  import opened Common
  import opened Raster
  import opened ArMath

  // ---------------------------------------------------------------------------
  // Where a byte sits

  /** Column and row of the pixel holding byte j of a `width`-wide buffer. */
  function ColumnOf(width: nat, j: int): int
    requires width > 0
  {
    (j / 4) % width
  }

  function RowOf(width: nat, j: int): int
    requires width > 0
  {
    (j / 4) / width
  }

  /** A pixel with a neighbour on every side. */
  predicate Interior(width: nat, height: nat, x: int, y: int)
  {
    1 <= x < width - 1 && 1 <= y < height - 1
  }

  predicate InteriorByte(width: nat, height: nat, j: int)
  {
    width > 0 && Interior(width, height, ColumnOf(width, j), RowOf(width, j))
  }

  lemma Decode(width: nat, x: nat, y: nat, c: nat)
    requires x < width && c < 4
    ensures var j := PixelBase(width, x, y) + c;
      j % 4 == c && ColumnOf(width, j) == x && RowOf(width, j) == y
  {
    PixelBaseIsProduct(width, x, y);
    ByteCoords(y * width + x, c);
    PixelCoords(width, x, y);
  }

  // ---------------------------------------------------------------------------
  // The normal map

  /** `sobel(x, y)`: the red byte of a pixel as a fraction of 255. */
  function Red(data: seq<int>, width: nat, x: nat, y: nat): real
  {
    var i := PixelBase(width, x, y);
    if 0 <= i < |data| then data[i] as real / 255.0 else 0.0
  }

  /** The horizontal Sobel gradient at an interior pixel, left minus
      right. */
  function GradX(data: seq<int>, width: nat, x: nat, y: nat): real
    requires x >= 1 && y >= 1
  {
    Red(data, width, x - 1, y - 1) + 2.0 * Red(data, width, x - 1, y) + Red(data, width, x - 1, y + 1)
    - Red(data, width, x + 1, y - 1) - 2.0 * Red(data, width, x + 1, y) - Red(data, width, x + 1, y + 1)
  }

  /** The vertical Sobel gradient at an interior pixel, top minus bottom. */
  function GradY(data: seq<int>, width: nat, x: nat, y: nat): real
    requires x >= 1 && y >= 1
  {
    Red(data, width, x - 1, y - 1) + 2.0 * Red(data, width, x, y - 1) + Red(data, width, x + 1, y - 1)
    - Red(data, width, x - 1, y + 1) - 2.0 * Red(data, width, x, y + 1) - Red(data, width, x + 1, y + 1)
  }

  /** A gradient turned into a normal-map channel:
      `Math.floor(clamp(0.5 - g * 0.5, 0, 1) * 255)`. */
  function NormalChannel(g: real): (r: int)
    ensures IsByte(r)
    ensures g == 0.0 ==> r == 127
    ensures g >= 1.0 ==> r == 0
    ensures g <= -1.0 ==> r == 255
  {
    Floor(Clamp(0.5 - g * 0.5, 0.0, 1.0) * 255.0)
  }

  /** What the first loop writes for byte j: a flat normal (128, 128, 255)
      with the picture's alpha. */
  function Flat(data: seq<int>, j: int): int
    requires 0 <= j < |data|
  {
    var c := j % 4;
    if c == 0 || c == 1 then 128 else if c == 2 then 255 else data[j]
  }

  /** Byte j of the finished normal map: interior pixels carry the
      gradients in red and green, blue 255 and the picture's alpha; border
      pixels keep the flat normal. */
  function NormalByte(data: seq<int>, width: nat, height: nat, j: int): int
    requires 0 <= j < |data| && width > 0
  {
    var c := j % 4;
    if c >= 2 || !InteriorByte(width, height, j) then Flat(data, j)
    else
      var x, y := ColumnOf(width, j), RowOf(width, j);
      if c == 0 then NormalChannel(GradX(data, width, x, y)) else NormalChannel(GradY(data, width, x, y))
  }

  /** The luminance of the pixel whose first byte is i, in [0, 1] for
      bytes. */
  function Luminance(data: seq<int>, i: nat): real
    requires i + 2 < |data|
  {
    (data[i] + data[i + 1] + data[i + 2]) as real / (3.0 * 255.0)
  }

  /** The luminances of the pixels in the first `i` bytes, added up. */
  function LuminanceTotal(data: seq<int>, i: nat): real
    requires i <= |data|
  {
    if i < 4 then 0.0 else LuminanceTotal(data, i - 4) + Luminance(data, i - 4)
  }

  /** `luminanceTotal / (data.length / 4)`; for no pixels there is no
      average. */
  function AverageLuminance(data: seq<int>): (r: Option<real>)
    ensures r.Some? <==> |data| > 0
  {
    if |data| == 0 then None else Some(LuminanceTotal(data, |data|) / (|data| as real / 4.0))
  }

  /** `createNormalMap`. `data` is what `getImageData` returns for the
      picture. Without a 2D context the map is empty and the luminance
      0.5; a picture with no pixels cannot be read (`getImageData` refuses
      an empty rectangle), which is `None`. */
  method CreateNormalMap(data: seq<int>, width: nat, height: nat, hasContext: bool)
    returns (normal: array<int>, avgLuminance: Option<real>)
    requires Sized(data, width, height)
    ensures !hasContext ==> normal.Length == 0 && avgLuminance == Some(0.5)
    ensures hasContext && (width == 0 || height == 0) ==> normal.Length == 0 && avgLuminance == None
    ensures hasContext && width > 0 && height > 0 ==>
      && normal.Length == |data|
      && (forall j :: 0 <= j < |data| ==> normal[j] == NormalByte(data, width, height, j))
      && avgLuminance == AverageLuminance(data)
  {
    if !hasContext {
      normal := new int[0];
      return normal, Some(0.5);
    }
    if width == 0 || height == 0 {
      normal := new int[0];
      return normal, None;
    }
    SizedPixels(data, width, height);
    normal := new int[|data|];
    var total := FillFlat(normal, data);
    FilledAtStart(normal[..], data, width, height);
    var y := 1;
    while y < height - 1
      invariant 1 <= y && (height >= 2 ==> y <= height - 1)
      invariant normal.Length == |data|
      invariant Filled(normal[..], data, width, height, PixelBase(width, 1, y))
    {
      var x := 1;
      while x < width - 1
        invariant 1 <= x <= width && (width >= 2 ==> x <= width - 1)
        invariant normal.Length == |data|
        invariant Filled(normal[..], data, width, height, PixelBase(width, x, y))
      {
        var nextX := x + 1;
        ShadeInteriorPixel(normal, data, width, height, x, y, nextX);
        x := nextX;
      }
      var nextY := y + 1;
      FillRowGap(normal[..], data, width, height, x, y, nextY);
      y := nextY;
    }
    FilledAtEnd(normal[..], data, width, height, y);
    assert |data| > 0 by {
      PixelInBounds(data, width, height, 0, 0);
    }
    avgLuminance := Some(total / (|data| as real / 4.0));
  }

  /** The first loop: every pixel gets the flat normal and keeps its alpha,
      and the luminances of all pixels are summed. */
  method FillFlat(normal: array<int>, data: seq<int>) returns (total: real)
    requires normal.Length == |data| && |data| % 4 == 0
    modifies normal
    ensures total == LuminanceTotal(data, |data|)
    ensures forall j :: 0 <= j < |data| ==> normal[j] == Flat(data, j)
  {
    total := 0.0;
    var i := 0;
    while i < |data|
      invariant 0 <= i <= |data| && i % 4 == 0
      invariant total == LuminanceTotal(data, i)
      invariant forall j :: 0 <= j < i ==> normal[j] == Flat(data, j)
    {
      NextPixel(i, |data|);
      total := total + (data[i] + data[i + 1] + data[i + 2]) as real / (3.0 * 255.0);
      normal[i] := 128;
      normal[i + 1] := 128;
      normal[i + 2] := 255;
      normal[i + 3] := data[i + 3];
      i := i + 4;
    }
  }

  /** The body of the second loop for the interior pixel (x, y): the
      Sobel gradients of the red channel around it become its red and green
      bytes. */
  method ShadeInteriorPixel(normal: array<int>, data: seq<int>, width: nat, height: nat, x: nat, y: nat, nextX: nat)
    requires Sized(data, width, height) && Interior(width, height, x, y) && nextX == x + 1
    requires Filled(normal[..], data, width, height, PixelBase(width, x, y))
    modifies normal
    ensures Filled(normal[..], data, width, height, PixelBase(width, nextX, y))
  {
    var idx := PixelBase(width, x, y);
    PixelInBounds(data, width, height, x, y);
    var dx := Red(data, width, x - 1, y - 1) + 2.0 * Red(data, width, x - 1, y) + Red(data, width, x - 1, y + 1)
      - Red(data, width, x + 1, y - 1) - 2.0 * Red(data, width, x + 1, y) - Red(data, width, x + 1, y + 1);
    var dy := Red(data, width, x - 1, y - 1) + 2.0 * Red(data, width, x, y - 1) + Red(data, width, x + 1, y - 1)
      - Red(data, width, x - 1, y + 1) - 2.0 * Red(data, width, x, y + 1) - Red(data, width, x + 1, y + 1);
    var nx := Clamp(0.5 - dx * 0.5, 0.0, 1.0);
    var ny := Clamp(0.5 - dy * 0.5, 0.0, 1.0);
    var red, green := Floor(nx * 255.0), Floor(ny * 255.0);
    ghost var before := normal[..];
    normal[idx] := red;
    normal[idx + 1] := green;
    normal[idx + 2] := 255;
    normal[idx + 3] := data[idx + 3];
    FillPixel(before, normal[..], data, width, height, x, y, nextX, red, green);
  }

  /** The bytes before `cur` hold their final value, the others the flat
      normal of the first loop. */
  ghost predicate Filled(n: seq<int>, data: seq<int>, width: nat, height: nat, cur: int)
    requires width > 0
  {
    |n| == |data| &&
    forall j :: 0 <= j < |data| ==> n[j] == if j < cur then NormalByte(data, width, height, j) else Flat(data, j)
  }

  lemma FilledAtStart(n: seq<int>, data: seq<int>, width: nat, height: nat)
    requires width > 0 && |n| == |data|
    requires forall j :: 0 <= j < |data| ==> n[j] == Flat(data, j)
    ensures Filled(n, data, width, height, PixelBase(width, 1, 1))
  {
    BeforeFirstInterior(data, width, height);
  }

  /** Writing one interior pixel moves the filled prefix past it. */
  lemma FillPixel(before: seq<int>, after: seq<int>, data: seq<int>, width: nat, height: nat,
                  x: nat, y: nat, nextX: nat, red: int, green: int)
    requires Sized(data, width, height) && Interior(width, height, x, y) && nextX == x + 1
    requires Filled(before, data, width, height, PixelBase(width, x, y))
    requires red == NormalChannel(GradX(data, width, x, y)) && green == NormalChannel(GradY(data, width, x, y))
    requires var idx := PixelBase(width, x, y);
      0 <= idx && idx + 3 < |before| &&
      after == before[idx := red][idx + 1 := green][idx + 2 := 255][idx + 3 := data[idx + 3]]
    ensures Filled(after, data, width, height, PixelBase(width, nextX, y))
  {
    var idx := PixelBase(width, x, y);
    InteriorStep(data, width, height, x, y, idx);
    assert PixelBase(width, nextX, y) == idx + 4;
  }

  lemma FillRowGap(n: seq<int>, data: seq<int>, width: nat, height: nat, x: nat, y: nat, nextY: nat)
    requires width > 0 && 1 <= x && width - 1 <= x <= width && nextY == y + 1
    requires Filled(n, data, width, height, PixelBase(width, x, y))
    ensures Filled(n, data, width, height, PixelBase(width, 1, nextY))
  {
    RowGap(data, width, height, x, y, nextY);
  }

  lemma FilledAtEnd(n: seq<int>, data: seq<int>, width: nat, height: nat, y: nat)
    requires width > 0 && 1 <= y && y >= height - 1
    requires Filled(n, data, width, height, PixelBase(width, 1, y))
    ensures forall j :: 0 <= j < |data| ==> n[j] == NormalByte(data, width, height, j)
  {
    AfterLastInterior(data, width, height, y);
  }

  // ---------------------------------------------------------------------------
  // The loop's steps

  /** The buffer holds a whole number of pixels. */
  lemma SizedPixels(data: seq<int>, width: nat, height: nat)
    requires Sized(data, width, height)
    ensures |data| % 4 == 0
  {
    SizedIsProduct(data, width, height);
    assert |data| == (width * height) * 4;
  }

  /** The bytes of an interior pixel, as the second loop writes them. */
  lemma InteriorStep(data: seq<int>, width: nat, height: nat, x: nat, y: nat, idx: int)
    requires Sized(data, width, height) && Interior(width, height, x, y) && idx == PixelBase(width, x, y)
    ensures 0 <= idx && idx + 3 < |data|
    ensures NormalByte(data, width, height, idx) == NormalChannel(GradX(data, width, x, y))
    ensures NormalByte(data, width, height, idx + 1) == NormalChannel(GradY(data, width, x, y))
    ensures NormalByte(data, width, height, idx + 2) == 255
    ensures NormalByte(data, width, height, idx + 3) == data[idx + 3]
  {
    PixelInBounds(data, width, height, x, y);
    Decode(width, x, y, 0);
    Decode(width, x, y, 1);
    Decode(width, x, y, 2);
    Decode(width, x, y, 3);
  }

  /** Bytes before the first interior pixel, (1, 1), are border bytes. */
  lemma BeforeFirstInterior(data: seq<int>, width: nat, height: nat)
    requires width > 0
    ensures forall j :: 0 <= j < |data| && j < PixelBase(width, 1, 1) ==> NormalByte(data, width, height, j) == Flat(data, j)
  {
    forall j | 0 <= j < |data| && j < PixelBase(width, 1, 1)
      ensures NormalByte(data, width, height, j) == Flat(data, j)
    {
      PixelBaseIsProduct(width, 1, 1);
      var p := j / 4;
      if p < width {
        DivModUnique(p, width, 0, p);
      } else {
        DivModUnique(p, width, 1, 0);
      }
    }
  }

  /** The bytes from the end of an interior row to the start of the next
      one are border bytes: the last pixel of the row and the first of the
      next. */
  lemma RowGap(data: seq<int>, width: nat, height: nat, x: nat, y: nat, nextY: nat)
    requires width > 0 && 1 <= x && width - 1 <= x <= width && nextY == y + 1
    ensures forall j :: 0 <= j < |data| && PixelBase(width, x, y) <= j < PixelBase(width, 1, nextY) ==>
      NormalByte(data, width, height, j) == Flat(data, j)
  {
    forall j | 0 <= j < |data| && PixelBase(width, x, y) <= j < PixelBase(width, 1, nextY)
      ensures NormalByte(data, width, height, j) == Flat(data, j)
    {
      PixelBaseIsProduct(width, x, y);
      PixelBaseIsProduct(width, 1, nextY);
      var p := j / 4;
      assert y * width + x <= p <= nextY * width;
      if p < nextY * width {
        DivModUnique(p, width, y, p - y * width);
      } else {
        DivModUnique(p, width, nextY, 0);
      }
    }
  }

  /** Bytes from the first pixel of the last row on are border bytes. */
  lemma AfterLastInterior(data: seq<int>, width: nat, height: nat, y: nat)
    requires width > 0 && 1 <= y && y >= height - 1
    ensures forall j :: 0 <= j < |data| && j >= PixelBase(width, 1, y) ==> NormalByte(data, width, height, j) == Flat(data, j)
  {
    forall j | 0 <= j < |data| && j >= PixelBase(width, 1, y)
      ensures NormalByte(data, width, height, j) == Flat(data, j)
    {
      PixelBaseIsProduct(width, 1, y);
      var p := j / 4;
      var q, r := p / width, p % width;
      assert p == q * width + r;
      if q < y {
        MulMonotone(q + 1, y, width);
        assert false;
      }
    }
  }

  // ---------------------------------------------------------------------------
  // Properties

  /** Every byte of the map is a byte; border pixels keep the flat normal
      (128, 128, 255) and alpha; an interior pixel whose gradient vanishes
      gets 127, one below the border's value. */
  lemma NormalMapBytes(data: seq<int>, width: nat, height: nat, j: int)
    requires 0 <= j < |data| && width > 0 && IsByteBuffer(data)
    ensures IsByte(NormalByte(data, width, height, j))
    ensures !InteriorByte(width, height, j) ==> NormalByte(data, width, height, j) == Flat(data, j)
    ensures j % 4 == 2 ==> NormalByte(data, width, height, j) == 255
    ensures j % 4 == 3 ==> NormalByte(data, width, height, j) == data[j]
    ensures InteriorByte(width, height, j) && j % 4 == 0 && GradX(data, width, ColumnOf(width, j), RowOf(width, j)) == 0.0 ==>
      NormalByte(data, width, height, j) == 127
    ensures InteriorByte(width, height, j) && j % 4 == 1 && GradY(data, width, ColumnOf(width, j), RowOf(width, j)) == 0.0 ==>
      NormalByte(data, width, height, j) == 127
  {
    assert IsByte(data[j]);
  }

  /** In a region whose red channel is even (the pixel and its eight
      neighbours share one red value) both gradients vanish. */
  lemma EvenRegionIsFlat(data: seq<int>, width: nat, x: nat, y: nat, v: real)
    requires x >= 1 && y >= 1
    requires forall a: nat, b: nat :: x - 1 <= a <= x + 1 && y - 1 <= b <= y + 1 ==> Red(data, width, a, b) == v
    ensures GradX(data, width, x, y) == 0.0 && GradY(data, width, x, y) == 0.0
  {
  }

  /** A picture's luminances add up to at most one per pixel. */
  lemma {:induction false} LuminanceTotalBounds(data: seq<int>, i: nat)
    requires i <= |data| && IsByteBuffer(data)
    ensures 0.0 <= LuminanceTotal(data, i) <= (i / 4) as real
  {
    if i >= 4 {
      LuminanceTotalBounds(data, i - 4);
      assert IsByte(data[i - 4]) && IsByte(data[i - 3]) && IsByte(data[i - 2]);
    }
  }

  /** The average luminance of a picture lies in [0, 1]. */
  lemma AverageLuminanceBounds(data: seq<int>)
    requires |data| % 4 == 0 && IsByteBuffer(data)
    ensures var r := AverageLuminance(data); r.Some? ==> 0.0 <= r.value <= 1.0
  {
    if |data| == 0 {
      return;
    }
    LuminanceTotalBounds(data, |data|);
    var n := |data| as real / 4.0;
    assert n == (|data| / 4) as real;
    DivLeReal(LuminanceTotal(data, |data|), 1.0, n);
  }

  /** The renderer's tone-mapping exposure: brighter pictures get less
      exposure, within [0.8, 1.4]. */
  function Exposure(avgLuminance: real): (r: real)
    ensures 0.8 <= r <= 1.4
    ensures 0.3 <= avgLuminance <= 0.9 ==> r == 1.7 - avgLuminance
  {
    Clamp(1.1 + (0.6 - avgLuminance), 0.8, 1.4)
  }
}
