/** `app/components/QuickLookButton.tsx`: the picture work done before a
    USDZ model is exported for iOS Quick Look. The background colour is
    estimated from the four corners, pixels close to it are made
    transparent and semi-transparent ones are un-composited against it,
    and the alpha channel is copied into a separate grey texture. Finally
    the uploaded model's URL is probed until it answers. Canvas objects,
    three.js and the exporter are outside the model: the canvas pixels are
    an `array<int>` of RGBA bytes. */
module QuickLook {
  import opened Common
  import opened Raster

  datatype Colour = Colour(r: real, g: real, b: real)

  // ---------------------------------------------------------------------------
  // Sampling the corners

  /** `Math.max(6, Math.floor(Math.min(width, height) * 0.04))`: the side of
      each corner square. */
  function CornerSize(width: nat, height: nat): (size: nat)
    ensures size >= 6
    ensures MinInt(width, height) >= 6 ==> size <= width && size <= height
  {
    var m := MinInt(width, height);
    var f := Floor(m as real * 0.04);
    assert f as real <= m as real;
    MaxInt(6, f)
  }

  /** Channel c summed over pixels x0 .. x0 + n - 1 of row y. */
  function RowSum(data: seq<int>, width: nat, height: nat, x0: nat, y: nat, n: nat, c: nat): int
    requires Sized(data, width, height) && y < height && x0 + n <= width && c < 4
  {
    if n == 0 then 0
    else
      PixelInBounds(data, width, height, x0 + n - 1, y);
      RowSum(data, width, height, x0, y, n - 1, c) + data[PixelBase(width, x0 + n - 1, y) + c]
  }

  /** Channel c summed over the rows y0 .. y0 + rows - 1 of the square's
      columns x0 .. x0 + n - 1. */
  function SquareSum(data: seq<int>, width: nat, height: nat, x0: nat, y0: nat, rows: nat, n: nat, c: nat): int
    requires Sized(data, width, height) && y0 + rows <= height && x0 + n <= width && c < 4
  {
    if rows == 0 then 0
    else SquareSum(data, width, height, x0, y0, rows - 1, n, c) + RowSum(data, width, height, x0, y0 + rows - 1, n, c)
  }

  /** The top-left pixels of the four corner squares, in the order the
      source lists them. */
  function Corners(width: nat, height: nat, size: nat): (cs: seq<(nat, nat)>)
    requires size <= width && size <= height
    ensures |cs| == 4
    ensures forall k :: 0 <= k < 4 ==> cs[k].0 + size <= width && cs[k].1 + size <= height
  {
    [(0, 0), (width - size, 0), (0, height - size), (width - size, height - size)]
  }

  /** Channel c summed over the first k corner squares. */
  function CornersSum(data: seq<int>, width: nat, height: nat, size: nat, k: nat, c: nat): int
    requires Sized(data, width, height) && size <= width && size <= height && k <= 4 && c < 4
  {
    if k == 0 then 0
    else
      var corner := Corners(width, height, size)[k - 1];
      CornersSum(data, width, height, size, k - 1, c) + SquareSum(data, width, height, corner.0, corner.1, size, size, c)
  }

  /** How many pixels are sampled: four squares of `size`×`size`. */
  function SampleCount(size: nat): int
  {
    Times(4, Times(size, size))
  }

  /** The background colour `sampleCornerColor` reports: the mean of each
      colour channel over the four corner squares. */
  function CornerMean(data: seq<int>, width: nat, height: nat): (bg: Colour)
    requires Sized(data, width, height) && width >= 6 && height >= 6
  {
    var size := CornerSize(width, height);
    var count := SampleCount(size) as real;
    SampleCountPositive(size);
    Colour(CornersSum(data, width, height, size, 4, 0) as real / count,
           CornersSum(data, width, height, size, 4, 1) as real / count,
           CornersSum(data, width, height, size, 4, 2) as real / count)
  }

  /** Exactly 4·size² samples are taken, so the division is by a positive
      number. */
  lemma SampleCountPositive(size: nat)
    requires size >= 6
    ensures SampleCount(size) == 4 * size * size > 0
  {
    TimesIsProduct(size, size);
    TimesIsProduct(4, Times(size, size));
  }

  /** `sampleCornerColor`. The corner squares lie inside the picture only
      when both sides are at least 6 pixels, which is what the source
      relies on. */
  method SampleCornerColor(data: array<int>, width: nat, height: nat) returns (bg: Colour)
    requires Sized(data[..], width, height) && width >= 6 && height >= 6
    ensures bg == CornerMean(data[..], width, height)
  {
    var size := MaxInt(6, Floor(MinInt(width, height) as real * 0.04));
    assert size == CornerSize(width, height);
    var corners := [(0, 0), (width - size, 0), (0, height - size), (width - size, height - size)];
    assert corners == Corners(width, height, size);
    var totalR, totalG, totalB, count := 0, 0, 0, 0;
    var k := 0;
    while k < 4
      invariant 0 <= k <= 4
      invariant totalR == CornersSum(data[..], width, height, size, k, 0)
      invariant totalG == CornersSum(data[..], width, height, size, k, 1)
      invariant totalB == CornersSum(data[..], width, height, size, k, 2)
      invariant count == Times(k, Times(size, size))
    {
      var corner := corners[k];
      totalR, totalG, totalB, count := AddCorner(data, width, height, corner.0, corner.1, size, totalR, totalG, totalB, count);
      var next := k + 1;
      TimesAdd(k, 1, Times(size, size));
      k := next;
    }
    SampleCountPositive(size);
    bg := Colour(totalR as real / count as real, totalG as real / count as real, totalB as real / count as real);
  }

  /** The body of the `forEach` over the corners: adds one square's
      channels to the running totals and its pixel count to `count`. */
  method AddCorner(data: array<int>, width: nat, height: nat, x0: nat, y0: nat, size: nat,
                   totalR: int, totalG: int, totalB: int, count: int)
    returns (r: int, g: int, b: int, n: int)
    requires Sized(data[..], width, height) && x0 + size <= width && y0 + size <= height
    ensures r == totalR + SquareSum(data[..], width, height, x0, y0, size, size, 0)
    ensures g == totalG + SquareSum(data[..], width, height, x0, y0, size, size, 1)
    ensures b == totalB + SquareSum(data[..], width, height, x0, y0, size, size, 2)
    ensures n == count + Times(size, size)
  {
    r, g, b, n := totalR, totalG, totalB, count;
    var y := y0;
    while y < y0 + size
      invariant y0 <= y <= y0 + size
      invariant r == totalR + SquareSum(data[..], width, height, x0, y0, y - y0, size, 0)
      invariant g == totalG + SquareSum(data[..], width, height, x0, y0, y - y0, size, 1)
      invariant b == totalB + SquareSum(data[..], width, height, x0, y0, y - y0, size, 2)
      invariant n == count + Times(y - y0, size)
    {
      var x := x0;
      while x < x0 + size
        invariant x0 <= x <= x0 + size
        invariant r == totalR + SquareSum(data[..], width, height, x0, y0, y - y0, size, 0) + RowSum(data[..], width, height, x0, y, x - x0, 0)
        invariant g == totalG + SquareSum(data[..], width, height, x0, y0, y - y0, size, 1) + RowSum(data[..], width, height, x0, y, x - x0, 1)
        invariant b == totalB + SquareSum(data[..], width, height, x0, y0, y - y0, size, 2) + RowSum(data[..], width, height, x0, y, x - x0, 2)
        invariant n == count + Times(y - y0, size) + (x - x0)
      {
        PixelInBounds(data[..], width, height, x, y);
        var idx := PixelBase(width, x, y);
        r := r + data[idx];
        g := g + data[idx + 1];
        b := b + data[idx + 2];
        n := n + 1;
        x := x + 1;
      }
      var next := y + 1;
      TimesAdd(y - y0, 1, size);
      y := next;
    }
  }

  /** With bytes in the buffer every channel sum lies between 0 and 255 per
      sample. */
  lemma {:induction false} RowSumBounds(data: seq<int>, width: nat, height: nat, x0: nat, y: nat, n: nat, c: nat)
    requires Sized(data, width, height) && y < height && x0 + n <= width && c < 4 && IsByteBuffer(data)
    ensures 0 <= RowSum(data, width, height, x0, y, n, c) <= 255 * n
  {
    if n > 0 {
      RowSumBounds(data, width, height, x0, y, n - 1, c);
      PixelInBounds(data, width, height, x0 + n - 1, y);
    }
  }

  lemma {:induction false} SquareSumBounds(data: seq<int>, width: nat, height: nat, x0: nat, y0: nat, rows: nat, n: nat, c: nat)
    requires Sized(data, width, height) && y0 + rows <= height && x0 + n <= width && c < 4 && IsByteBuffer(data)
    ensures 0 <= SquareSum(data, width, height, x0, y0, rows, n, c) <= 255 * Times(rows, n)
  {
    if rows > 0 {
      SquareSumBounds(data, width, height, x0, y0, rows - 1, n, c);
      RowSumBounds(data, width, height, x0, y0 + rows - 1, n, c);
    }
  }

  lemma {:induction false} CornersSumBounds(data: seq<int>, width: nat, height: nat, size: nat, k: nat, c: nat)
    requires Sized(data, width, height) && size <= width && size <= height && k <= 4 && c < 4 && IsByteBuffer(data)
    ensures 0 <= CornersSum(data, width, height, size, k, c) <= 255 * Times(k, Times(size, size))
  {
    if k > 0 {
      CornersSumBounds(data, width, height, size, k - 1, c);
      var corner := Corners(width, height, size)[k - 1];
      SquareSumBounds(data, width, height, corner.0, corner.1, size, size, c);
    }
  }

  /** The estimated background is a colour: each channel mean lies in
      [0, 255]. */
  lemma CornerMeanBounds(data: seq<int>, width: nat, height: nat)
    requires Sized(data, width, height) && width >= 6 && height >= 6 && IsByteBuffer(data)
    ensures var bg := CornerMean(data, width, height);
      && 0.0 <= bg.r <= 255.0 && 0.0 <= bg.g <= 255.0 && 0.0 <= bg.b <= 255.0
  {
    var size := CornerSize(width, height);
    var count := SampleCount(size);
    SampleCountPositive(size);
    CornersSumBounds(data, width, height, size, 4, 0);
    CornersSumBounds(data, width, height, size, 4, 1);
    CornersSumBounds(data, width, height, size, 4, 2);
    MeanBounds(CornersSum(data, width, height, size, 4, 0), count);
    MeanBounds(CornersSum(data, width, height, size, 4, 1), count);
    MeanBounds(CornersSum(data, width, height, size, 4, 2), count);
  }

  lemma MeanBounds(total: int, count: int)
    requires count > 0 && 0 <= total <= 255 * count
    ensures 0.0 <= total as real / count as real <= 255.0
  {
    DivLeReal(total as real, 255.0, count as real);
  }

  // ---------------------------------------------------------------------------
  // Keying the background and un-compositing the edges

  /** `bgThreshold`: the largest L1 distance from the background colour
      that still counts as background. */
  const BackgroundThreshold := 28.0

  function Distance(r: int, g: int, b: int, bg: Colour): real
  {
    AbsReal(r as real - bg.r) + AbsReal(g as real - bg.g) + AbsReal(b as real - bg.b)
  }

  function Component(bg: Colour, k: nat): real
    requires k < 3
  {
    if k == 0 then bg.r else if k == 1 then bg.g else bg.b
  }

  /** A channel of a semi-transparent pixel with the background blended in
      by `alpha / 255` taken back out:
      `Math.min(255, Math.max(0, Math.round((v - bg·(1 - a)) / a)))`. */
  function Uncomposite(v: int, bgv: real, alpha: int): (u: int)
    requires 0 < alpha < 255
    ensures IsByte(u)
  {
    MinInt(255, MaxInt(0, Round(Unblend(v, bgv, alpha))))
  }

  /** `(v - bg·(1 - a)) / a` with `a = alpha / 255`, before rounding. */
  function Unblend(v: int, bgv: real, alpha: int): real
    requires 0 < alpha < 255
  {
    var a := alpha as real / 255.0;
    (v as real - bgv * (1.0 - a)) / a
  }

  /** A pixel's four bytes. */
  datatype Rgba = Rgba(r: int, g: int, b: int, a: int)

  /** Byte k of a pixel, red first. */
  function Byte(px: Rgba, k: nat): int
    requires k < 4
  {
    if k == 0 then px.r else if k == 1 then px.g else if k == 2 then px.b else px.a
  }

  /** A pixel after `buildProcessedCanvas`'s loop. */
  function KeyPixel(px: Rgba, bg: Colour): Rgba
  {
    if Distance(px.r, px.g, px.b, bg) <= BackgroundThreshold then px.(a := 0)
    else if 0 < px.a < 255 then Rgba(Uncomposite(px.r, bg.r, px.a), Uncomposite(px.g, bg.g, px.a), Uncomposite(px.b, bg.b, px.a), px.a)
    else px
  }

  /** The pixel whose red byte is at p. */
  function PixelAt(s: seq<int>, p: nat): Rgba
    requires p + 3 < |s|
  {
    Rgba(s[p], s[p + 1], s[p + 2], s[p + 3])
  }

  /** Byte k after the loop. */
  function ProcessedByte(s: seq<int>, bg: Colour, k: nat): int
    requires k < |s| && |s| % 4 == 0
  {
    Byte(KeyPixel(PixelAt(s, k - k % 4), bg), k % 4)
  }

  function Processed(s: seq<int>, bg: Colour): (r: seq<int>)
    requires |s| % 4 == 0
    ensures |r| == |s|
  {
    seq(|s|, k requires 0 <= k < |s| => ProcessedByte(s, bg, k))
  }

  /** `buildProcessedCanvas` on the pixels drawn into its canvas. Without a
      2D context it throws before touching them; `ok` is false then. */
  method BuildProcessedCanvas(data: array<int>, width: nat, height: nat, hasContext: bool) returns (ok: bool)
    requires Sized(data[..], width, height) && width >= 6 && height >= 6 && data.Length % 4 == 0
    modifies data
    ensures ok == hasContext
    ensures ok ==> data[..] == Processed(old(data[..]), CornerMean(old(data[..]), width, height))
    ensures !ok ==> data[..] == old(data[..])
  {
    if !hasContext {
      return false;
    }
    var bg := SampleCornerColor(data, width, height);
    KeyBackground(data, bg);
    return true;
  }

  /** The pixel loop of `buildProcessedCanvas`, once the background is
      known. */
  method KeyBackground(data: array<int>, bg: Colour)
    requires data.Length % 4 == 0
    modifies data
    ensures data[..] == Processed(old(data[..]), bg)
  {
    ghost var orig := data[..];
    var i := 0;
    while i < data.Length
      invariant 0 <= i <= data.Length && i % 4 == 0
      invariant Keying(data[..], orig, bg, i)
    {
      NextPixel(i, data.Length);
      ghost var before := data[..];
      assert PixelAt(before, i) == PixelAt(orig, i);
      KeyAt(data, i, bg);
      KeyStep(before, data[..], orig, bg, i, KeyPixel(PixelAt(orig, i), bg));
      i := i + 4;
    }
  }

  /** The body of that loop, for the pixel whose red byte is at i: a pixel
      near the background becomes transparent, and a semi-transparent one
      has the background taken back out of its colour. */
  method KeyAt(data: array<int>, i: nat, bg: Colour)
    requires i + 3 < data.Length
    modifies data
    ensures var q := KeyPixel(PixelAt(old(data[..]), i), bg);
      data[..] == old(data[..])[i := q.r][i + 1 := q.g][i + 2 := q.b][i + 3 := q.a]
  {
    var r, g, b, alpha := data[i], data[i + 1], data[i + 2], data[i + 3];
    var distance := Distance(r, g, b, bg);
    if distance <= BackgroundThreshold {
      data[i + 3] := 0;
    } else if alpha > 0 && alpha < 255 {
      data[i] := Uncomposite(r, bg.r, alpha);
      data[i + 1] := Uncomposite(g, bg.g, alpha);
      data[i + 2] := Uncomposite(b, bg.b, alpha);
    }
  }

  /** The bytes before i are processed and the rest are untouched. */
  ghost predicate Keying(d: seq<int>, orig: seq<int>, bg: Colour, i: nat)
    requires |orig| % 4 == 0
  {
    && |d| == |orig| && i <= |d|
    && (forall k :: 0 <= k < i ==> d[k] == ProcessedByte(orig, bg, k))
    && (forall k :: i <= k < |d| ==> d[k] == orig[k])
  }

  /** One pass of the loop: the pixel at i gets the bytes px. */
  lemma KeyStep(before: seq<int>, after: seq<int>, orig: seq<int>, bg: Colour, i: nat, px: Rgba)
    requires |orig| % 4 == 0 && i % 4 == 0 && i + 3 < |orig|
    requires Keying(before, orig, bg, i)
    requires px == KeyPixel(PixelAt(orig, i), bg)
    requires after == before[i := px.r][i + 1 := px.g][i + 2 := px.b][i + 3 := px.a]
    ensures Keying(after, orig, bg, i + 4)
  {
    forall k | 0 <= k < i + 4
      ensures after[k] == ProcessedByte(orig, bg, k)
    {
      if k >= i {
        ProcessedInPixel(orig, bg, i, k - i);
      }
    }
  }

  /** Byte c of the pixel at p is byte p + c of the buffer. */
  lemma ProcessedInPixel(s: seq<int>, bg: Colour, p: nat, c: nat)
    requires |s| % 4 == 0 && p % 4 == 0 && p + 3 < |s| && c < 4
    ensures ProcessedByte(s, bg, p + c) == Byte(KeyPixel(PixelAt(s, p), bg), c)
  {
    var k := p + c;
    assert k % 4 == c && k - k % 4 == p;
  }

  /** The processed buffer holds each pixel keyed on its own. */
  lemma ProcessedPixel(s: seq<int>, bg: Colour, p: nat)
    requires |s| % 4 == 0 && p % 4 == 0 && p + 3 < |s|
    ensures PixelAt(Processed(s, bg), p) == KeyPixel(PixelAt(s, p), bg)
  {
    ProcessedInPixel(s, bg, p, 0);
    ProcessedInPixel(s, bg, p, 1);
    ProcessedInPixel(s, bg, p, 2);
    ProcessedInPixel(s, bg, p, 3);
  }

  /** What keying does to a pixel. Near the background colour its alpha
      becomes 0 and its colour stays; otherwise a semi-transparent pixel has
      its colour un-composited and keeps its alpha, and a fully transparent
      or fully solid pixel is unchanged. Every byte stays a byte. */
  lemma KeyPixelEffect(px: Rgba, bg: Colour)
    ensures var q := KeyPixel(px, bg);
      var background := Distance(px.r, px.g, px.b, bg) <= BackgroundThreshold;
      && (background ==> q == Rgba(px.r, px.g, px.b, 0))
      && (!background && 0 < px.a < 255 ==>
            q == Rgba(Uncomposite(px.r, bg.r, px.a), Uncomposite(px.g, bg.g, px.a), Uncomposite(px.b, bg.b, px.a), px.a))
      && (!background && (px.a <= 0 || px.a >= 255) ==> q == px)
      && q.a == (if background then 0 else px.a)
  {
  }

  /** Un-compositing undoes compositing: a channel c blended over the
      background with opacity alpha / 255 comes back as c. */
  lemma UncompositeInverts(c: int, bgv: real, alpha: int, v: int)
    requires IsByte(c) && 0 < alpha < 255
    requires v as real == c as real * (alpha as real / 255.0) + bgv * (1.0 - alpha as real / 255.0)
    ensures Uncomposite(v, bgv, alpha) == c
  {
    UnblendInverts(c as real, bgv, alpha, v);
  }

  /** The quotient itself gives the channel back exactly. */
  lemma UnblendInverts(c: real, bgv: real, alpha: int, v: int)
    requires 0 < alpha < 255
    requires v as real == c * (alpha as real / 255.0) + bgv * (1.0 - alpha as real / 255.0)
    ensures Unblend(v, bgv, alpha) == c
  {
    var a := alpha as real / 255.0;
    DivCancel(v as real - bgv * (1.0 - a), a, c);
  }

  /** A quotient whose numerator is c times its denominator is c. */
  lemma DivCancel(x: real, a: real, c: real)
    requires a != 0.0 && x == c * a
    ensures x / a == c
  {
  }

  // ---------------------------------------------------------------------------
  // The alpha texture

  /** Byte k of the alpha texture: the source pixel's alpha as grey, fully
      solid. */
  function AlphaTexture(s: seq<int>): (r: seq<int>)
    requires |s| % 4 == 0
    ensures |r| == |s|
  {
    seq(|s|, k requires 0 <= k < |s| => if k % 4 == 3 then 255 else s[k - k % 4 + 3])
  }

  /** `buildAlphaTexture`: fills a new buffer the size of the source.
      Without a 2D context it throws; `ok` is false and `dest` empty
      then. */
  method BuildAlphaTexture(src: array<int>, hasContext: bool) returns (ok: bool, dest: array<int>)
    requires src.Length % 4 == 0
    ensures fresh(dest)
    ensures ok == hasContext
    ensures ok ==> dest[..] == AlphaTexture(src[..])
    ensures !ok ==> dest.Length == 0
  {
    if !hasContext {
      return false, new int[0];
    }
    dest := new int[src.Length];
    var i := 0;
    while i < src.Length
      invariant 0 <= i <= src.Length && i % 4 == 0
      invariant forall k :: 0 <= k < i ==> dest[k] == AlphaTexture(src[..])[k]
    {
      NextPixel(i, src.Length);
      var a := src[i + 3];
      dest[i] := a;
      dest[i + 1] := a;
      dest[i + 2] := a;
      dest[i + 3] := 255;
      i := i + 4;
    }
    return true, dest;
  }

  /** Each alpha-texture pixel is (a, a, a, 255) for the source alpha a. */
  lemma AlphaTexturePixel(s: seq<int>, p: nat)
    requires |s| % 4 == 0 && p % 4 == 0 && p + 3 < |s|
    ensures AlphaTexture(s)[p..p + 4] == [s[p + 3], s[p + 3], s[p + 3], 255]
  {
    assert (p + 1) % 4 == 1 && (p + 2) % 4 == 2 && (p + 3) % 4 == 3;
  }

  /** A pixel keyed out as background shows black in the alpha texture
      built from the processed picture. */
  lemma BackgroundIsMasked(s: seq<int>, bg: Colour, p: nat)
    requires |s| % 4 == 0 && p % 4 == 0 && p + 3 < |s|
    requires Distance(s[p], s[p + 1], s[p + 2], bg) <= BackgroundThreshold
    ensures AlphaTexture(Processed(s, bg))[p..p + 4] == [0, 0, 0, 255]
  {
    ProcessedPixel(s, bg, p);
    AlphaTexturePixel(Processed(s, bg), p);
  }

  // ---------------------------------------------------------------------------
  // Waiting for the upload

  const MaxAttempts := 8

  /** What a `HEAD` request returns: a response, or a thrown error. */
  datatype Probe = Threw | Answered(ok: bool, status: int)

  /** A response that means the file is there (403 and 405 count: the
      storage may refuse `HEAD`). */
  predicate Available(p: Probe)
  {
    p.Answered? && (p.ok || p.status == 403 || p.status == 405)
  }

  /** `waitForUrl`: `probe(i)` is what the i-th request yields. The sleeps
      between attempts are left out. */
  method WaitForUrl(probe: nat -> Probe) returns (ready: bool, attempts: nat)
    ensures attempts <= MaxAttempts
    ensures ready ==> 1 <= attempts && Available(probe(attempts - 1))
    ensures forall i :: 0 <= i < attempts - (if ready then 1 else 0) ==> !Available(probe(i))
    ensures !ready ==> attempts == MaxAttempts
  {
    var attempt := 0;
    while attempt < MaxAttempts
      invariant 0 <= attempt <= MaxAttempts
      invariant forall i :: 0 <= i < attempt ==> !Available(probe(i))
    {
      var res := probe(attempt);
      if res.Answered? {
        if res.ok {
          return true, attempt + 1;
        }
        if res.status == 403 || res.status == 405 {
          return true, attempt + 1;
        }
      }
      attempt := attempt + 1;
    }
    return false, attempt;
  }
}
