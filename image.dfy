/** `lib/image.ts`: the gates an uploaded picture must pass, the size it is
    scaled to before generation, and the keying that makes a near-white
    background transparent. sharp's decoding and encoding and the file-type
    sniffer are outside the model: their answers are parameters. */
module Image {
  import opened Common

  /** `MAX_MB`: the upload limit in mebibytes. */
  const MaxMegabytes := 18
  const MaxBytes := MaxMegabytes * 1024 * 1024

  /** The short side a picture is scaled down to. */
  const ShortSideLimit := 1536

  /** A channel above this value counts as near white. */
  const WhiteThreshold := 230

  datatype ImageError = TooLarge | UnsupportedType | Unreadable

  /** What `validateImage` returns (the sharp handle is left out). */
  datatype Upload = Upload(mime: string, width: nat, height: nat)

  predicate AcceptedMime(mime: string)
  {
    mime == "image/png" || mime == "image/jpeg"
  }

  /** `validateImage`: `size` is the buffer length, `sniffed` the MIME type
      `fileTypeFromBuffer` finds (`None` when it finds nothing) and
      `width`/`height` what sharp's metadata reports (`None` when absent).
      The size is checked first, then the type, then the dimensions. */
  function ValidateImage(size: nat, sniffed: Option<string>, width: Option<nat>, height: Option<nat>): (r: Result<Upload, ImageError>)
    ensures r.Ok? <==> (size <= MaxBytes && sniffed.Some? && AcceptedMime(sniffed.value)
                        && width.Some? && width.value > 0 && height.Some? && height.value > 0)
    ensures r.Ok? ==> r.value.mime == sniffed.value && r.value.width == width.value && r.value.height == height.value
    ensures r == Err(TooLarge) <==> size > MaxBytes
    ensures r == Err(UnsupportedType) <==> size <= MaxBytes && !(sniffed.Some? && AcceptedMime(sniffed.value))
  {
    if size > MaxBytes then Err(TooLarge)
    else if sniffed.None? || !AcceptedMime(sniffed.value) then Err(UnsupportedType)
    else if width.None? || width.value == 0 || height.None? || height.value == 0 then Err(Unreadable)
    else Ok(Upload(sniffed.value, width.value, height.value))
  }

  /** An oversized buffer is refused whatever the sniffer and sharp would
      have said about it, and a buffer of exactly 18 MiB is not refused for
      its size. */
  lemma SizeCheckedFirst(size: nat, s1: Option<string>, w1: Option<nat>, h1: Option<nat>,
                         s2: Option<string>, w2: Option<nat>, h2: Option<nat>)
    ensures size > MaxBytes ==> ValidateImage(size, s1, w1, h1) == ValidateImage(size, s2, w2, h2)
    ensures ValidateImage(MaxBytes, s1, w1, h1) != Err(TooLarge)
  {
  }

  datatype Dims = Dims(width: nat, height: nat)

  /** The factor `resizeToLimit` scales both sides by. */
  function ResizeScale(width: nat, height: nat): real
  {
    var shortSide := MinInt(width, height);
    if shortSide <= ShortSideLimit then 1.0 else ShortSideLimit as real / shortSide as real
  }

  /** `resizeToLimit`: the size of the picture it encodes. A picture whose
      short side is at most 1536 keeps its size; otherwise both sides are
      scaled by 1536 / short side and rounded with `Math.round`, so each
      side is within half a pixel of the exactly scaled side. */
  function ResizeToLimit(width: nat, height: nat): (d: Dims)
    ensures MinInt(width, height) <= ShortSideLimit ==> d == Dims(width, height)
    ensures width as real * ResizeScale(width, height) - 0.5 < d.width as real <= width as real * ResizeScale(width, height) + 0.5
    ensures height as real * ResizeScale(width, height) - 0.5 < d.height as real <= height as real * ResizeScale(width, height) + 0.5
  {
    var shortSide := MinInt(width, height);
    if shortSide <= ShortSideLimit then Dims(width, height)
    else
      var scale := ShortSideLimit as real / shortSide as real;
      var w := Round(width as real * scale);
      var h := Round(height as real * scale);
      assert w >= 0 && h >= 0 by {
        assert scale > 0.0;
        MulLeReal(0.0, width as real, scale);
        MulLeReal(0.0, height as real, scale);
      }
      Dims(w, h)
  }

  /** After resizing, the short side is exactly 1536 when it was longer and
      unchanged otherwise; which side is the short one does not change. */
  lemma ResizedShortSide(width: nat, height: nat)
    ensures var d := ResizeToLimit(width, height);
      && MinInt(d.width, d.height) == MinInt(width, height) - MaxInt(0, MinInt(width, height) - ShortSideLimit)
      && (width <= height ==> d.width <= d.height)
      && (height <= width ==> d.height <= d.width)
  {
    if MinInt(width, height) > ShortSideLimit {
      if width <= height {
        ResizedPortrait(width, height);
      } else {
        ResizedLandscape(width, height);
      }
    }
  }

  lemma ResizedPortrait(width: nat, height: nat)
    requires ShortSideLimit < width <= height
    ensures ResizeToLimit(width, height).width == ShortSideLimit <= ResizeToLimit(width, height).height
  {
    var scale := ShortSideLimit as real / width as real;
    ScaledSides(width, height, scale);
  }

  lemma ResizedLandscape(width: nat, height: nat)
    requires ShortSideLimit < height < width
    ensures ResizeToLimit(width, height).height == ShortSideLimit <= ResizeToLimit(width, height).width
  {
    var scale := ShortSideLimit as real / height as real;
    ScaledSides(height, width, scale);
  }

  /** Scaling the short side by limit / short side lands on the limit, and
      the long side stays at least as long. */
  lemma ScaledSides(short: nat, long: nat, scale: real)
    requires ShortSideLimit < short <= long && scale == ShortSideLimit as real / short as real
    ensures Round(short as real * scale) == ShortSideLimit
    ensures ShortSideLimit <= Round(long as real * scale)
  {
    assert short as real * scale == ShortSideLimit as real;
    MulLeReal(short as real, long as real, scale);
    RoundMonotone(short as real * scale, long as real * scale);
  }

  lemma RoundMonotone(a: real, b: real)
    requires a <= b
    ensures Round(a) <= Round(b)
  {
  }

  /** Resizing twice is resizing once: a resized picture is within the
      limit. */
  lemma ResizeIdempotent(width: nat, height: nat)
    ensures var d := ResizeToLimit(width, height);
      ResizeToLimit(d.width, d.height) == d
  {
    ResizedShortSide(width, height);
  }

  // ---------------------------------------------------------------------------
  // Keying a near-white background. The buffer is sharp's raw output after
  // `ensureAlpha`: four channels per pixel, red first.

  /** The pixel whose red byte is at p has red, green and blue above 230. */
  predicate NearWhite(s: seq<int>, p: int)
    requires 0 <= p && p + 2 < |s|
  {
    s[p] > WhiteThreshold && s[p + 1] > WhiteThreshold && s[p + 2] > WhiteThreshold
  }

  /** Byte k after keying: an alpha byte of a near-white pixel is 0, every
      other byte is as it was. */
  function KeyedByte(s: seq<int>, k: nat): int
    requires k < |s| && |s| % 4 == 0
  {
    if k % 4 == 3 && NearWhite(s, k - 3) then 0 else s[k]
  }

  /** The buffer `removeNearWhiteBackground` hands back to sharp. */
  function NearWhiteKeyed(s: seq<int>): (r: seq<int>)
    requires |s| % 4 == 0
    ensures |r| == |s|
  {
    seq(|s|, k requires 0 <= k < |s| => KeyedByte(s, k))
  }

  /** The pixel loop of `removeNearWhiteBackground`, in place. */
  method RemoveNearWhiteBackground(data: array<int>)
    requires data.Length % 4 == 0
    modifies data
    ensures data[..] == NearWhiteKeyed(old(data[..]))
  {
    ghost var orig := data[..];
    var i := 0;
    while i < data.Length
      invariant 0 <= i <= data.Length && i % 4 == 0
      invariant forall k :: 0 <= k < i ==> data[k] == KeyedByte(orig, k)
      invariant forall k :: i <= k < data.Length ==> data[k] == orig[k]
    {
      NextPixel(i, data.Length);
      var r, g, b := data[i], data[i + 1], data[i + 2];
      if r > WhiteThreshold && g > WhiteThreshold && b > WhiteThreshold {
        data[i + 3] := 0;
      }
      i := i + 4;
    }
  }

  /** A pixel's alpha becomes 0 exactly when it is near white, and is kept
      otherwise; its colour channels are never touched. */
  lemma KeyedPixel(s: seq<int>, p: nat)
    requires |s| % 4 == 0 && p % 4 == 0 && p + 3 < |s|
    ensures var r := NearWhiteKeyed(s);
      && (NearWhite(s, p) ==> r[p + 3] == 0)
      && (!NearWhite(s, p) ==> r[p + 3] == s[p + 3])
      && r[p] == s[p] && r[p + 1] == s[p + 1] && r[p + 2] == s[p + 2]
  {
  }

  /** Keying a keyed buffer changes nothing. */
  lemma KeyingIdempotent(s: seq<int>)
    requires |s| % 4 == 0
    ensures NearWhiteKeyed(NearWhiteKeyed(s)) == NearWhiteKeyed(s)
  {
    var r := NearWhiteKeyed(s);
    forall k | 0 <= k < |s|
      ensures KeyedByte(r, k) == r[k]
    {
      if k % 4 == 3 {
        assert r[k - 3] == s[k - 3] && r[k - 2] == s[k - 2] && r[k - 1] == s[k - 1];
      }
    }
  }
}
