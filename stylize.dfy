/** `lib/stylize.ts`: the stylizer used when no image model answers. It
    repaints every visible pixel with one of four colours chosen by
    luminance: a fixed shadow colour or one of the three palette colours,
    each parsed from hexadecimal text with `hexToRgb`. */
module Stylize {
  import opened Common
  import opened Raster

  datatype Rgb = Rgb(r: int, g: int, b: int)

  predicate IsColour(c: Rgb)
  {
    IsByte(c.r) && IsByte(c.g) && IsByte(c.b)
  }

  // ---------------------------------------------------------------------------
  // Hexadecimal text

  predicate IsHexDigit(c: char)
  {
    ('0' <= c <= '9') || ('a' <= c <= 'f') || ('A' <= c <= 'F')
  }

  function HexDigitValue(c: char): (v: nat)
    requires IsHexDigit(c)
    ensures v < 16
  {
    if '0' <= c <= '9' then c as int - '0' as int
    else if 'a' <= c <= 'f' then c as int - 'a' as int + 10
    else c as int - 'A' as int + 10
  }

  predicate AllHex(s: string)
  {
    forall k :: 0 <= k < |s| ==> IsHexDigit(s[k])
  }

  /** The number a string of hexadecimal digits spells, most significant
      digit first. */
  function HexValue(s: string): nat
    requires AllHex(s)
  {
    if |s| == 0 then 0 else HexValue(s[..|s| - 1]) * 16 + HexDigitValue(s[|s| - 1])
  }

  /** The longest run of hexadecimal digits at the start of s. */
  function HexRun(s: string): (r: string)
    ensures |r| <= |s| && r == s[..|r|] && AllHex(r)
    ensures |r| < |s| ==> !IsHexDigit(s[|r|])
  {
    if |s| > 0 && IsHexDigit(s[0]) then [s[0]] + HexRun(s[1..]) else ""
  }

  /** `parseInt(text, 16)`, with `None` for NaN: leading white space is
      skipped, then an optional sign, then an optional `0x`/`0X`, and the
      longest run of hexadecimal digits that follows is read; without any
      digit the result is NaN. */
  function ParseHex(text: string): (r: Option<int>)
  {
    var t := TrimStart(text);
    var negative := |t| > 0 && t[0] == '-';
    var digits := HexRun(HexBody(t));
    if digits == "" then None
    else
      var v: int := HexValue(digits);
      Some(if negative then -v else v)
  }

  /** What follows the sign and the `0x`/`0X` prefix, if any. */
  function HexBody(t: string): (r: string)
    ensures |r| <= |t|
  {
    var unsigned := if |t| > 0 && (t[0] == '-' || t[0] == '+') then t[1..] else t;
    if |unsigned| >= 2 && unsigned[0] == '0' && (unsigned[1] == 'x' || unsigned[1] == 'X')
    then unsigned[2..] else unsigned
  }

  /** A plain string of hexadecimal digits parses to the number it
      spells. */
  lemma ParseHexDigits(text: string, value: int)
    requires |text| > 0 && AllHex(text) && !(|text| >= 2 && text[0] == '0' && (text[1] == 'x' || text[1] == 'X'))
    requires value == HexValue(text)
    ensures ParseHex(text) == Some(value)
  {
    NoSpaceBeforeDigits(text);
    assert HexBody(text) == text;
    HexRunOfDigits(text);
    ParseUnadorned(text, value);
  }

  lemma NoSpaceBeforeDigits(text: string)
    requires |text| > 0 && AllHex(text)
    ensures TrimStart(text) == text
  {
    assert !IsJsSpace(text[0]);
  }

  lemma ParseUnadorned(text: string, value: int)
    requires |text| > 0 && AllHex(text)
    requires TrimStart(text) == text && HexBody(text) == text && HexRun(text) == text
    requires value == HexValue(text)
    ensures ParseHex(text) == Some(value)
  {
  }

  lemma {:induction false} HexRunOfDigits(s: string)
    requires AllHex(s)
    ensures HexRun(s) == s
    decreases |s|
  {
    if |s| > 0 {
      HexRunOfDigits(s[1..]);
    }
  }

  /** `(n >> shift) & 255` for an integer n, which the shift first converts
      to 32 bits: bits `shift` to `shift + 7` of n. */
  function ByteAt(n: int, shift: nat): (b: int)
    requires shift == 0 || shift == 8 || shift == 16
    ensures IsByte(b)
  {
    if shift == 16 then (n / 65536) % 256
    else if shift == 8 then (n / 256) % 256
    else n % 256
  }

  /** `hex.replace('#', '')`: the first `#` removed. */
  function RemoveFirstHash(hex: string): (r: string)
    ensures '#' !in hex ==> r == hex
    ensures |hex| > 0 && hex[0] == '#' ==> r == hex[1..]
  {
    match IndexOf(hex, '#')
    case None => hex
    case Some(i) => hex[..i] + hex[i + 1..]
  }

  /** `hexToRgb` */
  function HexToRgb(hex: string): (c: Rgb)
    ensures IsColour(c)
  {
    var num := ParseHex(RemoveFirstHash(hex));
    match num
    case None => Rgb(0, 0, 0)  // NaN converts to 0 before shifting
    case Some(n) => Rgb(ByteAt(n, 16), ByteAt(n, 8), ByteAt(n, 0))
  }

  /** A colour written `#RRGGBB`, as the generation route's palette schema
      demands. */
  predicate IsHexColour(s: string)
  {
    |s| == 7 && s[0] == '#' && forall k :: 1 <= k < 7 ==> IsHexDigit(s[k])
  }

  /** The byte two hexadecimal digits spell. */
  function PairValue(hi: char, lo: char): (v: int)
    requires IsHexDigit(hi) && IsHexDigit(lo)
    ensures IsByte(v)
  {
    16 * HexDigitValue(hi) + HexDigitValue(lo)
  }

  /** `hexToRgb` reads `#RRGGBB` as the three bytes its digit pairs spell. */
  lemma HexColourChannels(hex: string)
    requires IsHexColour(hex)
    ensures HexToRgb(hex) == Rgb(PairValue(hex[1], hex[2]), PairValue(hex[3], hex[4]), PairValue(hex[5], hex[6]))
  {
    var r, g, b := PairValue(hex[1], hex[2]), PairValue(hex[3], hex[4]), PairValue(hex[5], hex[6]);
    var n := r * 65536 + g * 256 + b;
    var digits := ColourDigits(hex);
    SixDigitColour(digits, n);
    HexToRgbOfParsed(hex, n);
    ThreeBytes(r, g, b, n);
  }

  /** The six digits after the `#`. */
  lemma ColourDigits(hex: string) returns (digits: string)
    requires IsHexColour(hex)
    ensures RemoveFirstHash(hex) == digits && |digits| == 6 && AllHex(digits)
    ensures digits[0] == hex[1] && digits[1] == hex[2] && digits[2] == hex[3]
    ensures digits[3] == hex[4] && digits[4] == hex[5] && digits[5] == hex[6]
  {
    digits := hex[1..];
    forall k | 0 <= k < 6
      ensures IsHexDigit(digits[k])
    {
      assert digits[k] == hex[k + 1];
    }
  }

  lemma HexToRgbOfParsed(hex: string, n: int)
    requires ParseHex(RemoveFirstHash(hex)).Some? && ParseHex(RemoveFirstHash(hex)).value == n
    ensures HexToRgb(hex) == Rgb(ByteAt(n, 16), ByteAt(n, 8), ByteAt(n, 0))
  {
  }

  /** Six hexadecimal digits parse to the number they spell. */
  lemma SixDigitColour(digits: string, n: int)
    requires |digits| == 6 && AllHex(digits)
    requires n == PairValue(digits[0], digits[1]) * 65536 + PairValue(digits[2], digits[3]) * 256 + PairValue(digits[4], digits[5])
    ensures ParseHex(digits).Some? && ParseHex(digits).value == n
  {
    SixDigits(digits);
    ParseHexDigits(digits, n);
  }

  /** The shifts and masks of `hexToRgb` take a 24-bit number apart into its
      three bytes. */
  lemma ThreeBytes(r: int, g: int, b: int, num: int)
    requires IsByte(r) && IsByte(g) && IsByte(b) && num == r * 65536 + g * 256 + b
    ensures ByteAt(num, 16) == r && ByteAt(num, 8) == g && ByteAt(num, 0) == b
  {
    DivModUnique(num, 65536, r, g * 256 + b);
    DivModUnique(r, 256, 0, r);
    DivModUnique(num, 256, r * 256 + g, b);
    DivModUnique(r * 256 + g, 256, r, g);
  }

  /** Six digits spell `d0·16⁵ + … + d5`, grouped into three bytes. */
  lemma SixDigits(s: string)
    requires |s| == 6 && AllHex(s)
    ensures HexValue(s) == PairValue(s[0], s[1]) * 65536 + PairValue(s[2], s[3]) * 256 + PairValue(s[4], s[5])
  {
    var d0, d1, d2 := HexDigitValue(s[0]), HexDigitValue(s[1]), HexDigitValue(s[2]);
    var d3, d4, d5 := HexDigitValue(s[3]), HexDigitValue(s[4]), HexDigitValue(s[5]);
    assert s[..1][..0] == "" && HexValue(s[..1]) == d0;
    assert s[..2][..1] == s[..1] && HexValue(s[..2]) == d0 * 16 + d1;
    assert s[..3][..2] == s[..2] && HexValue(s[..3]) == (d0 * 16 + d1) * 16 + d2;
    assert s[..4][..3] == s[..3] && HexValue(s[..4]) == ((d0 * 16 + d1) * 16 + d2) * 16 + d3;
    assert s[..5][..4] == s[..4] && HexValue(s[..5]) == (((d0 * 16 + d1) * 16 + d2) * 16 + d3) * 16 + d4;
    assert s[..6] == s;
  }

  // ---------------------------------------------------------------------------
  // The pixel loop. The buffer is sharp's raw output after `ensureAlpha`:
  // four channels per pixel, red first.

  /** The colour written for dark pixels. */
  const Shadow := Rgb(24, 24, 28)

  function Luminance(r: int, g: int, b: int): real
  {
    0.299 * r as real + 0.587 * g as real + 0.114 * b as real
  }

  /** Which palette colour a luminance of at least 60 maps to. */
  function Bucket(l: real): (i: nat)
    ensures i < 3
  {
    if l < 120.0 then 0 else if l < 190.0 then 1 else 2
  }

  /** The colour a solid pixel with these channels is painted. */
  function Repaint(r: int, g: int, b: int, colours: seq<Rgb>): (c: Rgb)
    requires |colours| == 3
    ensures c == Shadow || c in colours
  {
    var l := Luminance(r, g, b);
    if l < 60.0 then Shadow else colours[Bucket(l)]
  }

  function Channel(c: Rgb, k: nat): int
    requires k < 3
  {
    if k == 0 then c.r else if k == 1 then c.g else c.b
  }

  /** Byte k after stylizing: pixels with alpha 0 and alpha bytes are kept,
      the colour bytes of other pixels take the repaint colour. */
  function StylizedByte(s: seq<int>, colours: seq<Rgb>, k: nat): int
    requires k < |s| && |s| % 4 == 0 && |colours| == 3
  {
    var p := k - k % 4;
    if s[p + 3] == 0 || k % 4 == 3 then s[k]
    else Channel(Repaint(s[p], s[p + 1], s[p + 2], colours), k % 4)
  }

  function Stylized(s: seq<int>, colours: seq<Rgb>): (r: seq<int>)
    requires |s| % 4 == 0 && |colours| == 3
    ensures |r| == |s|
  {
    seq(|s|, k requires 0 <= k < |s| => StylizedByte(s, colours, k))
  }

  /** The three palette colours: `hexToRgb` of the first three entries. */
  function PaletteColours(palette: seq<string>): (c: seq<Rgb>)
    requires |palette| >= 3
    ensures |c| == 3
  {
    [HexToRgb(palette[0]), HexToRgb(palette[1]), HexToRgb(palette[2])]
  }

  /** `stylizeFallback`'s pixel loop, in place. With fewer than three palette
      entries `hexToRgb` is handed `undefined` and throws before the buffer
      is read; `ok` is false then. */
  method StylizeFallback(data: array<int>, palette: seq<string>) returns (ok: bool)
    requires data.Length % 4 == 0
    modifies data
    ensures ok <==> |palette| >= 3
    ensures ok ==> data[..] == Stylized(old(data[..]), PaletteColours(palette))
    ensures !ok ==> data[..] == old(data[..])
  {
    if |palette| < 3 {
      return false;
    }
    var colours := PaletteColours(palette);
    PaintPixels(data, colours);
    return true;
  }

  /** The loop over the pixels, once the palette colours are parsed. */
  method PaintPixels(data: array<int>, colours: seq<Rgb>)
    requires data.Length % 4 == 0 && |colours| == 3
    modifies data
    ensures data[..] == Stylized(old(data[..]), colours)
  {
    ghost var orig := data[..];
    var i := 0;
    while i < data.Length
      invariant 0 <= i <= data.Length && i % 4 == 0
      invariant Stylizing(data[..], orig, colours, i)
    {
      NextPixel(i, data.Length);
      ghost var before := data[..];
      ghost var painted := Rgb(data[i], data[i + 1], data[i + 2]);
      var alpha := data[i + 3];
      if alpha != 0 {
        var r, g, b := data[i], data[i + 1], data[i + 2];
        var luminance := 0.299 * r as real + 0.587 * g as real + 0.114 * b as real;
        if luminance < 60.0 {
          data[i], data[i + 1], data[i + 2] := 24, 24, 28;
          painted := Shadow;
        } else {
          var bucket := if luminance < 120.0 then 0 else if luminance < 190.0 then 1 else 2;
          var colour := colours[bucket];
          data[i], data[i + 1], data[i + 2] := colour.r, colour.g, colour.b;
          painted := colour;
        }
      }
      StylizeStep(before, data[..], orig, colours, i, painted);
      i := i + 4;
    }
    assert data[..] == Stylized(orig, colours);
  }

  /** The bytes before i are stylized and the rest are untouched. */
  ghost predicate Stylizing(d: seq<int>, orig: seq<int>, colours: seq<Rgb>, i: nat)
    requires |orig| % 4 == 0 && |colours| == 3
  {
    && |d| == |orig| && i <= |d|
    && (forall k :: 0 <= k < i ==> d[k] == StylizedByte(orig, colours, k))
    && (forall k :: i <= k < |d| ==> d[k] == orig[k])
  }

  /** One pass of the loop: the pixel at i gets its colour. */
  lemma StylizeStep(before: seq<int>, after: seq<int>, orig: seq<int>, colours: seq<Rgb>, i: nat, c: Rgb)
    requires |orig| % 4 == 0 && |colours| == 3 && i % 4 == 0 && i + 3 < |orig|
    requires Stylizing(before, orig, colours, i)
    requires c == if orig[i + 3] == 0 then Rgb(orig[i], orig[i + 1], orig[i + 2])
                  else Repaint(orig[i], orig[i + 1], orig[i + 2], colours)
    requires after == before[i := c.r][i + 1 := c.g][i + 2 := c.b]
    ensures Stylizing(after, orig, colours, i + 4)
  {
    forall k | i <= k < i + 4
      ensures after[k] == StylizedByte(orig, colours, k)
    {
      ByteOfPixel(orig, colours, i, k - i);
    }
  }

  /** StylizedByte at byte c of the pixel whose red byte is at p. */
  lemma ByteOfPixel(s: seq<int>, colours: seq<Rgb>, p: nat, c: nat)
    requires |s| % 4 == 0 && |colours| == 3 && p % 4 == 0 && p + 3 < |s| && c < 4
    ensures StylizedByte(s, colours, p + c) ==
      if s[p + 3] == 0 || c == 3 then s[p + c] else Channel(Repaint(s[p], s[p + 1], s[p + 2], colours), c)
  {
    var k := p + c;
    assert k % 4 == c && k - k % 4 == p;
  }

  /** What becomes of the pixel whose red byte is at p: with alpha 0 it is
      kept whole; otherwise its alpha is kept and its colour is the shadow
      when its luminance is below 60 and else the palette colour of its
      bucket. */
  lemma StylizedPixel(s: seq<int>, colours: seq<Rgb>, p: nat)
    requires |s| % 4 == 0 && |colours| == 3 && p % 4 == 0 && p + 3 < |s|
    ensures var r := Stylized(s, colours);
      var l := Luminance(s[p], s[p + 1], s[p + 2]);
      && r[p + 3] == s[p + 3]
      && (s[p + 3] == 0 ==> r[p..p + 4] == s[p..p + 4])
      && (s[p + 3] != 0 && l < 60.0 ==> Rgb(r[p], r[p + 1], r[p + 2]) == Shadow)
      && (s[p + 3] != 0 && 60.0 <= l ==> Rgb(r[p], r[p + 1], r[p + 2]) == colours[Bucket(l)])
  {
    var r := Stylized(s, colours);
    StylizedAt(s, colours, p, 0);
    StylizedAt(s, colours, p, 1);
    StylizedAt(s, colours, p, 2);
    StylizedAt(s, colours, p, 3);
    if s[p + 3] == 0 {
      assert r[p..p + 4] == s[p..p + 4];
    }
  }

  /** Byte c of the pixel whose red byte is at p, after stylizing. */
  lemma StylizedAt(s: seq<int>, colours: seq<Rgb>, p: nat, c: nat)
    requires |s| % 4 == 0 && |colours| == 3 && p % 4 == 0 && p + 3 < |s| && c < 4
    ensures Stylized(s, colours)[p + c] ==
      if s[p + 3] == 0 || c == 3 then s[p + c] else Channel(Repaint(s[p], s[p + 1], s[p + 2], colours), c)
  {
    ByteOfPixel(s, colours, p, c);
    assert Stylized(s, colours)[p + c] == StylizedByte(s, colours, p + c);
  }

  /** Every colour in the output is the shadow or one of the palette
      colours, unless the pixel was transparent. */
  lemma FourColours(s: seq<int>, colours: seq<Rgb>, p: nat)
    requires |s| % 4 == 0 && |colours| == 3 && p % 4 == 0 && p + 3 < |s| && s[p + 3] != 0
    ensures var r := Stylized(s, colours);
      var c := Rgb(r[p], r[p + 1], r[p + 2]);
      c == Shadow || c in colours
  {
    StylizedPixel(s, colours, p);
  }
}
