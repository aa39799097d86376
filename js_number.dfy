/** Decimal numerals: how an integer prints in a template string
    (`${n}`) and how `Number(text)` reads decimal text back. */
module JsNumber {
  import opened Common

  predicate IsDigit(c: char) { '0' <= c <= '9' }

  predicate IsDigits(s: string)
  {
    |s| > 0 && forall k :: 0 <= k < |s| ==> IsDigit(s[k])
  }

  function DigitValue(c: char): nat
    requires IsDigit(c)
  {
    (c as int - '0' as int) as nat
  }

  function DigitChar(d: nat): (c: char)
    requires d < 10
    ensures IsDigit(c) && DigitValue(c) == d
  {
    ('0' as int + d) as char
  }

  /** The value of a run of decimal digits, most significant first. */
  function DigitsValue(s: string): nat
    requires forall k :: 0 <= k < |s| ==> IsDigit(s[k])
  {
    if |s| == 0 then 0 else DigitsValue(s[..|s| - 1]) * 10 + DigitValue(s[|s| - 1])
  }

  function Pow10(n: nat): (r: nat)
    ensures r >= 1
  {
    if n == 0 then 1 else 10 * Pow10(n - 1)
  }

  /** The decimal numeral of a natural number, without leading zeros. */
  function NatToString(n: nat): (s: string)
    ensures IsDigits(s)
    ensures '.' !in s && '-' !in s
  {
    if n < 10 then [DigitChar(n)] else NatToString(n / 10) + [DigitChar(n % 10)]
  }

  /** `${n}` for an integer-valued number. */
  function IntToString(n: int): (s: string)
    ensures |s| > 0 && '.' !in s
  {
    if n >= 0 then NatToString(n) else "-" + NatToString(-n)
  }

  /** `Number(text)` for text that is a decimal numeral: surrounding white
      space is ignored, empty text is 0, an optional sign, digits with an
      optional fraction. Anything else is NaN (`None`). */
  function ToNumber(text: string): (r: Option<real>)
  {
    var t := Trim(text);
    if t == "" then Some(0.0)
    else if t[0] == '-' then
      match ParseUnsigned(t[1..])
      case None => None
      case Some(v) => Some(-v)
    else if t[0] == '+' then ParseUnsigned(t[1..])
    else ParseUnsigned(t)
  }

  /** Digits with an optional fractional part (`12`, `12.5`, `12.`, `.5`). */
  function ParseUnsigned(u: string): (r: Option<real>)
    ensures r.Some? ==> r.value >= 0.0
  {
    match IndexOf(u, '.')
    case None => if IsDigits(u) then Some(DigitsValue(u) as real) else None
    case Some(i) =>
      var ip, fp := u[..i], u[i + 1..];
      if (ip == "" || IsDigits(ip)) && (fp == "" || IsDigits(fp)) && !(ip == "" && fp == "") then
        Some(DigitsValue(ip) as real + DigitsValue(fp) as real / Pow10(|fp|) as real)
      else None
  }

  lemma {:induction false} NatToStringValue(n: nat)
    ensures DigitsValue(NatToString(n)) == n
    decreases n
  {
    var s := NatToString(n);
    if n >= 10 {
      NatToStringValue(n / 10);
      assert s[..|s| - 1] == NatToString(n / 10);
    }
  }

  lemma NoSpaceInNumeral(n: int)
    ensures forall k :: 0 <= k < |IntToString(n)| ==> !IsJsSpace(IntToString(n)[k])
  {
    var s := IntToString(n);
    forall k | 0 <= k < |s| ensures !IsJsSpace(s[k]) {
      if n < 0 && k > 0 {
        assert s[k] == NatToString(-n)[k - 1];
      }
    }
  }

  /** Reading back a printed integer gives the integer: `Number(`${n}`) == n`. */
  lemma {:induction false} IntToStringRoundTrip(n: int)
    ensures ToNumber(IntToString(n)) == Some(n as real)
  {
    var s := IntToString(n);
    NoSpaceInNumeral(n);
    assert TrimStart(s) == s;
    assert Trim(s) == s;
    if n >= 0 {
      NatToStringValue(n);
      assert IndexOf(s, '.') == None;
    } else {
      var u := NatToString(-n);
      assert s[1..] == u;
      NatToStringValue(-n);
      assert IndexOf(u, '.') == None;
    }
  }

  /** A plain run of digits reads as its decimal value. */
  lemma NumeralValue(s: string)
    requires IsDigits(s)
    ensures ToNumber(s) == Some(DigitsValue(s) as real)
  {
    assert forall k :: 0 <= k < |s| ==> !IsJsSpace(s[k]);
    assert TrimStart(s) == s;
    assert Trim(s) == s;
    assert IsDigit(s[0]);
    assert '.' !in s by {
      forall k | 0 <= k < |s| ensures s[k] != '.' {
        assert IsDigit(s[k]);
      }
    }
    assert ParseUnsigned(s) == Some(DigitsValue(s) as real);
  }
}
