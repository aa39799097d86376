/** Shared vocabulary: optional values, results, the string operations of
    JavaScript that the application relies on, and the rounding functions of
    `Math`. */
module Common {

  datatype Option<+T> = None | Some(value: T)

  datatype Result<+T, +E> = Ok(value: T) | Err(error: E)

  // ---------------------------------------------------------------------------
  // Strings

  /** `s.startsWith(p)` */
  predicate StartsWith(s: string, p: string)
  {
    |p| <= |s| && s[..|p|] == p
  }

  /** `s.endsWith(p)` */
  predicate EndsWith(s: string, p: string)
  {
    |p| <= |s| && s[|s| - |p|..] == p
  }

  /** `s.includes(sub)` */
  predicate Contains(s: string, sub: string)
    decreases |s|
  {
    StartsWith(s, sub) || (|s| > 0 && Contains(s[1..], sub))
  }

  /** `s.indexOf(c)`, with `None` for -1. */
  function IndexOf(s: string, c: char): (r: Option<nat>)
    ensures r.None? <==> c !in s
    ensures r.Some? ==> r.value < |s| && s[r.value] == c && c !in s[..r.value]
  {
    if |s| == 0 then None
    else if s[0] == c then Some(0)
    else
      match IndexOf(s[1..], c)
      case None => None
      case Some(i) => assert s[1..][..i] == s[1..i + 1]; Some(i + 1)
  }

  /** `s.split(c)` for a one-character separator: the maximal runs of text
      between occurrences of `c`, in order. */
  function Split(s: string, c: char): (r: seq<string>)
    ensures |r| >= 1
    ensures forall k :: 0 <= k < |r| ==> c !in r[k]
    ensures c !in s ==> r == [s]
    decreases |s|
  {
    match IndexOf(s, c)
    case None => [s]
    case Some(i) => [s[..i]] + Split(s[i + 1..], c)
  }

  /** Splitting text that starts with a separator-free run `a` and the
      separator gives `a` followed by the split of the rest. */
  lemma SplitAt(a: string, c: char, rest: string)
    requires c !in a
    ensures Split(a + [c] + rest, c) == [a] + Split(rest, c)
  {
    var s := a + [c] + rest;
    assert s[|a|] == c;
    assert s[..|a|] == a && s[|a| + 1..] == rest;
  }

  /** The same, for a rest whose split is already known. */
  lemma SplitCons(a: string, c: char, rest: string, fields: seq<string>)
    requires c !in a && Split(rest, c) == fields
    ensures Split(a + [c] + rest, c) == [a] + fields
  {
    SplitAt(a, c, rest);
  }

  /** Two separator-free fields in front of a rest whose split is known. */
  lemma SplitTwo(a: string, b: string, c: char, rest: string, fields: seq<string>)
    requires c !in a && c !in b && Split(rest, c) == fields
    ensures Split(a + [c] + b + [c] + rest, c) == [a, b] + fields
  {
    SplitCons(b, c, rest, fields);
    SplitCons(a, c, b + [c] + rest, [b] + fields);
    SeparatedTwice(a, b, c, rest);
    assert [a] + ([b] + fields) == [a, b] + fields;
  }

  lemma SeparatedTwice<T>(a: seq<T>, b: seq<T>, c: T, rest: seq<T>)
    ensures a + [c] + b + [c] + rest == a + [c] + (b + [c] + rest)
  {
    ConcatAssoc(a + [c], b, [c]);
    ConcatAssoc(a + [c], b + [c], rest);
  }

  /** In a buffer of whole four-byte pixels, the pixel starting at i is
      inside it and the next one starts on a pixel boundary. */
  lemma NextPixel(i: nat, len: nat)
    requires i % 4 == 0 && len % 4 == 0 && i < len
    ensures i + 3 < len && (i + 4) % 4 == 0
  {
  }

  lemma ConcatAssoc<T>(x: seq<T>, y: seq<T>, z: seq<T>)
    ensures x + y + z == x + (y + z)
  {
  }

  /** `parts.join(sep)` */
  function Join(parts: seq<string>, sep: string): string
  {
    if |parts| == 0 then ""
    else if |parts| == 1 then parts[0]
    else parts[0] + sep + Join(parts[1..], sep)
  }

  /** Joining separator-free parts with a one-character separator and
      splitting at it gives the parts back. */
  lemma {:induction false} SplitJoin(parts: seq<string>, c: char)
    requires |parts| >= 1 && forall k :: 0 <= k < |parts| ==> c !in parts[k]
    ensures Split(Join(parts, [c]), c) == parts
  {
    if |parts| > 1 {
      SplitJoin(parts[1..], c);
      SplitCons(parts[0], c, Join(parts[1..], [c]), parts[1..]);
      assert [parts[0]] + parts[1..] == parts;
    }
  }

  /** A character other than the separator put in front of a text joins
      the first field. */
  lemma SplitPrefixed(x: char, s: string, c: char)
    requires x != c
    ensures Split([x] + s, c) == [[x] + Split(s, c)[0]] + Split(s, c)[1..]
  {
    var t := [x] + s;
    assert t[1..] == s;
    match IndexOf(s, c)
    case None =>
    case Some(i) =>
      assert IndexOf(t, c) == Some(i + 1);
      assert t[..i + 1] == [x] + s[..i];
      assert t[i + 2..] == s[i + 1..];
  }

  /** A character in none of the parts nor the separator is not in their
      join. */
  lemma {:induction false} JoinWithout(parts: seq<string>, sep: string, c: char)
    requires c !in sep && forall k :: 0 <= k < |parts| ==> c !in parts[k]
    ensures c !in Join(parts, sep)
  {
    if |parts| > 1 {
      JoinWithout(parts[1..], sep, c);
    }
  }

  /** The characters `String.prototype.trim` removes: white space and line
      terminators as ECMAScript defines them. */
  predicate IsJsSpace(c: char)
  {
    c == ' ' || c == '\t' || c == '\n' || c == '\r' || c == '\U{000B}' || c == '\U{000C}'
    || c == '\U{00A0}' || c == '\U{FEFF}' || c == '\U{1680}' || ('\U{2000}' <= c <= '\U{200A}')
    || c == '\U{2028}' || c == '\U{2029}' || c == '\U{202F}' || c == '\U{205F}' || c == '\U{3000}'
  }

  function TrimStart(s: string): (r: string)
    ensures |r| <= |s| && r == s[|s| - |r|..]
    ensures forall k :: 0 <= k < |s| - |r| ==> IsJsSpace(s[k])
    ensures |r| > 0 ==> !IsJsSpace(r[0])
    ensures (forall k :: 0 <= k < |s| ==> !IsJsSpace(s[k])) ==> r == s
  {
    if |s| > 0 && IsJsSpace(s[0]) then
      var tail := s[1..];
      var r := TrimStart(tail);
      assert forall k :: 1 <= k < |s| - |r| ==> s[k] == tail[k - 1];
      r
    else s
  }

  function TrimEnd(s: string): (r: string)
    ensures |r| <= |s| && r == s[..|r|]
    ensures forall k :: |r| <= k < |s| ==> IsJsSpace(s[k])
    ensures |r| > 0 ==> !IsJsSpace(r[|r| - 1])
    ensures (|s| > 0 && !IsJsSpace(s[|s| - 1])) ==> r == s
  {
    if |s| > 0 && IsJsSpace(s[|s| - 1]) then
      var init := s[..|s| - 1];
      var r := TrimEnd(init);
      assert forall k :: |r| <= k < |s| - 1 ==> s[k] == init[k];
      r
    else s
  }

  /** `r` is `s` with white space, and only white space, cut from its
      two ends. */
  ghost predicate CutFrom(s: string, r: string)
  {
    exists i, j :: 0 <= i <= j <= |s| && r == s[i..j]
      && (forall k :: 0 <= k < i ==> IsJsSpace(s[k]))
      && (forall k :: j <= k < |s| ==> IsJsSpace(s[k]))
  }

  /** `s.trim()` */
  function Trim(s: string): (r: string)
    ensures |r| <= |s|
    ensures |r| > 0 ==> !IsJsSpace(r[0]) && !IsJsSpace(r[|r| - 1])
    ensures CutFrom(s, r)
  {
    var t := TrimStart(s);
    var r := TrimEnd(t);
    TrimCut(s, t, r);
    r
  }

  /** Trimming the front and then the back cuts only white space. */
  lemma TrimCut(s: string, t: string, r: string)
    requires |t| <= |s| && t == s[|s| - |t|..] && forall k :: 0 <= k < |s| - |t| ==> IsJsSpace(s[k])
    requires |r| <= |t| && r == t[..|r|] && forall k :: |r| <= k < |t| ==> IsJsSpace(t[k])
    ensures CutFrom(s, r)
  {
    var i := |s| - |t|;
    var j := i + |r|;
    assert r == s[i..j];
    forall k | j <= k < |s|
      ensures IsJsSpace(s[k])
    {
      assert s[k] == t[k - i];
    }
  }

  /** A string is falsy in JavaScript exactly when it is empty; `a || b` on
      strings picks the first non-empty one. */
  function OrElse(a: string, b: string): (r: string)
    ensures r == a || r == b
    ensures r == "" ==> a == "" && b == ""
  {
    if a != "" then a else b
  }

  // ---------------------------------------------------------------------------
  // Numbers

  /** `Math.round` on a finite number: the nearest integer, halves rounded up. */
  function Round(x: real): (r: int)
    ensures x - 0.5 < r as real <= x + 0.5
  {
    (x + 0.5).Floor
  }

  /** `Math.ceil` */
  function Ceil(x: real): (r: int)
    ensures x <= r as real < x + 1.0
  {
    -((-x).Floor)
  }

  /** `Math.floor` */
  function Floor(x: real): (r: int)
    ensures r as real <= x < r as real + 1.0
  {
    x.Floor
  }

  /** `Math.max` on integers */
  function MaxInt(a: int, b: int): (r: int)
    ensures r >= a && r >= b && (r == a || r == b)
  {
    if a >= b then a else b
  }

  /** `Math.min` on integers */
  function MinInt(a: int, b: int): (r: int)
    ensures r <= a && r <= b && (r == a || r == b)
  {
    if a <= b then a else b
  }

  /** `Math.max` */
  function MaxReal(a: real, b: real): (r: real)
    ensures r >= a && r >= b && (r == a || r == b)
  {
    if a >= b then a else b
  }

  /** `Math.min` */
  function MinReal(a: real, b: real): (r: real)
    ensures r <= a && r <= b && (r == a || r == b)
  {
    if a <= b then a else b
  }

  /** `Math.abs` */
  function AbsReal(a: real): real { if a >= 0.0 then a else -a }

  // ---------------------------------------------------------------------------
  // Arithmetic facts the solver needs spelled out

  lemma MulLeReal(a: real, b: real, k: real)
    requires a <= b && k >= 0.0
    ensures a * k <= b * k
  {
  }

  lemma MulLessReal(a: real, b: real, k: real)
    requires a < b && k > 0.0
    ensures a * k < b * k
  {
  }

  /** Multiplying by a positive k keeps the order both ways. */
  lemma LeCancel(x: real, y: real, k: real)
    requires k > 0.0
    ensures x * k <= y * k ==> x <= y
  {
    if x > y {
      MulLessReal(y, x, k);
    }
  }

  lemma LtCancel(x: real, y: real, k: real)
    requires k > 0.0
    ensures x * k < y * k ==> x < y
  {
    if x >= y {
      MulLeReal(y, x, k);
    }
  }

  lemma DivLeReal(a: real, b: real, k: real)
    requires k > 0.0 && a <= k * b
    ensures a / k <= b
  {
    assert (a / k) * k == a;
    LeCancel(a / k, b, k);
  }

  /** A numerator below lo·k (above hi·k) gives a quotient by k below lo
      (above hi). */
  lemma QuotientBounds(a: real, k: real, lo: real, hi: real)
    requires k > 0.0
    ensures a < lo * k ==> a / k < lo
    ensures a > hi * k ==> a / k > hi
  {
    assert (a / k) * k == a;
    if a / k >= lo {
      MulLeReal(lo, a / k, k);
    }
    if a / k <= hi {
      MulLeReal(a / k, hi, k);
    }
  }

  /** A quotient of a non-negative number by a larger one is below 1. */
  lemma DivBelowOne(a: real, b: real)
    requires 0.0 <= a < b
    ensures 0.0 <= a / b < 1.0
  {
    assert (a / b) * b == a;
    LeCancel(0.0, a / b, b);
    LtCancel(a / b, 1.0, b);
  }

  /** `Math.floor(r * n)` with `r` from `Math.random()`: an index of a
      list of `n` elements. */
  function RandomIndex(r: real, n: nat): (i: nat)
    requires 0.0 <= r < 1.0 && n > 0
    ensures i < n && i as real <= r * n as real < i as real + 1.0
  {
    var x := r * n as real;
    MulLessReal(r, 1.0, n as real);
    MulLeReal(0.0, r, n as real);
    var i := Floor(x);
    assert i as real < n as real;
    i
  }

  lemma Distribute(a: int, b: int, c: int)
    ensures (a + b) * c == a * c + b * c
  {
  }

  /** n·m as repeated addition; lemmas about sums stay linear when they
      speak of `Times` instead of a product of two variables. */
  function Times(n: nat, m: int): int
  {
    if n == 0 then 0 else Times(n - 1, m) + m
  }

  lemma {:induction false} TimesIsProduct(n: nat, m: int)
    ensures Times(n, m) == n * m
  {
    if n > 0 {
      TimesIsProduct(n - 1, m);
    }
  }

  lemma {:induction false} TimesAdd(a: nat, b: nat, m: int)
    ensures Times(a + b, m) == Times(a, m) + Times(b, m)
  {
    if b > 0 {
      TimesAdd(a, b - 1, m);
    }
  }

  lemma {:induction false} TimesMonotone(n: nat, a: int, b: int)
    requires a <= b
    ensures Times(n, a) <= Times(n, b)
  {
    if n > 0 {
      TimesMonotone(n - 1, a, b);
    }
  }

  lemma {:induction false} TimesGrows(a: nat, b: nat, m: int)
    requires a <= b && m >= 0
    ensures Times(a, m) <= Times(b, m)
    decreases b
  {
    if a < b {
      TimesGrows(a, b - 1, m);
    }
  }
}
