/** `app/scan/page.tsx`: reading a token from a QR code or typed text, and
    the page's scan states. The browser's URL parser and
    `decodeURIComponent` are parameters: `pathnameOf(raw)` is the
    `pathname` of `new URL(raw)` (`None` when the constructor throws) and
    `decode(s)` is `decodeURIComponent(s)` (`None` when it throws). The
    camera and the network are outside the model: what they answer is a
    parameter of the step that receives it. */
module Scan {
  import opened Common

  // ---------------------------------------------------------------------------
  // `extractToken`

  /** `s.indexOf(sub)`, with `None` for -1. */
  function Find(s: string, sub: string): (r: Option<nat>)
    ensures r.None? <==> !Contains(s, sub)
    ensures r.Some? ==> r.value + |sub| <= |s| && StartsWith(s[r.value..], sub)
    ensures r.Some? ==> forall k :: 0 <= k < r.value ==> !StartsWith(s[k..], sub)
    decreases |s|
  {
    if StartsWith(s, sub) then Some(0)
    else if |s| == 0 then None
    else
      match Find(s[1..], sub)
      case None => None
      case Some(i) =>
        assert forall k :: 1 <= k <= i ==> s[k..] == s[1..][k - 1..];
        Some(i + 1)
  }

  const ArMarker := "/ar/"

  /** `raw.split('/ar/')[1]` when `raw` holds the marker: the text after
      its first occurrence, up to the next one. */
  function AfterMarker(raw: string): (t: string)
    requires Contains(raw, ArMarker)
    ensures !Contains(t, ArMarker)
  {
    var i := Find(raw, ArMarker).value;
    var rest := raw[i + |ArMarker|..];
    match Find(rest, ArMarker)
    case None => rest
    case Some(j) =>
      var t := rest[..j];
      assert !Contains(t, ArMarker) by {
        PrefixAvoids(rest, j, ArMarker);
      }
      t
  }

  /** A prefix that ends before the first occurrence of `sub` does not
      contain `sub`. */
  lemma {:induction false} PrefixAvoids(s: string, j: nat, sub: string)
    requires j <= |s| && |sub| > 0
    requires forall k :: 0 <= k < j ==> !StartsWith(s[k..], sub)
    ensures !Contains(s[..j], sub)
    decreases j
  {
    if j > 0 {
      assert !StartsWith(s[..j], sub) by {
        assert !StartsWith(s[0..], sub);
        assert s[0..] == s;
        if |sub| <= j {
          assert s[..j][..|sub|] == s[..|sub|];
        }
      }
      forall k | 0 <= k < j - 1 ensures !StartsWith(s[1..][k..], sub) {
        assert s[1..][k..] == s[k + 1..];
      }
      PrefixAvoids(s[1..], j - 1, sub);
      assert s[..j][1..] == s[1..][..j - 1];
    }
  }

  /** `token.split(/[?#]/)[0]`: the text before the first `?` or `#`. */
  function CutQuery(t: string): (r: string)
    ensures StartsWith(t, r)
    ensures '?' !in r && '#' !in r
    ensures |r| < |t| ==> t[|r|] == '?' || t[|r|] == '#'
  {
    if t == [] || t[0] == '?' || t[0] == '#' then ""
    else
      var r := CutQuery(t[1..]);
      assert t[..|r| + 1] == [t[0]] + t[1..][..|r|];
      [t[0]] + r
  }

  /** `.filter(Boolean)` on the path's pieces. */
  function NonEmpty(parts: seq<string>): (r: seq<string>)
    ensures forall k :: 0 <= k < |r| ==> r[k] != ""
    ensures forall x :: x in r <==> x in parts && x != ""
  {
    if parts == [] then []
    else if parts[0] == "" then NonEmpty(parts[1..])
    else [parts[0]] + NonEmpty(parts[1..])
  }

  /** `url.pathname.split('/').filter(Boolean)` */
  function Segments(pathname: string): (r: seq<string>)
    ensures forall k :: 0 <= k < |r| ==> r[k] != "" && '/' !in r[k]
  {
    var parts := Split(pathname, '/');
    var r := NonEmpty(parts);
    assert forall k :: 0 <= k < |r| ==> r[k] in parts;
    r
  }

  /** `parts.indexOf(x)`, with `None` for -1. */
  function Position(parts: seq<string>, x: string): (r: Option<nat>)
    ensures r.None? <==> x !in parts
    ensures r.Some? ==> r.value < |parts| && parts[r.value] == x && x !in parts[..r.value]
  {
    if parts == [] then None
    else if parts[0] == x then Some(0)
    else
      match Position(parts[1..], x)
      case None => None
      case Some(i) =>
        assert parts[..i + 1] == [parts[0]] + parts[1..][..i];
        Some(i + 1)
  }

  /** How the `try` block of `extractToken` ends. */
  datatype Outcome = Returned(token: Option<string>) | Threw

  /** The `try` block: the segment after the first `ar` segment, decoded. */
  function FromUrl(pathname: Option<string>, decode: string -> Option<string>): Outcome
  {
    match pathname
    case None => Threw
    case Some(p) =>
      var parts := Segments(p);
      match Position(parts, "ar")
      case Some(i) =>
        if i + 1 < |parts| then
          match decode(parts[i + 1])
          case None => Threw
          case Some(d) => Returned(Some(d))
        else Returned(None)
      case None => Returned(None)
  }

  /** The `catch` block: the text after `/ar/`, cut at a query or
      fragment, or else the whole trimmed text. */
  function FromText(raw: string): (r: Option<string>)
    ensures !Contains(raw, ArMarker) ==> r == Some(raw)
    ensures Contains(raw, ArMarker) && r.Some? ==>
      && '?' !in r.value && '#' !in r.value
      && StartsWith(AfterMarker(raw), r.value)
  {
    if Contains(raw, ArMarker) then
      var t := AfterMarker(raw);
      if t == "" then None else Some(CutQuery(t))
    else Some(raw)
  }

  /** `extractToken(value)` */
  function ExtractToken(value: string, pathnameOf: string -> Option<string>, decode: string -> Option<string>): Option<string>
  {
    var raw := Trim(value);
    if raw == "" then None
    else
      match FromUrl(pathnameOf(raw), decode)
      case Returned(token) => token
      case Threw => FromText(raw)
  }

  /** `extractToken` tries the input as a URL first: blank input gives
      nothing, a URL gives what its path gives, and input that is not a URL
      (or whose token segment will not decode) is read as text. */
  lemma ExtractTokenCases(value: string, pathnameOf: string -> Option<string>, decode: string -> Option<string>)
    ensures Trim(value) == "" ==> ExtractToken(value, pathnameOf, decode) == None
    ensures Trim(value) != "" && FromUrl(pathnameOf(Trim(value)), decode).Returned? ==>
      ExtractToken(value, pathnameOf, decode) == FromUrl(pathnameOf(Trim(value)), decode).token
    ensures Trim(value) != "" && FromUrl(pathnameOf(Trim(value)), decode).Threw? ==>
      ExtractToken(value, pathnameOf, decode) == FromText(Trim(value))
  {
  }

  /** A parsed URL gives the decoded segment right after its first `ar`
      segment. */
  lemma UrlToken(value: string, pathnameOf: string -> Option<string>, decode: string -> Option<string>, i: nat)
    requires Trim(value) != "" && pathnameOf(Trim(value)).Some?
    requires var parts := Segments(pathnameOf(Trim(value)).value);
      i + 1 < |parts| && parts[i] == "ar" && "ar" !in parts[..i] && decode(parts[i + 1]).Some?
    ensures ExtractToken(value, pathnameOf, decode) == decode(Segments(pathnameOf(Trim(value)).value)[i + 1])
  {
    var raw := Trim(value);
    var parts := Segments(pathnameOf(raw).value);
    assert Position(parts, "ar") == Some(i);
    assert FromUrl(pathnameOf(raw), decode) == Returned(decode(parts[i + 1]));
  }

  /** A parsed URL without an `ar` segment followed by another gives
      nothing, whatever the rest of the text. */
  lemma UrlWithoutToken(value: string, pathnameOf: string -> Option<string>, decode: string -> Option<string>)
    requires Trim(value) != "" && pathnameOf(Trim(value)).Some?
    requires var parts := Segments(pathnameOf(Trim(value)).value);
      forall i :: 0 <= i < |parts| - 1 ==> parts[i] != "ar"
    ensures ExtractToken(value, pathnameOf, decode) == None
  {
    var parts := Segments(pathnameOf(Trim(value)).value);
    var p := Position(parts, "ar");
    if p.Some? {
      assert p.value + 1 >= |parts|;
    }
  }

  /** Text that is not a URL and holds no `/ar/` is taken whole. */
  lemma PlainTextToken(value: string, pathnameOf: string -> Option<string>, decode: string -> Option<string>)
    requires Trim(value) != "" && pathnameOf(Trim(value)).None? && !Contains(Trim(value), ArMarker)
    ensures ExtractToken(value, pathnameOf, decode) == Some(Trim(value))
  {
  }

  /** A token with no `/`, `?` or `#`, written after `host/ar/` in text that
      is not a URL, is read back. */
  lemma LinkRoundTrip(host: string, token: string)
    requires '/' !in host && host != "" && !IsJsSpace(host[0])
    requires token != "" && '/' !in token && '?' !in token && '#' !in token && !IsJsSpace(token[|token| - 1])
    ensures FromText(host + ArMarker + token) == Some(token)
  {
    var raw := host + ArMarker + token;
    var n := |host|;
    assert StartsWith(raw[n..], ArMarker) by {
      assert raw[n..] == ArMarker + token;
    }
    forall k | 0 <= k < n ensures !StartsWith(raw[k..], ArMarker) {
      assert raw[k..][0] == host[k];
    }
    FindIsFirst(raw, ArMarker, n);
    assert raw[n + |ArMarker|..] == token;
    assert !Contains(token, ArMarker) by {
      NoSlashNoMarker(token);
    }
    CutQueryKeeps(token);
  }

  /** Without `/` there is no `/ar/`. */
  lemma {:induction false} NoSlashNoMarker(s: string)
    requires '/' !in s
    ensures !Contains(s, ArMarker)
    decreases |s|
  {
    if |s| > 0 {
      assert !StartsWith(s, ArMarker) by {
        if |ArMarker| <= |s| {
          assert s[..|ArMarker|][0] == s[0];
        }
      }
      assert '/' !in s[1..] by {
        forall k | 0 <= k < |s| - 1 ensures s[1..][k] != '/' {
          assert s[1..][k] == s[k + 1];
        }
      }
      NoSlashNoMarker(s[1..]);
    }
  }

  /** The first occurrence is found where it is. */
  lemma FindIsFirst(s: string, sub: string, n: nat)
    requires n + |sub| <= |s| && StartsWith(s[n..], sub)
    requires forall k :: 0 <= k < n ==> !StartsWith(s[k..], sub)
    ensures Find(s, sub) == Some(n)
  {
    var r := Find(s, sub);
    if r.None? {
      ContainsAt(s, sub, n);
    } else if r.value < n {
    } else if r.value > n {
    }
  }

  lemma {:induction false} ContainsAt(s: string, sub: string, n: nat)
    requires n <= |s| && StartsWith(s[n..], sub)
    ensures Contains(s, sub)
    decreases n
  {
    if n > 0 {
      assert s[1..][n - 1..] == s[n..];
      ContainsAt(s[1..], sub, n - 1);
    } else {
      assert s[0..] == s;
    }
  }

  /** A token without `?` or `#` is not cut. */
  lemma {:induction false} CutQueryKeeps(t: string)
    requires '?' !in t && '#' !in t
    ensures CutQuery(t) == t
  {
    var r := CutQuery(t);
    assert |r| == |t|;
  }

  // ---------------------------------------------------------------------------
  // The page

  datatype ScanState = Idle | Scanning | Checking | Ready | Failed

  /** What `fetch('/api/meta/' + token)` gives: a response that is not ok,
      the body's `imageUrl` and `expiresAt`, or a throw (network or JSON). */
  datatype MetaReply = NotFound | Meta(imageUrl: string, expiresAt: string) | Unreachable

  /** An extracted token that is looked up: `!extracted` is false. */
  predicate Usable(extracted: Option<string>)
  {
    extracted.Some? && extracted.value != ""
  }

  const CameraDenied := "カメラの利用が許可されていません。"
  const Unreadable := "QRの内容が読み取れませんでした。"
  const UnknownToken := "番号が見つかりません。もう一度読み込んでください。"
  const LookupFailed := "照合に失敗しました。通信状況をご確認ください。"
  const EnterToken := "番号またはURLを入力してください。"

  /** The page's state (`useState`) and refs: `active` is `activeRef`,
      `streaming` says `streamRef` holds a stream and `framePending` that
      `rafRef` holds a frame request. `seen` is the state the frame loop's
      closure captured when the scan started, which is the state
      `handleResult` reads when the loop calls it. */
  class ScanPage {
    var state: ScanState
    var error: string
    var tokenInput: string
    var token: string
    var imageUrl: string
    var expiresAt: string
    var supported: bool
    var active: bool
    var streaming: bool
    var framePending: bool
    var seen: ScanState

    /** The first render, after the mount effect has read
        `isBarcodeSupported()`. */
    constructor(barcodeSupported: bool)
      ensures state == Idle && error == "" && tokenInput == "" && token == ""
      ensures imageUrl == "" && expiresAt == "" && supported == barcodeSupported
      ensures !active && !streaming && !framePending && seen == Idle
    {
      state, error, tokenInput, token := Idle, "", "", "";
      imageUrl, expiresAt, supported := "", "", barcodeSupported;
      active, streaming, framePending, seen := false, false, false, Idle;
    }

    /** No camera is in use and no frame is awaited. */
    predicate Stopped()
      reads this
    {
      !active && !streaming && !framePending
    }

    /** `stopScan`: stops the loop, the pending frame and the camera. */
    method StopScan()
      modifies this
      ensures Stopped()
      ensures state == old(state) && error == old(error) && tokenInput == old(tokenInput) && token == old(token)
      ensures imageUrl == old(imageUrl) && expiresAt == old(expiresAt) && supported == old(supported) && seen == old(seen)
    {
      active := false;
      framePending := false;
      streaming := false;
    }

    /** `startScan`: `cameraReady` says whether `getUserMedia`, `play` and
        the detector's construction succeed. Unsupported or already
        scanning, nothing happens; otherwise the loop starts, or the camera
        is stopped and the page shows the camera error. */
    method StartScan(cameraReady: bool)
      modifies this
      ensures !old(supported) || old(state) == Scanning ==>
        state == old(state) && error == old(error) && active == old(active)
        && streaming == old(streaming) && framePending == old(framePending) && seen == old(seen)
      ensures old(supported) && old(state) != Scanning && cameraReady ==>
        state == Scanning && error == "" && active && streaming && framePending && seen == old(state)
      ensures old(supported) && old(state) != Scanning && !cameraReady ==>
        state == Failed && error == CameraDenied && Stopped() && seen == old(seen)
      ensures tokenInput == old(tokenInput) && token == old(token) && imageUrl == old(imageUrl)
      ensures expiresAt == old(expiresAt) && supported == old(supported)
    {
      if !supported || state == Scanning {
        return;
      }
      var before := state;
      error := "";
      state := Scanning;
      if cameraReady {
        streaming := true;
        active := true;
        framePending := true;
        seen := before;
      } else {
        StopScan();
        state := Failed;
        error := CameraDenied;
      }
    }

    /** `lookupToken(rawValue)` up to its `fetch`: the token whose lookup is
        now pending, if any. A value that yields no token (or an empty
        one) shows the unreadable error at once. */
    method LookupToken(rawValue: string, pathnameOf: string -> Option<string>, decode: string -> Option<string>)
      returns (pending: Option<string>)
      modifies this
      ensures Begun(ExtractToken(rawValue, pathnameOf, decode), pending)
      ensures token == old(token) && imageUrl == old(imageUrl) && expiresAt == old(expiresAt) && supported == old(supported)
      ensures active == old(active) && streaming == old(streaming) && framePending == old(framePending) && seen == old(seen)
      ensures !Usable(ExtractToken(rawValue, pathnameOf, decode)) ==> tokenInput == old(tokenInput)
    {
      var extracted := ExtractToken(rawValue, pathnameOf, decode);
      pending := Begin(extracted);
    }

    /** The state once a lookup of `extracted` has begun, or been refused. */
    predicate Begun(extracted: Option<string>, pending: Option<string>)
      reads this
    {
      if Usable(extracted) then
        pending == extracted && state == Checking && error == "" && tokenInput == extracted.value
      else
        pending == None && state == Failed && error == Unreadable
    }

    /** The body of `lookupToken` after `extractToken`. */
    method Begin(extracted: Option<string>) returns (pending: Option<string>)
      modifies this
      ensures Begun(extracted, pending)
      ensures token == old(token) && imageUrl == old(imageUrl) && expiresAt == old(expiresAt) && supported == old(supported)
      ensures active == old(active) && streaming == old(streaming) && framePending == old(framePending) && seen == old(seen)
      ensures !Usable(extracted) ==> tokenInput == old(tokenInput)
    {
      if !Usable(extracted) {
        state := Failed;
        error := Unreadable;
        return None;
      }
      tokenInput := extracted.value;
      state := Checking;
      error := "";
      pending := extracted;
    }

    /** The rest of `lookupToken`, once the lookup of `extracted` answers. */
    method LookupDone(extracted: string, reply: MetaReply)
      modifies this
      ensures reply.Meta? ==>
        state == Ready && token == extracted && imageUrl == reply.imageUrl && expiresAt == reply.expiresAt && error == old(error)
      ensures reply.NotFound? ==> state == Failed && error == UnknownToken
      ensures reply.Unreachable? ==> state == Failed && error == LookupFailed
      ensures !reply.Meta? ==> token == old(token) && imageUrl == old(imageUrl) && expiresAt == old(expiresAt)
      ensures tokenInput == old(tokenInput) && supported == old(supported) && seen == old(seen)
      ensures active == old(active) && streaming == old(streaming) && framePending == old(framePending)
    {
      match reply
      case NotFound =>
        state := Failed;
        error := UnknownToken;
      case Meta(url, expires) =>
        token := extracted;
        imageUrl := url;
        expiresAt := expires;
        state := Ready;
      case Unreachable =>
        state := Failed;
        error := LookupFailed;
    }

    /** `handleResult(rawValue)`, reading the state `seenState`: ignored
        while a lookup is pending or its result shown; otherwise the
        camera stops and the lookup starts. */
    method HandleResult(rawValue: string, seenState: ScanState, pathnameOf: string -> Option<string>, decode: string -> Option<string>)
      returns (pending: Option<string>)
      modifies this
      ensures seenState == Checking || seenState == Ready ==>
        pending == None && state == old(state) && error == old(error) && tokenInput == old(tokenInput)
        && active == old(active) && streaming == old(streaming) && framePending == old(framePending)
      ensures seenState != Checking && seenState != Ready ==>
        Stopped() && Begun(ExtractToken(rawValue, pathnameOf, decode), pending)
      ensures token == old(token) && imageUrl == old(imageUrl) && expiresAt == old(expiresAt)
      ensures supported == old(supported) && seen == old(seen)
    {
      if seenState == Checking || seenState == Ready {
        return None;
      }
      StopScan();
      pending := LookupToken(rawValue, pathnameOf, decode);
    }

    /** One frame of the scan loop: `detected` is the code's text (`""`
        when no code is seen or detection throws). A loop that is no
        longer active stops; a code goes to `handleResult` and ends the
        loop; otherwise the next frame is requested. */
    method ScanFrame(detected: string, pathnameOf: string -> Option<string>, decode: string -> Option<string>)
      returns (pending: Option<string>)
      modifies this
      ensures !old(active) ==> pending == None && state == old(state) && framePending == old(framePending)
      ensures old(active) && detected == "" ==> pending == None && state == old(state) && framePending
      ensures old(active) && detected != "" && (seen == Checking || seen == Ready) ==> pending == None && state == old(state)
      ensures old(active) && detected != "" && seen != Checking && seen != Ready ==> Stopped()
      ensures token == old(token) && imageUrl == old(imageUrl) && expiresAt == old(expiresAt) && supported == old(supported)
    {
      if !active {
        return None;
      }
      if detected != "" {
        pending := HandleResult(detected, seen, pathnameOf, decode);
        return;
      }
      framePending := true;
      pending := None;
    }

    /** `handleManual`: an empty input shows a hint; otherwise the camera
        stops and the trimmed input is looked up. */
    method HandleManual(pathnameOf: string -> Option<string>, decode: string -> Option<string>)
      returns (pending: Option<string>)
      modifies this
      ensures Trim(old(tokenInput)) == "" ==>
        pending == None && error == EnterToken && state == old(state) && tokenInput == old(tokenInput)
        && active == old(active) && streaming == old(streaming)
      ensures Trim(old(tokenInput)) != "" ==>
        Stopped() && Begun(ExtractToken(Trim(old(tokenInput)), pathnameOf, decode), pending)
      ensures token == old(token) && imageUrl == old(imageUrl) && expiresAt == old(expiresAt) && supported == old(supported)
    {
      pending := HandleTrimmed(Trim(tokenInput), pathnameOf, decode);
    }

    /** `handleManual` on the trimmed input `raw`. */
    method HandleTrimmed(raw: string, pathnameOf: string -> Option<string>, decode: string -> Option<string>)
      returns (pending: Option<string>)
      modifies this
      ensures raw == "" ==>
        pending == None && error == EnterToken && state == old(state) && tokenInput == old(tokenInput)
        && active == old(active) && streaming == old(streaming)
      ensures raw != "" ==> Stopped() && Begun(ExtractToken(raw, pathnameOf, decode), pending)
      ensures token == old(token) && imageUrl == old(imageUrl) && expiresAt == old(expiresAt) && supported == old(supported)
    {
      if raw == "" {
        error := EnterToken;
        return None;
      }
      StopScan();
      pending := LookupToken(raw, pathnameOf, decode);
    }

    /** The stop button: the camera stops and the page is idle. */
    method Halt()
      modifies this
      ensures Stopped() && state == Idle
      ensures error == old(error) && tokenInput == old(tokenInput) && token == old(token)
      ensures imageUrl == old(imageUrl) && expiresAt == old(expiresAt) && supported == old(supported)
    {
      StopScan();
      state := Idle;
    }

    /** The input's `onChange`. */
    method EditInput(text: string)
      modifies this
      ensures tokenInput == text
      ensures state == old(state) && error == old(error) && token == old(token) && imageUrl == old(imageUrl)
      ensures active == old(active) && streaming == old(streaming) && framePending == old(framePending)
    {
      tokenInput := text;
    }

    /** The clear button: empty input, no error, idle. The camera is left
        as it is. */
    method ClearInput()
      modifies this
      ensures tokenInput == "" && error == "" && state == Idle
      ensures token == old(token) && imageUrl == old(imageUrl)
      ensures active == old(active) && streaming == old(streaming) && framePending == old(framePending)
    {
      tokenInput := "";
      error := "";
      state := Idle;
    }

    /** The retry button shown with an error: looks the input up again,
        untrimmed. */
    method Retry(pathnameOf: string -> Option<string>, decode: string -> Option<string>)
      returns (pending: Option<string>)
      modifies this
      ensures Begun(ExtractToken(old(tokenInput), pathnameOf, decode), pending)
      ensures token == old(token) && active == old(active) && streaming == old(streaming)
    {
      pending := LookupToken(tokenInput, pathnameOf, decode);
    }

    /** The "read again" button shown with a result. */
    method ReadAgain()
      modifies this
      ensures state == Idle && error == ""
      ensures token == old(token) && tokenInput == old(tokenInput) && imageUrl == old(imageUrl)
      ensures active == old(active) && streaming == old(streaming) && framePending == old(framePending)
    {
      state := Idle;
      error := "";
    }
  }
}
