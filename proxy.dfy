/** `proxy.ts`: the request middleware. Admin pages and the admin API sit
    behind HTTP Basic when both `ADMIN_USER` and `ADMIN_PASS` are set, and an
    AR link whose token has visibly expired is rewritten to the expiry page.
    `atob` is a parameter (`None` when it throws). */
module Proxy {
  import opened Common
  import opened JsNumber

  /** What the middleware answers. `Crashed` is an exception escaping it
      (`atob` on text that is not base64). */
  datatype Response = Unauthorized | Rewrite(path: string) | Next | Crashed

  const ExpiredPage := "/ar/expired"

  predicate IsAdminPath(pathname: string)
  {
    StartsWith(pathname, "/admin") || StartsWith(pathname, "/api/admin")
  }

  /** `pathname.split('/')[2]`: the segment after `/ar/`, `None` when there
      is none. */
  function ArSegment(pathname: string): Option<string>
  {
    var parts := Split(pathname, '/');
    if |parts| > 2 then Some(parts[2]) else None
  }

  /** The value of an expiry field when `Number(field)` is truthy: a
      number other than 0 and NaN. */
  function ExpiryOf(field: string): (exp: Option<real>)
    ensures exp.Some? ==> exp.value != 0.0
  {
    match ToNumber(field)
    case None => None
    case Some(v) => if v == 0.0 then None else Some(v)
  }

  /** `Number(token.split('.')[1])` when it is truthy; `None` also when
      there is no second dot-field (`Number(undefined)` is NaN). */
  function TokenExpiry(token: string): (exp: Option<real>)
    ensures exp.Some? ==> exp.value != 0.0
  {
    var fields := Split(token, '.');
    if |fields| < 2 then None else ExpiryOf(fields[1])
  }

  /** Whether the `/ar/` branch rewrites: the segment is non-empty and its
      expiry is truthy and in the past. */
  predicate ArExpired(pathname: string, now: int)
  {
    && StartsWith(pathname, "/ar/")
    && ArSegment(pathname).Some? && ArSegment(pathname).value != ""
    && TokenExpiry(ArSegment(pathname).value).Some?
    && now as real > TokenExpiry(ArSegment(pathname).value).value
  }

  /** `proxy(request)`: `adminUser`/`adminPass` are the process environment
      values (empty when unset), `authorization` the header, `now` the clock. */
  function Proxy(pathname: string, adminUser: string, adminPass: string, authorization: Option<string>,
                 atob: string -> Option<string>, now: int): (r: Response)
    ensures IsAdminPath(pathname) && adminUser != "" && adminPass != "" && (authorization.None? || !StartsWith(authorization.value, "Basic ")) ==>
      r == Unauthorized
    ensures IsAdminPath(pathname) && adminUser != "" && adminPass != "" && authorization.Some? && StartsWith(authorization.value, "Basic ") ==>
      var decoded := atob(authorization.value[6..]);
      && (r == Crashed <==> decoded.None?)
      && (r == Next <==> decoded.Some? && Matches(decoded.value, adminUser, adminPass))
      && (r == Unauthorized <==> decoded.Some? && !Matches(decoded.value, adminUser, adminPass))
    ensures !IsAdminPath(pathname) || adminUser == "" || adminPass == "" ==>
      (r == Rewrite(ExpiredPage) <==> ArExpired(pathname, now)) && (r == Next <==> !ArExpired(pathname, now))
    ensures r.Rewrite? ==> r.path == ExpiredPage
  {
    AdminNotAr(pathname);
    var gate :=
      if IsAdminPath(pathname) && adminUser != "" && adminPass != "" then AdminGate(adminUser, adminPass, authorization, atob)
      else Next;
    if gate != Next then gate
    else if ArExpired(pathname, now) then Rewrite(ExpiredPage)
    else Next
  }

  /** `const [user, pass] = decoded.split(':')` names the configured pair:
      the first colon-field is the user and the second the password. */
  predicate Matches(decoded: string, adminUser: string, adminPass: string)
  {
    var parts := Split(decoded, ':');
    |parts| >= 2 && parts[0] == adminUser && parts[1] == adminPass
  }

  /** An admin path never starts with `/ar/`, so the expiry rewrite does
      not apply to it. */
  lemma AdminNotAr(pathname: string)
    ensures IsAdminPath(pathname) ==> !StartsWith(pathname, "/ar/")
  {
    if StartsWith(pathname, "/ar/") {
      assert pathname[..4][1] == 'a' && pathname[..4][2] == 'r';
    }
  }

  /** The Basic check inside `proxy`: `Next` lets the request through. The
      password is the second colon-field of the decoded header. */
  function AdminGate(adminUser: string, adminPass: string, authorization: Option<string>, atob: string -> Option<string>): (r: Response)
    requires adminUser != "" && adminPass != ""
    ensures r == Next || r == Unauthorized || r == Crashed
    ensures (authorization.None? || !StartsWith(authorization.value, "Basic ")) ==> r == Unauthorized
    ensures authorization.Some? && StartsWith(authorization.value, "Basic ") ==>
      var decoded := atob(authorization.value[6..]);
      && (r == Crashed <==> decoded.None?)
      && (r == Next <==> decoded.Some? && Matches(decoded.value, adminUser, adminPass))
  {
    var auth := if authorization.Some? then authorization.value else "";
    if !StartsWith(auth, "Basic ") then Unauthorized
    else
      match atob(auth[6..])
      case None => Crashed
      case Some(decoded) =>
        var parts := Split(decoded, ':');
        if parts[0] != adminUser || |parts| < 2 || parts[1] != adminPass then Unauthorized
        else Next
  }

  /** Under the admin prefixes with both credentials set, a request whose
      decoded credential does not carry the configured user and password
      as its first two colon-fields is refused. */
  lemma WrongCredentialsRefused(pathname: string, adminUser: string, adminPass: string, header: string,
                                atob: string -> Option<string>, now: int)
    requires IsAdminPath(pathname) && adminUser != "" && adminPass != ""
    requires StartsWith(header, "Basic ") && atob(header[6..]).Some?
    requires var parts := Split(atob(header[6..]).value, ':');
      parts[0] != adminUser || |parts| < 2 || parts[1] != adminPass
    ensures Proxy(pathname, adminUser, adminPass, Some(header), atob, now) == Unauthorized
  {
  }

  /** The `/ar/` rewrite never looks at the signature: the answer for
      `/ar/id.exp.sig` depends on `exp` and the clock only. */
  lemma SignatureIgnored(id: string, expText: string, sig: string, adminUser: string, adminPass: string,
                         authorization: Option<string>, atob: string -> Option<string>, now: int)
    requires '.' !in id && '.' !in expText && '/' !in id && '/' !in expText && '/' !in sig
    ensures var token := id + "." + expText + "." + sig;
      var expired := ExpiryOf(expText).Some? && now as real > ExpiryOf(expText).value;
      Proxy("/ar/" + token, adminUser, adminPass, authorization, atob, now) == if expired then Rewrite(ExpiredPage) else Next
  {
    var token := id + "." + expText + "." + sig;
    assert '/' !in token;
    ArTokenSegment(token);
    ExpiryField(id, expText, sig);
    NotAdmin(token);
  }

  /** The second dot-field of `id.exp.sig` is `exp` when neither `id`
      nor `exp` has a dot. */
  lemma ExpiryField(id: string, expText: string, sig: string)
    requires '.' !in id && '.' !in expText
    ensures TokenExpiry(id + "." + expText + "." + sig) == ExpiryOf(expText)
  {
    var token := id + "." + expText + "." + sig;
    assert token == id + ['.'] + expText + ['.'] + sig;
    var rest := Split(sig, '.');
    SplitTwo(id, expText, '.', sig, rest);
    ExpiryFromFields(token, [id, expText] + rest);
  }

  lemma ExpiryFromFields(token: string, fields: seq<string>)
    requires Split(token, '.') == fields && |fields| >= 2
    ensures TokenExpiry(token) == ExpiryOf(fields[1])
  {
  }

  lemma NotAdmin(token: string)
    ensures !IsAdminPath("/ar/" + token) && StartsWith("/ar/" + token, "/ar/")
  {
    var p := "/ar/" + token;
    assert p[..4] == "/ar/";
    assert p[1] == 'a' && p[2] == 'r';
  }

  /** The segment after `/ar/` is the token when it has no slash. */
  lemma ArTokenSegment(token: string)
    requires '/' !in token
    ensures ArSegment("/ar/" + token) == Some(token)
  {
    var p := "/ar/" + token;
    SplitAt("", '/', "ar/" + token);
    assert p == "" + ['/'] + ("ar/" + token);
    SplitAt("ar", '/', token);
    assert "ar/" + token == "ar" + ['/'] + token;
  }

  /** A token whose expiry field is 0, missing or not a number is never
      rewritten, however late it is. */
  lemma FalsyExpiryPasses(token: string, now: int)
    requires '/' !in token && token != ""
    requires TokenExpiry(token).None?
    ensures !ArExpired("/ar/" + token, now)
  {
    ArTokenSegment(token);
  }
}
