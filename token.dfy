/** `lib/token.ts`: the signed, expiring tokens that name a generated
    picture. A token is `id.exp.sig`: a random id, the expiry time in
    milliseconds, and the HMAC-SHA256 of `id.exp` in base64url. The HMAC and
    its secret are outside the model: `sign` is a parameter standing for
    `crypto.createHmac('sha256', secret).update(data).digest('base64url')`. */
module Token {
  import opened Common
  import opened JsNumber

  // ---------------------------------------------------------------------------
  // The secret

  /** The module variable `cachedSecret` of `getSecret`. */
  class SecretCache {
    var cached: string

    constructor()
      ensures cached == ""
    {
      cached := "";
    }

    /** `getSecret`: the cached secret when there is one; otherwise the
        configured `TOKEN_SECRET`, or else `random`, the 64 hex characters
        of `crypto.randomBytes(32)`. The answer is cached, so every later
        call returns it. */
    method GetSecret(configured: string, random: string) returns (secret: string)
      requires |random| == 64
      modifies this
      ensures old(cached) != "" ==> secret == old(cached)
      ensures old(cached) == "" && configured != "" ==> secret == configured
      ensures old(cached) == "" && configured == "" ==> secret == random
      ensures cached == secret && secret != ""
    {
      if cached != "" {
        return cached;
      }
      if configured != "" {
        cached := configured;
        return cached;
      }
      cached := random;
      return cached;
    }
  }

  // ---------------------------------------------------------------------------
  // Creating and verifying

  /** What `createToken` returns. */
  datatype Issued = Issued(token: string, exp: real)

  /** Whether a number has no fractional part. */
  predicate Whole(x: real)
  {
    x == Floor(x) as real
  }

  /** `${exp}`: the integer numeral for a whole number; otherwise the sign,
      the digits of the whole part, a `.` and `fraction`, the digits
      JavaScript prints after the point (the shortest that read back, which
      depend on the double and are given by the caller). */
  function ExpText(exp: real, fraction: string): (s: string)
    ensures '.' in s <==> !Whole(exp)
  {
    if Whole(exp) then IntToString(Floor(exp))
    else
      var s := (if exp < 0.0 then "-" else "") + NatToString(Floor(AbsReal(exp))) + "." + fraction;
      assert s[|s| - |fraction| - 1] == '.';
      s
  }

  /** `createToken(ttlHours)` at time `now`, with `id` the value `nanoid(20)`
      drew and `fraction` the digits after the point of a fractional expiry.
      The lifetime is any number: the configuration only keeps it at least 1. */
  function CreateToken(id: string, now: int, ttlHours: real, fraction: string, sign: string -> string): (t: Issued)
    ensures t.exp - now as real == ttlHours * 3600000.0
    ensures var payload := id + "." + ExpText(t.exp, fraction);
      t.token == payload + "." + sign(payload)
  {
    var exp := now as real + ttlHours * 3600000.0;
    var payload := id + "." + ExpText(exp, fraction);
    Issued(payload + "." + sign(payload), exp)
  }

  /** What `verifyToken` returns: `{ valid: false }`,
      `{ valid: false, expired: true, exp }` or `{ valid: true, exp }`. */
  datatype Verdict = Invalid | Expired(exp: real) | Valid(exp: real)

  /** `verifyToken(token)` at time `now`. */
  function VerifyToken(token: string, now: int, sign: string -> string): (v: Verdict)
    ensures |Split(token, '.')| != 3 ==> v == Invalid
    ensures |Split(token, '.')| == 3 ==>
      var parts := Split(token, '.');
      var payload := parts[0] + "." + parts[1];
      && (parts[2] != sign(payload) ==> v == Invalid)
      && (parts[2] == sign(payload) ==>
            match ToNumber(parts[1])
            case None => v == Invalid
            case Some(exp) => (now as real > exp ==> v == Expired(exp)) && (now as real <= exp ==> v == Valid(exp)))
  {
    var parts := Split(token, '.');
    if |parts| != 3 then Invalid
    else
      var id, expText, sig := parts[0], parts[1], parts[2];
      var expected := sign(id + "." + expText);
      if |sig| != |expected| then Invalid
      else if sig != expected then Invalid
      else
        match ToNumber(expText)
        case None => Invalid
        case Some(exp) => if now as real > exp then Expired(exp) else Valid(exp)
  }

  /** The pieces of a token as `createToken` lays them out: an id without
      a dot (nanoid's alphabet has none) and a signature without a dot
      (base64url has none). */
  lemma SplitToken(id: string, expText: string, sig: string)
    requires '.' !in id && '.' !in expText && '.' !in sig
    ensures Split(id + "." + expText + "." + sig, '.') == [id, expText, sig]
  {
    SplitTwo(id, expText, '.', sig, [sig]);
    TokenText(id, expText, sig);
  }

  lemma TokenText(id: string, expText: string, sig: string)
    ensures id + "." + expText + "." + sig == id + ['.'] + expText + ['.'] + sig
  {
  }

  /** A freshly created token whose lifetime is a whole number of
      milliseconds verifies, and is valid until its expiry (inclusive) and
      expired after it. */
  lemma CreatedTokenVerifies(id: string, now: int, ttlHours: real, fraction: string, sign: string -> string, later: int)
    requires '.' !in id && Whole(ttlHours * 3600000.0)
    requires '.' !in sign(id + "." + ExpText(now as real + ttlHours * 3600000.0, fraction))
    ensures var t := CreateToken(id, now, ttlHours, fraction, sign);
      && (later as real <= t.exp ==> VerifyToken(t.token, later, sign) == Valid(t.exp))
      && (later as real > t.exp ==> VerifyToken(t.token, later, sign) == Expired(t.exp))
  {
    var exp := now as real + ttlHours * 3600000.0;
    WholeShift(now, ttlHours * 3600000.0);
    WholeExpiryVerifies(id, exp, fraction, sign, later);
    var payload := id + "." + ExpText(exp, fraction);
    assert CreateToken(id, now, ttlHours, fraction, sign) == Issued(payload + "." + sign(payload), exp);
  }

  /** The same for the token laid out from a whole expiry. */
  lemma WholeExpiryVerifies(id: string, exp: real, fraction: string, sign: string -> string, later: int)
    requires '.' !in id && Whole(exp) && '.' !in sign(id + "." + ExpText(exp, fraction))
    ensures var payload := id + "." + ExpText(exp, fraction);
      && (later as real <= exp ==> VerifyToken(payload + "." + sign(payload), later, sign) == Valid(exp))
      && (later as real > exp ==> VerifyToken(payload + "." + sign(payload), later, sign) == Expired(exp))
  {
    var expText := ExpText(exp, fraction);
    var sig := sign(id + "." + expText);
    IntToStringRoundTrip(Floor(exp));
    SplitToken(id, expText, sig);
    VerifySigned(id + "." + expText + "." + sig, id, expText, sig, exp, later, sign);
  }

  /** An integer plus a whole number is whole. */
  lemma WholeShift(n: int, x: real)
    requires Whole(x)
    ensures Whole(n as real + x)
  {
    var m := n + Floor(x);
    assert n as real + x == m as real;
  }

  /** A lifetime that is not a whole number of milliseconds (a
      `TOKEN_TTL_HOURS` of 1.0000001, say) gives an expiry with a decimal
      point, so the token has four dot-separated fields and is refused at
      once, whatever the clock says. */
  lemma FractionalExpiryRefused(id: string, now: int, ttlHours: real, fraction: string, sign: string -> string, later: int)
    requires '.' !in id && '.' !in fraction && !Whole(ttlHours * 3600000.0)
    requires '.' !in sign(id + "." + ExpText(now as real + ttlHours * 3600000.0, fraction))
    ensures VerifyToken(CreateToken(id, now, ttlHours, fraction, sign).token, later, sign) == Invalid
  {
    var x := ttlHours * 3600000.0;
    var exp := now as real + x;
    if Whole(exp) {
      WholeShift(-now, exp);
      assert false;
    }
    FractionalTextRefused(id, exp, fraction, sign, later);
    var payload := id + "." + ExpText(exp, fraction);
    assert CreateToken(id, now, ttlHours, fraction, sign) == Issued(payload + "." + sign(payload), exp);
  }

  /** The same for the token laid out from a fractional expiry. */
  lemma FractionalTextRefused(id: string, exp: real, fraction: string, sign: string -> string, later: int)
    requires '.' !in id && '.' !in fraction && !Whole(exp)
    requires '.' !in sign(id + "." + ExpText(exp, fraction))
    ensures var payload := id + "." + ExpText(exp, fraction);
      VerifyToken(payload + "." + sign(payload), later, sign) == Invalid
  {
    var text := ExpText(exp, fraction);
    var whole := (if exp < 0.0 then "-" else "") + NatToString(Floor(AbsReal(exp)));
    assert text == whole + "." + fraction;
    assert '.' !in whole;
    var sig := sign(id + "." + text);
    FourFields(id, whole, fraction, sig);
    PointInField(id, whole, fraction, sig);
  }

  lemma PointInField(a: string, b: string, c: string, d: string)
    ensures a + "." + (b + "." + c) + "." + d == a + "." + b + "." + c + "." + d
  {
  }

  /** Four dot-free fields joined by dots split back into four. */
  lemma FourFields(a: string, b: string, c: string, d: string)
    requires '.' !in a && '.' !in b && '.' !in c && '.' !in d
    ensures Split(a + "." + b + "." + c + "." + d, '.') == [a, b, c, d]
  {
    SplitCons(c, '.', d, [d]);
    SplitTwo(a, b, '.', c + ['.'] + d, [c, d]);
    FourText(a, b, c, d);
  }

  lemma FourText(a: string, b: string, c: string, d: string)
    ensures a + "." + b + "." + c + "." + d == a + ['.'] + b + ['.'] + (c + ['.'] + d)
  {
  }

  /** A well-formed token whose signature is right is judged by its expiry
      alone. */
  lemma VerifySigned(token: string, id: string, expText: string, sig: string, exp: real, now: int, sign: string -> string)
    requires Split(token, '.') == [id, expText, sig] && sig == sign(id + "." + expText)
    requires ToNumber(expText) == Some(exp)
    ensures now as real <= exp ==> VerifyToken(token, now, sign) == Valid(exp)
    ensures now as real > exp ==> VerifyToken(token, now, sign) == Expired(exp)
  {
  }

  /** A token created with a positive whole lifetime is valid when checked
      at once; one created with a negative lifetime is already expired. */
  lemma LifetimeDecides(id: string, now: int, ttlHours: real, fraction: string, sign: string -> string)
    requires '.' !in id && Whole(ttlHours * 3600000.0)
    requires '.' !in sign(id + "." + ExpText(now as real + ttlHours * 3600000.0, fraction))
    ensures ttlHours > 0.0 ==> VerifyToken(CreateToken(id, now, ttlHours, fraction, sign).token, now, sign).Valid?
    ensures ttlHours < 0.0 ==> VerifyToken(CreateToken(id, now, ttlHours, fraction, sign).token, now, sign).Expired?
  {
    CreatedTokenVerifies(id, now, ttlHours, fraction, sign, now);
  }

  /** Only the signature of `id.exp` is accepted: a token whose third field
      differs from it is invalid, whatever the expiry says. */
  lemma ForgedSignatureInvalid(id: string, expText: string, sig: string, now: int, sign: string -> string)
    requires '.' !in id && '.' !in expText && '.' !in sig
    requires sig != sign(id + "." + expText)
    ensures VerifyToken(id + "." + expText + "." + sig, now, sign) == Invalid
  {
    SplitToken(id, expText, sig);
  }
}
