/** `lib/admin.ts`: the HTTP Basic check that guards the admin API. The
    configured user and password are `env.adminUser` and `env.adminPass`
    (empty when unset); base64 decoding is a parameter. */
module Admin {
  import opened Common

  const BasicPrefix := "Basic "

  /** `isAdminConfigured`: both the user and the password are set. */
  predicate IsAdminConfigured(adminUser: string, adminPass: string)
  {
    adminUser != "" && adminPass != ""
  }

  /** `const [user, pass] = decoded.split(':')`: the fields before the
      first and the second colon; `pass` is `undefined` (`None`) when there
      is no colon. */
  function Credentials(decoded: string): (r: (string, Option<string>))
    ensures ':' !in r.0
    ensures r.1.Some? ==> ':' !in r.1.value
    ensures r.1.None? <==> ':' !in decoded
  {
    var parts := Split(decoded, ':');
    (parts[0], if |parts| > 1 then Some(parts[1]) else None)
  }

  /** `checkBasicAuth`: `authorization` is the request's `Authorization`
      header (`None` when absent) and `decode` stands for
      `Buffer.from(text, 'base64').toString()`. */
  function CheckBasicAuth(adminUser: string, adminPass: string, authorization: Option<string>,
                          decode: string -> string): (ok: bool)
    ensures !IsAdminConfigured(adminUser, adminPass) ==> ok
    ensures IsAdminConfigured(adminUser, adminPass) && (authorization.None? || !StartsWith(authorization.value, BasicPrefix)) ==> !ok
    ensures IsAdminConfigured(adminUser, adminPass) && authorization.Some? && StartsWith(authorization.value, BasicPrefix) ==>
      var creds := Credentials(decode(authorization.value[|BasicPrefix|..]));
      (ok <==> creds.0 == adminUser && creds.1 == Some(adminPass))
  {
    if !IsAdminConfigured(adminUser, adminPass) then true
    else if authorization.None? || !StartsWith(authorization.value, BasicPrefix) then false
    else
      // `auth.replace('Basic ', '')` removes the first occurrence, which is
      // the prefix just checked.
      var creds := Credentials(decode(authorization.value[|BasicPrefix|..]));
      creds.0 == adminUser && creds.1 == Some(adminPass)
  }

  /** A configured password that contains a colon can never be matched:
      the decoded credential is cut at every colon. */
  lemma ColonPasswordLocksOut(adminUser: string, adminPass: string, authorization: Option<string>, decode: string -> string)
    requires adminUser != "" && ':' in adminPass
    ensures !CheckBasicAuth(adminUser, adminPass, authorization, decode)
  {
  }

  /** The header `Basic base64(user:pass)` is accepted exactly for the
      configured pair, when neither contains a colon. */
  lemma MatchingHeaderAccepted(adminUser: string, adminPass: string, encoded: string, decode: string -> string)
    requires IsAdminConfigured(adminUser, adminPass) && ':' !in adminUser && ':' !in adminPass
    requires decode(encoded) == adminUser + ":" + adminPass
    ensures CheckBasicAuth(adminUser, adminPass, Some(BasicPrefix + encoded), decode)
  {
    var header := BasicPrefix + encoded;
    assert header[|BasicPrefix|..] == encoded;
    SplitAt(adminUser, ':', adminPass);
    assert adminUser + ":" + adminPass == adminUser + [':'] + adminPass;
  }
}
