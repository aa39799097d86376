/** `lib/security.ts`: which client address a request is attributed to,
    and the same-origin check on state-changing requests. */
module Security {
  import opened Common

  const UnknownIp := "0.0.0.0"

  /** `getRequestIp`: `forwarded` and `realIp` are the `x-forwarded-for`
      and `x-real-ip` headers (`None` when absent). */
  function GetRequestIp(forwarded: Option<string>, realIp: Option<string>): (ip: string)
    ensures ip != ""
    ensures forwarded.Some? && forwarded.value != "" ==>
      ip == OrElse(Trim(Split(forwarded.value, ',')[0]), UnknownIp)
    ensures (forwarded.None? || forwarded.value == "") ==>
      ip == (if realIp.Some? && realIp.value != "" then realIp.value else UnknownIp)
  {
    if forwarded.Some? && forwarded.value != "" then
      OrElse(Trim(Split(forwarded.value, ',')[0]), UnknownIp)
    else if realIp.Some? && realIp.value != "" then realIp.value
    else UnknownIp
  }

  /** The first hop of `x-forwarded-for` wins: with a first entry `first`
      (no comma in it) the address is `first` trimmed, and `x-real-ip` does
      not matter. */
  lemma FirstHopWins(first: string, rest: string, realIp1: Option<string>, realIp2: Option<string>)
    requires ',' !in first && Trim(first) != ""
    ensures GetRequestIp(Some(first + "," + rest), realIp1) == Trim(first)
    ensures GetRequestIp(Some(first + "," + rest), realIp1) == GetRequestIp(Some(first + "," + rest), realIp2)
  {
    SplitAt(first, ',', rest);
    assert first + "," + rest == first + [','] + rest;
  }

  /** What `assertSameOrigin` does: return, or throw `Invalid origin`. */
  datatype OriginCheck = Passed | InvalidOrigin

  /** `assertSameOrigin`: `origin` and `host` are the request's headers and
      `hostOf` stands for `new URL(origin).host` (`None` when the URL
      constructor throws). */
  function AssertSameOrigin(origin: Option<string>, host: Option<string>, hostOf: string -> Option<string>): (r: OriginCheck)
    ensures (origin.None? || origin.value == "" || host.None? || host.value == "") ==> r == Passed
    ensures origin.Some? && origin.value != "" && host.Some? && host.value != "" ==>
      (r == Passed <==> hostOf(origin.value) == Some(host.value))
  {
    if origin.None? || origin.value == "" || host.None? || host.value == "" then Passed
    else
      match hostOf(origin.value)
      case None => InvalidOrigin
      case Some(originHost) => if originHost != host.value then InvalidOrigin else Passed
  }
}
