/** `lib/rateLimit.ts`: a fixed one-minute window per client. Each client
    (keyed by the hash of its address) may make `limit` requests per
    window; the window restarts with the first request made more than a
    minute after it opened. The clock is a parameter. */
module RateLimit {
  import opened Common

  const WindowMs := 60 * 1000

  /** `RateRecord` */
  datatype RateRecord = RateRecord(count: int, windowStart: int)

  /** `Math.max(1, env.rateLimitPerMin)`. The setting is `None` when it is
      NaN (`RATE_LIMIT_PER_MIN` did not parse); `Math.max` keeps NaN. */
  function Limit(setting: Option<real>): (limit: Option<real>)
    ensures limit.Some? ==> limit.value >= 1.0
  {
    match setting
    case None => None
    case Some(v) => Some(MaxReal(1.0, v))
  }

  /** A record has reached the limit (`record.count >= limit`; every
      comparison with NaN is false). */
  predicate AtLimit(r: RateRecord, limit: Option<real>)
  {
    limit.Some? && r.count as real >= limit.value
  }

  /** `Math.ceil((windowMs - elapsed) / 1000)`: whole seconds until the
      window closes. */
  function RetryAfter(elapsed: int): int
  {
    Ceil((WindowMs - elapsed) as real / 1000.0)
  }

  /** Inside a window the wait is between 0 and 60 seconds. */
  lemma RetryAfterBounds(elapsed: int)
    requires 0 <= elapsed <= WindowMs
    ensures 0 <= RetryAfter(elapsed) <= 60
  {
  }

  /** What one `checkRateLimit` call decides: whether the request goes
      through, the wait reported, and the records afterwards. */
  datatype Decision = Decision(allowed: bool, retryAfter: int, records: map<string, RateRecord>)

  /** The decision for `ipHash` at time `now`: a client without a record,
      or whose window opened more than a minute ago, starts a new window
      with count 1; one that has reached the limit is refused with the
      seconds left in its window; any other has its count raised by one. */
  function Check(records: map<string, RateRecord>, ipHash: string, now: int, setting: Option<real>): (d: Decision)
  {
    if ipHash !in records || now - records[ipHash].windowStart > WindowMs then
      Decision(true, 0, records[ipHash := RateRecord(1, now)])
    else if AtLimit(records[ipHash], Limit(setting)) then
      Decision(false, RetryAfter(now - records[ipHash].windowStart), records)
    else
      Decision(true, 0, records[ipHash := records[ipHash].(count := records[ipHash].count + 1)])
  }

  /** No record counts past the limit, rounded up: a fractional limit lets
      one request more through than its integer part. */
  predicate Within(records: map<string, RateRecord>, limit: Option<real>)
  {
    forall k :: k in records ==> 1 <= records[k].count && (limit.Some? ==> (records[k].count - 1) as real < limit.value)
  }

  /** Only the caller's record changes; a refusal changes nothing and,
      unless the clock went back, carries a wait of at most a minute; an
      allowed request is counted in the caller's record. */
  lemma CheckEffect(records: map<string, RateRecord>, ipHash: string, now: int, setting: Option<real>)
    ensures var d := Check(records, ipHash, now, setting);
      && ipHash in d.records
      && (forall k :: k != ipHash ==> (k in d.records <==> k in records) && (k in records ==> d.records[k] == records[k]))
      && (!d.allowed ==> d.records == records && ipHash in records)
      && (!d.allowed && records[ipHash].windowStart <= now ==> 0 <= d.retryAfter <= 60)
      && (d.allowed ==> d.retryAfter == 0 && (d.records[ipHash].count == 1 || d.records[ipHash].count == records[ipHash].count + 1))
  {
    var d := Check(records, ipHash, now, setting);
    if !d.allowed && records[ipHash].windowStart <= now {
      RetryAfterBounds(now - records[ipHash].windowStart);
    }
  }

  /** Once a client has reached the limit, every further request inside
      the same window is refused. */
  lemma RefusedUntilWindowEnds(records: map<string, RateRecord>, ipHash: string, now: int, later: int, setting: Option<real>)
    requires ipHash in records && AtLimit(records[ipHash], Limit(setting))
    requires records[ipHash].windowStart <= now <= later <= records[ipHash].windowStart + WindowMs
    ensures !Check(records, ipHash, now, setting).allowed
    ensures var d := Check(records, ipHash, now, setting);
      !Check(d.records, ipHash, later, setting).allowed
  {
  }

  /** Every decision keeps the records within the limit. */
  lemma CheckKeepsWithin(records: map<string, RateRecord>, ipHash: string, now: int, setting: Option<real>)
    requires Within(records, Limit(setting))
    ensures Within(Check(records, ipHash, now, setting).records, Limit(setting))
  {
    var d := Check(records, ipHash, now, setting);
    forall k | k in d.records
      ensures 1 <= d.records[k].count && (Limit(setting).Some? ==> (d.records[k].count - 1) as real < Limit(setting).value)
    {
      if k != ipHash {
        assert d.records[k] == records[k];
      }
    }
  }

  /** The module variable `records`. */
  class RateLimiter {
    var records: map<string, RateRecord>

    constructor()
      ensures records == map[]
    {
      records := map[];
    }

    ghost predicate Bounded(limit: Option<real>)
      reads this
    {
      Within(records, limit)
    }

    /** `checkRateLimit(ipHash)` at time `now`. */
    method CheckRateLimit(ipHash: string, now: int, setting: Option<real>) returns (allowed: bool, retryAfter: int)
      modifies this
      ensures var d := Check(old(records), ipHash, now, setting);
        allowed == d.allowed && retryAfter == d.retryAfter && records == d.records
      ensures old(Bounded(Limit(setting))) ==> Bounded(Limit(setting))
    {
      if Bounded(Limit(setting)) {
        CheckKeepsWithin(records, ipHash, now, setting);
      }
      var limit := Limit(setting);
      if ipHash !in records || now - records[ipHash].windowStart > WindowMs {
        records := records[ipHash := RateRecord(1, now)];
        return true, 0;
      }
      var record := records[ipHash];
      if limit.Some? && record.count as real >= limit.value {
        return false, Ceil((WindowMs - (now - record.windowStart)) as real / 1000.0);
      }
      records := records[ipHash := record.(count := record.count + 1)];
      return true, 0;
    }
  }
}
