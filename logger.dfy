/** `lib/logger.ts`: structured logging filtered by the configured level.
    The configured level is `env.logLevel`; the clock reading and the
    console are outside the model (the time is a parameter, the line
    written is the payload). */
module Logger {
  import opened Common
  import opened JsValue

  datatype Level = Debug | Info | Warn | Error

  /** `LEVELS`, least severe first. */
  const Levels: seq<Level> := [Debug, Info, Warn, Error]

  function Name(level: Level): string
  {
    match level
    case Debug => "debug"
    case Info => "info"
    case Warn => "warn"
    case Error => "error"
  }

  /** `LEVELS.indexOf(level)` for a level. */
  function Rank(level: Level): (i: nat)
    ensures i < |Levels| && Levels[i] == level
  {
    match level
    case Debug => 0
    case Info => 1
    case Warn => 2
    case Error => 3
  }

  /** `LEVELS.indexOf(env.logLevel as Level)`: the position of the level
      whose name is `configured`, or -1 when there is none. */
  function IndexOfName(configured: string): (i: int)
    ensures -1 <= i < |Levels|
    ensures i >= 0 ==> Name(Levels[i]) == configured
    ensures i == -1 <==> forall level: Level :: Name(level) != configured
  {
    if configured == "debug" then 0
    else if configured == "info" then 1
    else if configured == "warn" then 2
    else if configured == "error" then 3
    else -1
  }

  /** The lowest rank written: the configured level's, or `info`'s when
      the configured name is not a level. */
  function Threshold(configured: string): (t: nat)
    ensures t < |Levels|
    ensures IndexOfName(configured) == -1 ==> t == Rank(Info)
  {
    var i := IndexOfName(configured);
    if i == -1 then 1 else i
  }

  /** `shouldLog(level)` */
  predicate ShouldLog(configured: string, level: Level)
  {
    Rank(level) >= Threshold(configured)
  }

  /** The filter in terms of levels: with a level configured by name, a
      message is written exactly when it is at least as severe; with any
      other name, exactly when it is not `debug`. */
  lemma ShouldLogMeaning(configured: string, level: Level)
    ensures forall c: Level :: Name(c) == configured ==> (ShouldLog(configured, level) <==> Rank(level) >= Rank(c))
    ensures (forall c: Level :: Name(c) != configured) ==> (ShouldLog(configured, level) <==> level != Debug)
  {
    forall c: Level | Name(c) == configured
      ensures ShouldLog(configured, level) <==> Rank(level) >= Rank(c)
    {
      assert Levels[IndexOfName(configured)] == c;
    }
  }

  /** An unknown configured name behaves as `info`. */
  lemma UnknownIsInfo(configured: string, level: Level)
    requires forall c: Level :: Name(c) != configured
    ensures ShouldLog(configured, level) == ShouldLog("info", level)
  {
  }

  /** Whatever is configured, a level that is written makes every more
      severe level written too. */
  lemma MoreSevereLogged(configured: string, level: Level, other: Level)
    requires ShouldLog(configured, level) && Rank(level) <= Rank(other)
    ensures ShouldLog(configured, other)
  {
  }

  /** `error` is always written. */
  lemma ErrorAlwaysLogged(configured: string)
    ensures ShouldLog(configured, Error)
  {
  }

  /** The object `log` serialises: `level`, `message` and `time`, then the
      keys of `meta` spread over them (`undefined` meta adds nothing). */
  function Payload(level: Level, message: string, time: string, meta: Option<map<string, Json>>): (p: map<string, Json>)
    ensures meta.None? ==> p.Keys == {"level", "message", "time"}
    ensures meta.Some? ==> p.Keys == {"level", "message", "time"} + meta.value.Keys
    ensures meta.Some? ==> forall k :: k in meta.value ==> p[k] == meta.value[k]
    ensures "level" !in Spread(meta) ==> p["level"] == JStr(Name(level))
    ensures "message" !in Spread(meta) ==> p["message"] == JStr(message)
    ensures "time" !in Spread(meta) ==> p["time"] == JStr(time)
  {
    var base := map["level" := JStr(Name(level)), "message" := JStr(message), "time" := JStr(time)];
    base + Spread(meta)
  }

  /** The keys `meta` spreads: none when it is `undefined`. */
  function Spread(meta: Option<map<string, Json>>): map<string, Json>
  {
    if meta.Some? then meta.value else map[]
  }

  /** `log(level, message, meta)`: the payload written, or nothing when the
      level is filtered out. */
  function Log(configured: string, level: Level, message: string, time: string, meta: Option<map<string, Json>>): (line: Option<map<string, Json>>)
    ensures line.Some? <==> ShouldLog(configured, level)
    ensures line.Some? ==> line.value == Payload(level, message, time, meta)
  {
    if !ShouldLog(configured, level) then None
    else Some(Payload(level, message, time, meta))
  }
}
