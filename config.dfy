/** `lib/config.ts`: the settings the application reads at start. In
    development a `.env.local` file is read line by line into a dictionary;
    each setting is then the process environment's value, else the file's,
    else a default. */
module Config {
  import opened Common
  import opened JsNumber

  // ---------------------------------------------------------------------------
  // `.env.local`

  /** The key and value one line of `.env.local` sets, if it sets one:
      blank lines, comments (`#` after trimming), lines without `=` and
      lines with an empty key set nothing. The key is the trimmed text
      before the first `=`, the value the trimmed rest, which may hold more
      `=`. */
  function Entry(line: string): (e: Option<(string, string)>)
    ensures e.Some? ==> e.value.0 != "" && '=' !in e.value.0 && e.value.0[0] != '#'
  {
    var trimmed := Trim(line);
    if trimmed == "" || trimmed[0] == '#' then None
    else
      KeyStart(trimmed);
      Assignment(trimmed)
  }

  /** The key and value of a trimmed line that is not blank: the trimmed
      text on either side of the first `=`, when the key is not empty. */
  function Assignment(trimmed: string): (e: Option<(string, string)>)
    ensures e.Some? ==> e.value.0 != "" && '=' !in e.value.0
  {
    match IndexOf(trimmed, '=')
    case None => None
    case Some(idx) =>
      var key := Trim(trimmed[..idx]);
      TrimWithout(trimmed[..idx], '=');
      if key == "" then None else Some((key, Trim(trimmed[idx + 1..])))
  }

  /** A character not in a text is not in its trimmed text. */
  lemma TrimWithout(s: string, c: char)
    requires c !in s
    ensures c !in Trim(s)
  {
    var t := TrimStart(s);
    SliceWithout(s, c, |s| - |t|, |s|);
    SliceWithout(t, c, 0, |TrimEnd(t)|);
  }

  /** A character not in a text is in none of its slices. */
  lemma SliceWithout(s: string, c: char, i: nat, j: nat)
    requires c !in s && i <= j <= |s|
    ensures c !in s[i..j]
  {
    forall k | 0 <= k < j - i
      ensures s[i..j][k] != c
    {
      assert s[i..j][k] == s[i + k];
    }
  }

  /** The key starts where the trimmed line does: not with `#`. */
  lemma KeyStart(trimmed: string)
    requires trimmed != "" && trimmed[0] != '#' && !IsJsSpace(trimmed[0])
    ensures var e := Assignment(trimmed); e.Some? ==> e.value.0[0] != '#'
  {
    match IndexOf(trimmed, '=')
    case None =>
    case Some(idx) =>
      if idx > 0 {
        TrimKeepsFirst(trimmed[..idx]);
      }
  }

  /** Text that starts with no white space keeps its first character when
      trimmed, unless nothing is left. */
  lemma TrimKeepsFirst(s: string)
    requires s != "" && !IsJsSpace(s[0])
    ensures Trim(s) != "" ==> Trim(s)[0] == s[0]
  {
    assert TrimStart(s) == s;
    var r := TrimEnd(s);
    assert r == s[..|r|];
  }

  /** What each line sets. */
  function Entries(lines: seq<string>): (es: seq<Option<(string, string)>>)
    ensures |es| == |lines| && forall j :: 0 <= j < |lines| ==> es[j] == Entry(lines[j])
  {
    seq(|lines|, j requires 0 <= j < |lines| => Entry(lines[j]))
  }

  /** The dictionary a run of settings makes, applied from the first to
      the last: a later setting of a key overrides an earlier one. */
  function Apply(es: seq<Option<(string, string)>>): map<string, string>
  {
    if es == [] then map[]
    else
      var m := Apply(es[..|es| - 1]);
      match es[|es| - 1]
      case None => m
      case Some((k, v)) => m[k := v]
  }

  /** The dictionary the lines of `.env.local` make. */
  function EnvEntries(lines: seq<string>): map<string, string>
  {
    Apply(Entries(lines))
  }

  /** `readEnvLocal()`: `development` is whether `NODE_ENV` is
      `development`, `content` the file's text (`None` when it cannot be
      read). The text is split at line feeds; a carriage return before one
      is white space that trimming removes, as splitting at `\r?\n` would. */
  method ReadEnvLocal(development: bool, content: Option<string>) returns (entries: map<string, string>)
    ensures !development || content.None? ==> entries == map[]
    ensures development && content.Some? ==> entries == EnvEntries(Split(content.value, '\n'))
  {
    if !development || content.None? {
      return map[];
    }
    var lines := Split(content.value, '\n');
    ghost var es := Entries(lines);
    entries := map[];
    var i := 0;
    while i < |lines|
      invariant 0 <= i <= |lines|
      invariant entries == Apply(es[..i])
    {
      ApplyNext(es, i);
      assert es[i] == Entry(lines[i]);
      var trimmed := Trim(lines[i]);
      i := i + 1;
      if trimmed == "" || trimmed[0] == '#' {
        continue;
      }
      var idx := IndexOf(trimmed, '=');
      if idx.None? {
        continue;
      }
      var key := Trim(trimmed[..idx.value]);
      var value := Trim(trimmed[idx.value + 1..]);
      if key != "" {
        entries := entries[key := value];
      }
    }
    assert es[..|lines|] == es;
  }

  /** Applying one more setting. */
  lemma ApplyNext(es: seq<Option<(string, string)>>, i: nat)
    requires i < |es|
    ensures es[i].None? ==> Apply(es[..i + 1]) == Apply(es[..i])
    ensures es[i].Some? ==> Apply(es[..i + 1]) == Apply(es[..i])[es[i].value.0 := es[i].value.1]
  {
    assert es[..i + 1][..i] == es[..i];
  }

  /** The value a run of settings gives a key is the one of the last
      setting of it. */
  lemma {:induction false} LastSettingWins(es: seq<Option<(string, string)>>, i: nat, k: string, v: string)
    requires i < |es| && es[i] == Some((k, v))
    requires forall j :: i < j < |es| ==> es[j].None? || es[j].value.0 != k
    ensures k in Apply(es) && Apply(es)[k] == v
  {
    var n := |es| - 1;
    if i < n {
      var init := es[..n];
      assert init[i] == es[i];
      forall j | i < j < |init|
        ensures init[j].None? || init[j].value.0 != k
      {
        assert init[j] == es[j];
      }
      LastSettingWins(init, i, k, v);
    }
  }

  /** A key set by no setting is not in the dictionary. */
  lemma {:induction false} UnsetKeyAbsent(es: seq<Option<(string, string)>>, k: string)
    requires forall j :: 0 <= j < |es| ==> es[j].None? || es[j].value.0 != k
    ensures k !in Apply(es)
  {
    if es != [] {
      var init := es[..|es| - 1];
      forall j | 0 <= j < |init|
        ensures init[j].None? || init[j].value.0 != k
      {
        assert init[j] == es[j];
      }
      UnsetKeyAbsent(init, k);
    }
  }

  /** The value `.env.local` gives a key is the one on the last line that
      sets it. */
  lemma LastLineWins(lines: seq<string>, k: string, i: nat, v: string)
    requires i < |lines| && Entry(lines[i]) == Some((k, v))
    requires forall j :: i < j < |lines| ==> Entry(lines[j]).None? || Entry(lines[j]).value.0 != k
    ensures k in EnvEntries(lines) && EnvEntries(lines)[k] == v
  {
    LastSettingWins(Entries(lines), i, k, v);
  }

  /** A key no line of `.env.local` sets is absent from its dictionary. */
  lemma UnsetLineAbsent(lines: seq<string>, k: string)
    requires forall j :: 0 <= j < |lines| ==> Entry(lines[j]).None? || Entry(lines[j]).value.0 != k
    ensures k !in EnvEntries(lines)
  {
    UnsetKeyAbsent(Entries(lines), k);
  }

  /** Text without white space, so that trimming leaves it alone. */
  predicate NoSpace(s: string)
  {
    forall k :: 0 <= k < |s| ==> !IsJsSpace(s[k])
  }

  /** A key and value `KEY=value` can write. */
  predicate Writable(k: string, v: string)
  {
    k != "" && k[0] != '#' && '=' !in k && NoSpace(k) && NoSpace(v)
  }

  /** Trimming text without white space leaves it as it is. */
  lemma TrimNoSpace(s: string)
    requires NoSpace(s)
    ensures Trim(s) == s
  {
    assert TrimStart(s) == s;
  }

  /** The first `=` of `k=v` is the one after the key. */
  lemma FirstEquals(k: string, v: string, line: string)
    requires '=' !in k && line == k + "=" + v
    ensures IndexOf(line, '=') == Some(|k|) && line[..|k|] == k && line[|k| + 1..] == v
  {
    assert line[|k|] == '=' && line[..|k|] == k;
    assert line[|k| + 1..] == v;
  }

  lemma JoinNoSpace(k: string, v: string, line: string)
    requires NoSpace(k) && NoSpace(v) && line == k + "=" + v
    ensures NoSpace(line)
  {
    forall j | 0 <= j < |line| ensures !IsJsSpace(line[j]) {
      if j < |k| { assert line[j] == k[j]; }
      else if j > |k| { assert line[j] == v[j - |k| - 1]; }
    }
  }

  /** A line `k=v` is already trimmed and is neither blank nor a comment. */
  lemma LineTrimmed(k: string, v: string, line: string)
    requires Writable(k, v) && line == k + "=" + v
    ensures Trim(line) == line && line != "" && line[0] != '#'
    ensures Trim(k) == k && Trim(v) == v
  {
    assert line[0] == k[0];
    JoinNoSpace(k, v, line);
    TrimNoSpace(line);
    TrimNoSpace(k);
    TrimNoSpace(v);
  }

  /** A trimmed line that is neither blank nor a comment is an assignment. */
  lemma EntryIsAssignment(line: string)
    requires Trim(line) == line && line != "" && line[0] != '#'
    ensures Entry(line) == Assignment(line)
  {
  }

  lemma AssignmentOf(k: string, v: string, line: string)
    requires '=' !in k && line == k + "=" + v && Trim(k) == k && Trim(v) == v && k != ""
    ensures Assignment(line) == Some((k, v))
  {
    FirstEquals(k, v, line);
  }

  /** A line `k=v` reads back as the pair. */
  lemma AssignmentRead(k: string, v: string)
    requires Writable(k, v)
    ensures Entry(k + "=" + v) == Some((k, v))
  {
    var line := k + "=" + v;
    LineTrimmed(k, v, line);
    EntryIsAssignment(line);
    AssignmentOf(k, v, line);
  }

  /** The lines of a file that sets `pairs` in order. */
  function Lines(pairs: seq<(string, string)>): (lines: seq<string>)
    ensures |lines| == |pairs|
    ensures forall i :: 0 <= i < |pairs| ==> lines[i] == pairs[i].0 + "=" + pairs[i].1
  {
    seq(|pairs|, i requires 0 <= i < |pairs| => pairs[i].0 + "=" + pairs[i].1)
  }

  /** The dictionary `pairs` make when set in order. */
  function ToMap(pairs: seq<(string, string)>): map<string, string>
  {
    if pairs == [] then map[] else ToMap(pairs[..|pairs| - 1])[pairs[|pairs| - 1].0 := pairs[|pairs| - 1].1]
  }

  /** Setting `pairs` in order makes `ToMap(pairs)`. */
  lemma {:induction false} ApplyPairs(pairs: seq<(string, string)>, es: seq<Option<(string, string)>>)
    requires |es| == |pairs| && forall i :: 0 <= i < |pairs| ==> es[i] == Some(pairs[i])
    ensures Apply(es) == ToMap(pairs)
  {
    if pairs != [] {
      var n := |pairs| - 1;
      ApplyPairs(pairs[..n], es[..n]);
    }
  }

  lemma AssignmentsRead(pairs: seq<(string, string)>)
    requires forall i :: 0 <= i < |pairs| ==> Writable(pairs[i].0, pairs[i].1)
    ensures EnvEntries(Lines(pairs)) == ToMap(pairs)
  {
    var es := Entries(Lines(pairs));
    forall i | 0 <= i < |pairs| ensures es[i] == Some(pairs[i]) {
      AssignmentRead(pairs[i].0, pairs[i].1);
    }
    ApplyPairs(pairs, es);
  }

  /** Writing `KEY=value` lines and reading the file back gives the
      dictionary they set, later lines winning. */
  lemma EnvFileRoundTrip(pairs: seq<(string, string)>)
    requires forall i :: 0 <= i < |pairs| ==> Writable(pairs[i].0, pairs[i].1)
    ensures EnvEntries(Split(Join(Lines(pairs), "\n"), '\n')) == ToMap(pairs)
  {
    var lines := Lines(pairs);
    if pairs == [] {
      assert Split(Join(lines, "\n"), '\n') == [""];
    } else {
      forall i | 0 <= i < |lines| ensures '\n' !in lines[i] {
        LineFeedFree(pairs[i].0, pairs[i].1);
      }
      SplitJoin(lines, '\n');
      AssignmentsRead(pairs);
    }
  }

  /** A writable `KEY=value` line holds no line feed. */
  lemma LineFeedFree(k: string, v: string)
    requires Writable(k, v)
    ensures '\n' !in k + "=" + v
  {
    assert IsJsSpace('\n');
  }

  // ---------------------------------------------------------------------------
  // `env`

  /** The variables the settings are read from, each standing for its
      name (`Name`). The process environment and the file's dictionary are
      given by variable: any other name is never read. */
  datatype Key =
    | AppUrl
    | GeminiApiKey
    | GeminiModel
    | OpenRouterApiKey
    | OpenRouterModel
    | OpenRouterReferer
    | OpenRouterTitle
    | TokenSecret
    | StorageProvider
    | SupabaseUrl
    | SupabaseServiceRoleKey
    | SupabaseBucket
    | S3Endpoint
    | S3Region
    | S3Bucket
    | S3AccessKeyId
    | S3SecretAccessKey
    | S3PublicUrl
    | UpstashUrl
    | UpstashToken
    | AdminUser
    | AdminPass
    | EventMode
    | PriorityCode
    | GenConcurrency
    | RateLimitPerMin
    | TokenTtlHours
    | ImageRetentionHours
    | MaintenanceMode
    | BackgroundRemovalModelPath
    | LogLevel

  /** The variable's name in the environment and in `.env.local`. */
  function Name(k: Key): string
  {
    match k
    case AppUrl => "NEXT_PUBLIC_APP_URL"
    case GeminiApiKey => "GEMINI_API_KEY"
    case GeminiModel => "GEMINI_MODEL"
    case OpenRouterApiKey => "OPENROUTER_API_KEY"
    case OpenRouterModel => "OPENROUTER_MODEL"
    case OpenRouterReferer => "OPENROUTER_REFERER"
    case OpenRouterTitle => "OPENROUTER_TITLE"
    case TokenSecret => "TOKEN_SECRET"
    case StorageProvider => "STORAGE_PROVIDER"
    case SupabaseUrl => "SUPABASE_URL"
    case SupabaseServiceRoleKey => "SUPABASE_SERVICE_ROLE_KEY"
    case SupabaseBucket => "SUPABASE_BUCKET"
    case S3Endpoint => "S3_ENDPOINT"
    case S3Region => "S3_REGION"
    case S3Bucket => "S3_BUCKET"
    case S3AccessKeyId => "S3_ACCESS_KEY_ID"
    case S3SecretAccessKey => "S3_SECRET_ACCESS_KEY"
    case S3PublicUrl => "S3_PUBLIC_URL"
    case UpstashUrl => "UPSTASH_REDIS_REST_URL"
    case UpstashToken => "UPSTASH_REDIS_REST_TOKEN"
    case AdminUser => "ADMIN_USER"
    case AdminPass => "ADMIN_PASS"
    case EventMode => "EVENT_MODE"
    case PriorityCode => "PRIORITY_CODE"
    case GenConcurrency => "GEN_CONCURRENCY"
    case RateLimitPerMin => "RATE_LIMIT_PER_MIN"
    case TokenTtlHours => "TOKEN_TTL_HOURS"
    case ImageRetentionHours => "IMAGE_RETENTION_HOURS"
    case MaintenanceMode => "MAINTENANCE_MODE"
    case BackgroundRemovalModelPath => "BACKGROUND_REMOVAL_MODEL_PATH"
    case LogLevel => "LOG_LEVEL"
  }

  const AllKeys: set<Key> := {AppUrl, GeminiApiKey, GeminiModel, OpenRouterApiKey, OpenRouterModel, OpenRouterReferer, OpenRouterTitle, TokenSecret, StorageProvider, SupabaseUrl, SupabaseServiceRoleKey, SupabaseBucket, S3Endpoint, S3Region, S3Bucket, S3AccessKeyId, S3SecretAccessKey, S3PublicUrl, UpstashUrl, UpstashToken, AdminUser, AdminPass, EventMode, PriorityCode, GenConcurrency, RateLimitPerMin, TokenTtlHours, ImageRetentionHours, MaintenanceMode, BackgroundRemovalModelPath, LogLevel}

  /** What a dictionary of names gives each variable. */
  function ByKey(entries: map<string, string>): (vars: map<Key, string>)
    ensures forall k :: k in vars <==> k in AllKeys && Name(k) in entries
    ensures forall k :: k in vars ==> vars[k] == entries[Name(k)]
  {
    map k | k in AllKeys && Name(k) in entries :: entries[Name(k)]
  }

  /** `m.KEY`, with `""` for a missing variable (both are falsy). */
  function Get(m: map<Key, string>, key: Key): string
  {
    if key in m then m[key] else ""
  }

  /** `envSchema.safeParse(process.env)` fails only on a `STORAGE_PROVIDER`
      outside its three values; then no process value is used at all. */
  predicate SchemaAccepts(processEnv: map<Key, string>)
  {
    StorageProvider !in processEnv || processEnv[StorageProvider] in {"s3", "local", "supabase"}
  }

  function Raw(processEnv: map<Key, string>): (raw: map<Key, string>)
    ensures SchemaAccepts(processEnv) ==> raw == processEnv
    ensures !SchemaAccepts(processEnv) ==> raw == map[]
  {
    if SchemaAccepts(processEnv) then processEnv else map[]
  }

  /** `raw.KEY || envLocal.KEY || default` */
  function Setting(raw: map<Key, string>, local: map<Key, string>, key: Key, default: string): (r: string)
    ensures Get(raw, key) != "" ==> r == raw[key]
    ensures Get(raw, key) == "" && Get(local, key) != "" ==> r == local[key]
    ensures Get(raw, key) == "" && Get(local, key) == "" ==> r == default
  {
    OrElse(OrElse(Get(raw, key), Get(local, key)), default)
  }

  /** `(raw.KEY || envLocal.KEY) === 'true'` */
  function Flag(raw: map<Key, string>, local: map<Key, string>, key: Key): (on: bool)
    ensures on <==> Setting(raw, local, key, "") == "true"
  {
    OrElse(Get(raw, key), Get(local, key)) == "true"
  }

  /** `Math.max(1, Number(raw.KEY || envLocal.KEY || default))`; `None` is
      NaN, which `Math.max` passes through. */
  function Numeric(raw: map<Key, string>, local: map<Key, string>, key: Key, default: string): (n: Option<real>)
    ensures n.Some? ==> n.value >= 1.0
    ensures n.None? <==> ToNumber(Setting(raw, local, key, default)).None?
    ensures n.Some? && ToNumber(Setting(raw, local, key, default)).value >= 1.0 ==>
      n.value == ToNumber(Setting(raw, local, key, default)).value
  {
    match ToNumber(Setting(raw, local, key, default))
    case None => None
    case Some(x) => Some(MaxReal(1.0, x))
  }

  /** `env` */
  datatype Env = Env(
    appUrl: string, geminiApiKey: string, geminiModel: string,
    openRouterApiKey: string, openRouterModel: string, openRouterReferer: string, openRouterTitle: string,
    tokenSecret: string, storageProvider: string,
    supabaseUrl: string, supabaseServiceRoleKey: string, supabaseBucket: string,
    s3Endpoint: string, s3Region: string, s3Bucket: string, s3AccessKeyId: string, s3SecretAccessKey: string, s3PublicUrl: string,
    upstashUrl: string, upstashToken: string, adminUser: string, adminPass: string,
    eventMode: bool, priorityCode: string,
    concurrency: Option<real>, rateLimitPerMin: Option<real>, tokenTtlHours: Option<real>, imageRetentionHours: Option<real>,
    maintenanceMode: bool, bgRemovalModelPath: string, logLevel: string)

  /** `env` from the process environment and the `.env.local` dictionary. */
  function LoadEnv(processEnv: map<Key, string>, local: map<Key, string>): (e: Env)
    ensures e.concurrency.Some? ==> e.concurrency.value >= 1.0
    ensures e.rateLimitPerMin.Some? ==> e.rateLimitPerMin.value >= 1.0
    ensures e.tokenTtlHours.Some? ==> e.tokenTtlHours.value >= 1.0
    ensures e.imageRetentionHours.Some? ==> e.imageRetentionHours.value >= 1.0
    ensures e.geminiModel != "" && e.openRouterModel != "" && e.storageProvider != ""
    ensures e.supabaseBucket != "" && e.s3Region != "" && e.logLevel != ""
  {
    var raw := Raw(processEnv);
    Env(
      Setting(raw, local, AppUrl, ""),
      Setting(raw, local, GeminiApiKey, ""),
      Setting(raw, local, GeminiModel, "gemini-2.0-flash-exp-image-generation"),
      Setting(raw, local, OpenRouterApiKey, ""),
      Setting(raw, local, OpenRouterModel, "google/gemini-2.5-flash-image"),
      Setting(raw, local, OpenRouterReferer, ""),
      Setting(raw, local, OpenRouterTitle, ""),
      Setting(raw, local, TokenSecret, ""),
      Setting(raw, local, StorageProvider, "local"),
      Setting(raw, local, SupabaseUrl, ""),
      Setting(raw, local, SupabaseServiceRoleKey, ""),
      Setting(raw, local, SupabaseBucket, "myreal"),
      Setting(raw, local, S3Endpoint, ""),
      Setting(raw, local, S3Region, "auto"),
      Setting(raw, local, S3Bucket, ""),
      Setting(raw, local, S3AccessKeyId, ""),
      Setting(raw, local, S3SecretAccessKey, ""),
      Setting(raw, local, S3PublicUrl, ""),
      Setting(raw, local, UpstashUrl, ""),
      Setting(raw, local, UpstashToken, ""),
      Setting(raw, local, AdminUser, ""),
      Setting(raw, local, AdminPass, ""),
      Flag(raw, local, EventMode),
      Setting(raw, local, PriorityCode, ""),
      Numeric(raw, local, GenConcurrency, "2"),
      Numeric(raw, local, RateLimitPerMin, "1"),
      Numeric(raw, local, TokenTtlHours, "24"),
      Numeric(raw, local, ImageRetentionHours, "48"),
      Flag(raw, local, MaintenanceMode),
      Setting(raw, local, BackgroundRemovalModelPath, ""),
      Setting(raw, local, LogLevel, "info"))
  }

  /** A rejected process environment counts for nothing: the settings are
      those of the file and the defaults alone. */
  lemma RejectedEnvIgnored(processEnv: map<Key, string>, local: map<Key, string>)
    requires !SchemaAccepts(processEnv)
    ensures LoadEnv(processEnv, local) == LoadEnv(map[], local)
  {
  }

  /** Neither the process nor the file gives `key` a value. */
  predicate Unset(processEnv: map<Key, string>, local: map<Key, string>, key: Key)
  {
    Get(Raw(processEnv), key) == "" && Get(local, key) == ""
  }

  /** A numeric setting nobody gives is the value of its default digits
      (at least 1): `LoadEnv` passes `2` for `GEN_CONCURRENCY`, `1` for
      `RATE_LIMIT_PER_MIN`, `24` for `TOKEN_TTL_HOURS` and `48` for
      `IMAGE_RETENTION_HOURS`. */
  lemma NumericDefault(processEnv: map<Key, string>, local: map<Key, string>, key: Key, default: string)
    requires IsDigits(default) && DigitsValue(default) >= 1
    ensures Unset(processEnv, local, key) ==> Numeric(Raw(processEnv), local, key, default) == Some(DigitsValue(default) as real)
  {
    NumeralValue(default);
  }

  /** A setting nobody gives takes its default: local storage, the
      `myreal` bucket in region `auto`, logging from `info`, and both modes
      off. */
  lemma Defaults(processEnv: map<Key, string>, local: map<Key, string>)
    ensures var e := LoadEnv(processEnv, local);
      && (Unset(processEnv, local, StorageProvider) ==> e.storageProvider == "local")
      && (Unset(processEnv, local, SupabaseBucket) ==> e.supabaseBucket == "myreal")
      && (Unset(processEnv, local, S3Region) ==> e.s3Region == "auto")
      && (Unset(processEnv, local, LogLevel) ==> e.logLevel == "info")
      && (Unset(processEnv, local, EventMode) ==> !e.eventMode)
      && (Unset(processEnv, local, MaintenanceMode) ==> !e.maintenanceMode)
  {
    var raw := Raw(processEnv);
    var e := LoadEnv(processEnv, local);
    assert e.storageProvider == Setting(raw, local, StorageProvider, "local");
    assert e.supabaseBucket == Setting(raw, local, SupabaseBucket, "myreal");
    assert e.s3Region == Setting(raw, local, S3Region, "auto");
    assert e.logLevel == Setting(raw, local, LogLevel, "info");
    assert e.eventMode == Flag(raw, local, EventMode);
    assert e.maintenanceMode == Flag(raw, local, MaintenanceMode);
  }

  /** A process value wins over the file's, and the file's over the
      default; only the exact text `true` turns a mode on. */
  lemma Precedence(processEnv: map<Key, string>, local: map<Key, string>, key: Key, default: string)
    requires SchemaAccepts(processEnv)
    ensures Get(processEnv, key) != "" ==> Setting(Raw(processEnv), local, key, default) == processEnv[key]
    ensures Flag(Raw(processEnv), local, key) ==> Get(processEnv, key) == "true" || (Get(processEnv, key) == "" && Get(local, key) == "true")
  {
  }
}
