/** `app/api/generate/route.ts`: `POST /api/generate`, which turns a drawing
    into a character image. The gates run in a fixed order (maintenance,
    origin, file, palette, rate limit); the image is then asked of
    OpenRouter, then Gemini, and the local stylizer when neither gave one.
    The image pipeline, the providers' answers and the clock are
    parameters. */
module Generate {
  import opened Common
  import opened JsValue
  import opened Retry
  import opened Security
  import opened Stylize
  import opened RateLimit
  import opened Metrics

  // ---------------------------------------------------------------------------
  // The palette

  /** `paletteSchema`: an array of exactly three `#RRGGBB` strings. */
  predicate IsPalette(p: seq<string>)
  {
    |p| == 3 && forall k :: 0 <= k < 3 ==> IsHexColour(p[k])
  }

  /** Why the request failed, as the `catch` tells the errors apart. */
  datatype Failure = SchemaError | OriginError | OtherError

  /** The strings of a JSON array, when every element is one. */
  function Strings(items: seq<Json>): (r: Option<seq<string>>)
    ensures r.Some? <==> forall k :: 0 <= k < |items| ==> items[k].JStr?
    ensures r.Some? ==> |r.value| == |items| && forall k :: 0 <= k < |items| ==> r.value[k] == items[k].s
  {
    if items == [] then Some([])
    else if !items[0].JStr? then None
    else
      var rest := Strings(items[1..]);
      assert forall k :: 1 <= k < |items| ==> items[k] == items[1..][k - 1];
      if rest.None? then None else Some([items[0].s] + rest.value)
  }

  /** `paletteSchema.parse(paletteRaw ? JSON.parse(String(paletteRaw)) : [])`:
      `raw` is the form field (`None` when absent) and `parseJson` what
      `JSON.parse` gives (`None` when it throws a `SyntaxError`, which is
      not a schema error). */
  function ParsePalette(raw: Option<string>, parseJson: string -> Option<Json>): (r: Result<seq<string>, Failure>)
    ensures r.Ok? ==> IsPalette(r.value)
    ensures raw.None? || raw.value == "" ==> r == Err(SchemaError)
    ensures r == Err(OtherError) <==> raw.Some? && raw.value != "" && parseJson(raw.value).None?
  {
    if raw.None? || raw.value == "" then Err(SchemaError)
    else match parseJson(raw.value)
      case None => Err(OtherError)
      case Some(v) =>
        if !v.JArr? then Err(SchemaError)
        else match Strings(v.items)
          case None => Err(SchemaError)
          case Some(p) => if IsPalette(p) then Ok(p) else Err(SchemaError)
  }

  /** A well-formed palette sent as a JSON array is taken as it is. */
  lemma PaletteAccepted(raw: string, parseJson: string -> Option<Json>, p: seq<string>)
    requires raw != "" && IsPalette(p)
    requires parseJson(raw) == Some(JArr([JStr(p[0]), JStr(p[1]), JStr(p[2])]))
    ensures ParsePalette(Some(raw), parseJson) == Ok(p)
  {
    var items := [JStr(p[0]), JStr(p[1]), JStr(p[2])];
    var r := Strings(items);
    assert forall k :: 0 <= k < 3 ==> items[k].JStr?;
    assert r.value == p;
  }

  // ---------------------------------------------------------------------------
  // The form

  datatype Source = Draw | Upload

  /** What the route reads from the form besides the file and the palette. */
  datatype Form = Form(bgRemove: bool, moodId: string, source: Source, priorityCode: string)

  /** The form fields, `None` when absent. */
  function ReadForm(bgRemove: Option<string>, mood: Option<string>, source: Option<string>, priorityCode: Option<string>): (f: Form)
    ensures f.bgRemove <==> bgRemove == Some("1")
    ensures f.moodId == (if mood.Some? then mood.value else "random")
    ensures f.source == Upload <==> source == Some("upload")
    ensures f.priorityCode == (if priorityCode.Some? then priorityCode.value else "")
  {
    Form(bgRemove == Some("1"),
         if mood.Some? then mood.value else "random",
         if source == Some("upload") then Upload else Draw,
         if priorityCode.Some? then priorityCode.value else "")
  }

  /** `env.eventMode && priorityCode && priorityCode === env.priorityCode` */
  predicate Bypass(eventMode: bool, priorityCode: string, configuredCode: string)
  {
    eventMode && priorityCode != "" && priorityCode == configuredCode
  }

  /** The rate limiter is asked only when the request is neither bypassed
      nor served in development. */
  predicate RateLimited(eventMode: bool, priorityCode: string, configuredCode: string, isDev: bool)
  {
    !Bypass(eventMode, priorityCode, configuredCode) && !isDev
  }

  /** An empty code never bypasses, even when none is configured. */
  lemma EmptyCodeLimited(eventMode: bool, configuredCode: string)
    ensures RateLimited(eventMode, "", configuredCode, false)
  {
  }

  // ---------------------------------------------------------------------------
  // The providers

  datatype Provider = OpenRouterProvider | GeminiProvider | FallbackProvider

  /** The image before its background is removed and it is resized: the
      base64 payload a provider returned, or the stylized input. */
  datatype Output = AiImage(data: string) | StylizedImage

  /** What the providers give, as a reference for `RunProviders`: the
      first configured generator that succeeds, OpenRouter before Gemini,
      and otherwise the stylized input, flagged as a failure when some
      generator was configured. */
  datatype Choice = Choice(output: Output, provider: Provider, geminiFailed: bool)

  function Chosen(openRouterKey: string, geminiKey: string, openRouter: Attempt<string>, gemini: Attempt<string>): (c: Choice)
    ensures c.provider == FallbackProvider <==> c.output == StylizedImage
    ensures c.geminiFailed ==> c.provider == FallbackProvider
  {
    if openRouterKey != "" && openRouter.Succeeded? then Choice(AiImage(openRouter.value), OpenRouterProvider, false)
    else if geminiKey != "" && gemini.Succeeded? then Choice(AiImage(gemini.value), GeminiProvider, false)
    else Choice(StylizedImage, FallbackProvider, openRouterKey != "" || geminiKey != "")
  }

  /** The provider steps of the generation job. The keys are `""` when unset and
      `openRouter`/`gemini` how each generator call would end; `tried` lists
      the generators called, in order. */
  method RunProviders(openRouterKey: string, geminiKey: string, openRouter: Attempt<string>, gemini: Attempt<string>)
    returns (output: Output, provider: Provider, geminiFailed: bool, tried: seq<Provider>)
    ensures Choice(output, provider, geminiFailed) == Chosen(openRouterKey, geminiKey, openRouter, gemini)
    ensures tried == (if openRouterKey != "" then [OpenRouterProvider] else [])
                   + (if (openRouterKey == "" || openRouter.Threw?) && geminiKey != "" then [GeminiProvider] else [])
    ensures provider == OpenRouterProvider <==> openRouterKey != "" && openRouter.Succeeded?
    ensures provider == GeminiProvider <==> (openRouterKey == "" || openRouter.Threw?) && geminiKey != "" && gemini.Succeeded?
    ensures provider == OpenRouterProvider ==> output == AiImage(openRouter.value)
    ensures provider == GeminiProvider ==> output == AiImage(gemini.value)
    ensures provider == FallbackProvider <==> output == StylizedImage
    ensures geminiFailed <==> tried != [] && provider == FallbackProvider
    ensures geminiFailed ==> forall k :: 0 <= k < |tried| ==>
      (tried[k] == OpenRouterProvider ==> openRouter.Threw?) && (tried[k] == GeminiProvider ==> gemini.Threw?)
  {
    var found: Option<string> := None;
    provider := FallbackProvider;
    var aiAttempted := false;
    tried := [];
    if openRouterKey != "" {
      aiAttempted := true;
      tried := tried + [OpenRouterProvider];
      if openRouter.Succeeded? {
        found := Some(openRouter.value);
        provider := OpenRouterProvider;
      }
    }
    if found.None? && geminiKey != "" {
      aiAttempted := true;
      tried := tried + [GeminiProvider];
      if gemini.Succeeded? {
        found := Some(gemini.value);
        provider := GeminiProvider;
      }
    }
    if found.None? {
      output := StylizedImage;
      provider := FallbackProvider;
    } else {
      output := AiImage(found.value);
    }
    geminiFailed := aiAttempted && provider == FallbackProvider;
  }

  // ---------------------------------------------------------------------------
  // The route

  /** What `POST` answers. */
  datatype Reply =
    | Maintenance
    | Forbidden
    | NoFile
    | InvalidInput
    | TooMany(retryAfter: int)
    | Failed
    | Generated(provider: Provider, geminiFailed: bool, output: Output)

  function Status(reply: Reply): (code: int)
    ensures reply.Generated? <==> code == 200
  {
    match reply
    case Maintenance => 503
    case Forbidden => 403
    case NoFile => 400
    case InvalidInput => 400
    case TooMany(_) => 429
    case Failed => 500
    case Generated(_, _, _) => 200
  }

  /** The `catch`: a schema error is 400, `Invalid origin` is 403 and
      anything else is 500. */
  function FailureReply(f: Failure): (reply: Reply)
    ensures f == SchemaError <==> Status(reply) == 400
    ensures f == OriginError <==> Status(reply) == 403
    ensures f == OtherError <==> Status(reply) == 500
  {
    match f
    case SchemaError => InvalidInput
    case OriginError => Forbidden
    case OtherError => Failed
  }

  /** The settings the route reads; keys and codes are `""` when unset. */
  datatype Settings = Settings(maintenanceMode: bool, eventMode: bool, priorityCode: string,
                               rateLimit: Option<real>, openRouterKey: string, geminiKey: string, isDev: bool)

  /** The request: its headers, whether `request.formData()` can read its
      body as a form, whether the form holds a file, and the other form
      fields. */
  datatype Request = Request(origin: Option<string>, host: Option<string>, forwardedFor: Option<string>, realIp: Option<string>,
                             formParsed: bool, hasFile: bool, palette: Option<string>, bgRemove: Option<string>, mood: Option<string>,
                             source: Option<string>, priorityCode: Option<string>)

  /** What the world would do: the URL parser, `JSON.parse`, `hashIp`,
      the two generators, whether the rest of the job (validation,
      resizing, saving) succeeds, the clock and the metrics file. */
  datatype World = World(hostOf: string -> Option<string>, parseJson: string -> Option<Json>, hashIp: string -> string,
                         openRouter: Attempt<string>, gemini: Attempt<string>, pipelineOk: bool,
                         now: int, durationMs: real, nowIso: string, metricsFile: Option<MetricsFile>)

  /** Whether the request passes the gates before the rate limiter, and the
      failure of the first one it does not pass (`None` for a missing file,
      which answers 400 without counting a failure). A body that is not a
      form makes `formData()` reject, which the `catch` answers as any other
      error. */
  function Gate(s: Settings, req: Request, w: World): Result<seq<string>, Option<Failure>>
  {
    if AssertSameOrigin(req.origin, req.host, w.hostOf) == InvalidOrigin then Err(Some(OriginError))
    else if !req.formParsed then Err(Some(OtherError))
    else if !req.hasFile then Err(None)
    else match ParsePalette(req.palette, w.parseJson)
      case Err(f) => Err(Some(f))
      case Ok(p) => Ok(p)
  }

  /** The address key the limiter is consulted with. */
  function IpHash(req: Request, w: World): string
  {
    w.hashIp(GetRequestIp(req.forwardedFor, req.realIp))
  }

  /** Whether `POST` consults the limiter: past maintenance and the gates,
      and neither bypassing the limit nor in development. */
  predicate Consulted(s: Settings, req: Request, w: World)
  {
    && !s.maintenanceMode && Gate(s, req, w).Ok?
    && var form := ReadForm(req.bgRemove, req.mood, req.source, req.priorityCode);
       RateLimited(s.eventMode, form.priorityCode, s.priorityCode, s.isDev)
  }

  /** The work after the limiter: the providers, then the rest of the
      pipeline, then the metrics. */
  method Produce(metrics: MetricsStore, s: Settings, w: World) returns (reply: Reply)
    modifies metrics
    ensures reply.Generated? <==> w.pipelineOk
    ensures !reply.Generated? ==> reply == Failed
    ensures reply.Generated? ==>
      Choice(reply.output, reply.provider, reply.geminiFailed) == Chosen(s.openRouterKey, s.geminiKey, w.openRouter, w.gemini)
    ensures var m := AfterLoad(old(metrics.loaded), old(metrics.metrics), w.metricsFile);
      && (reply.Generated? ==> metrics.metrics.generated == m.generated + 1 && metrics.metrics.failures == m.failures)
      && (reply == Failed ==> metrics.metrics == m.(failures := m.failures + 1))
  {
    var output, provider, geminiFailed, tried := RunProviders(s.openRouterKey, s.geminiKey, w.openRouter, w.gemini);
    if !w.pipelineOk {
      metrics.RecordFailure(w.metricsFile);
      return Failed;
    }
    metrics.RecordGeneration(w.durationMs, w.nowIso, w.metricsFile);
    reply := Generated(provider, geminiFailed, output);
  }

  /** `POST`: the metrics store and the rate limiter are the module state
      it changes. */
  method Post(metrics: MetricsStore, limiter: RateLimiter, s: Settings, req: Request, w: World)
    returns (reply: Reply)
    modifies metrics, limiter
    ensures s.maintenanceMode ==> reply == Maintenance && limiter.records == old(limiter.records)
    ensures reply == Maintenance || reply == NoFile || reply.TooMany? ==>
      metrics.loaded == old(metrics.loaded) && metrics.metrics == old(metrics.metrics)
    ensures !s.maintenanceMode && Gate(s, req, w).Err? ==>
      && limiter.records == old(limiter.records)
      && (Gate(s, req, w).error.None? ==> reply == NoFile)
      && (Gate(s, req, w).error.Some? ==>
            var m := AfterLoad(old(metrics.loaded), old(metrics.metrics), w.metricsFile);
            reply == FailureReply(Gate(s, req, w).error.value) && metrics.metrics == m.(failures := m.failures + 1))
    ensures !s.maintenanceMode && AssertSameOrigin(req.origin, req.host, w.hostOf) != InvalidOrigin && !req.formParsed ==>
      var m := AfterLoad(old(metrics.loaded), old(metrics.metrics), w.metricsFile);
      reply == Failed && metrics.metrics == m.(failures := m.failures + 1) && limiter.records == old(limiter.records)
    ensures !s.maintenanceMode && Gate(s, req, w).Ok? && !Consulted(s, req, w) ==>
      limiter.records == old(limiter.records)
    ensures Consulted(s, req, w) ==>
      limiter.records == Check(old(limiter.records), IpHash(req, w), w.now, s.rateLimit).records
    ensures reply.TooMany? <==> Consulted(s, req, w) && !Check(old(limiter.records), IpHash(req, w), w.now, s.rateLimit).allowed
    ensures reply.TooMany? ==> reply.retryAfter == Check(old(limiter.records), IpHash(req, w), w.now, s.rateLimit).retryAfter
    ensures !s.maintenanceMode && Gate(s, req, w).Ok? && !reply.TooMany? ==>
      (reply.Generated? <==> w.pipelineOk) && (!reply.Generated? ==> reply == Failed)
    ensures reply.Generated? ==>
      && !s.maintenanceMode && Gate(s, req, w).Ok? && w.pipelineOk
      && Choice(reply.output, reply.provider, reply.geminiFailed) == Chosen(s.openRouterKey, s.geminiKey, w.openRouter, w.gemini)
      && var m := AfterLoad(old(metrics.loaded), old(metrics.metrics), w.metricsFile);
         metrics.metrics.generated == m.generated + 1 && metrics.metrics.failures == m.failures
    ensures reply == Failed && Gate(s, req, w).Ok? ==>
      var m := AfterLoad(old(metrics.loaded), old(metrics.metrics), w.metricsFile);
      !w.pipelineOk && metrics.metrics == m.(failures := m.failures + 1)
  {
    if s.maintenanceMode {
      return Maintenance;
    }
    var gate := Gate(s, req, w);
    if gate.Err? {
      if gate.error.None? {
        return NoFile;
      }
      metrics.RecordFailure(w.metricsFile);
      return FailureReply(gate.error.value);
    }
    if Consulted(s, req, w) {
      var allowed, retryAfter := limiter.CheckRateLimit(IpHash(req, w), w.now, s.rateLimit);
      if !allowed {
        return TooMany(retryAfter);
      }
    }
    reply := Produce(metrics, s, w);
  }
}
