/** `app/api/feedback/route.ts`: `POST /api/feedback`. The request must come
    from the same origin; its JSON body must match the zod schema (a score
    from 1 to 5, an optional comment of at most 500 characters, an optional
    token); the entry is stored and the score folded into the metrics. */
module FeedbackRoute {
  import opened Common
  import opened JsValue
  import opened Security
  import opened Feedback
  import opened Metrics

  const MinScore := 1.0
  const MaxScore := 5.0
  const MaxCommentLength := 500
  /** How much of the token is stored: `token.slice(0, 12)`. */
  const StoredTokenLength := 12

  /** What `schema.parse` returns. */
  datatype FeedbackInput = FeedbackInput(score: real, comment: Option<string>, token: Option<string>)

  /** `z.string().max(maxLength).optional()` on the field `key`: absent, or
      a string no longer than `maxLength` (`None`: no limit). */
  predicate OptionalStringOk(fields: map<string, Json>, key: string, maxLength: Option<nat>)
  {
    key !in fields || (fields[key].JStr? && (maxLength.None? || |fields[key].s| <= maxLength.value))
  }

  function OptionalString(fields: map<string, Json>, key: string): Option<string>
  {
    if key in fields && fields[key].JStr? then Some(fields[key].s) else None
  }

  /** `schema.parse(body)`, `None` when zod throws. Keys other than the
      three named ones are ignored. */
  function ParseFeedback(body: Json): (r: Option<FeedbackInput>)
    ensures r.Some? ==> MinScore <= r.value.score <= MaxScore
    ensures r.Some? ==> r.value.comment.Some? ==> |r.value.comment.value| <= MaxCommentLength
    ensures r.Some? ==>
      && body.JObj? && "score" in body.fields && body.fields["score"] == JNum(r.value.score)
      && (r.value.comment.Some? <==> "comment" in body.fields)
      && (r.value.comment.Some? ==> body.fields["comment"] == JStr(r.value.comment.value))
      && (r.value.token.Some? <==> "token" in body.fields)
      && (r.value.token.Some? ==> body.fields["token"] == JStr(r.value.token.value))
  {
    match body
    case JObj(fields) =>
      if "score" in fields && fields["score"].JNum? && MinScore <= fields["score"].n <= MaxScore
         && OptionalStringOk(fields, "comment", Some(MaxCommentLength)) && OptionalStringOk(fields, "token", None)
      then Some(FeedbackInput(fields["score"].n, OptionalString(fields, "comment"), OptionalString(fields, "token")))
      else None
    case _ => None
  }

  /** An input the schema admits. */
  predicate ValidInput(input: FeedbackInput)
  {
    MinScore <= input.score <= MaxScore && (input.comment.Some? ==> |input.comment.value| <= MaxCommentLength)
  }

  /** The JSON body a client sends for `input`. */
  function EncodeInput(input: FeedbackInput): Json
  {
    var withScore := map["score" := JNum(input.score)];
    var withComment := if input.comment.Some? then withScore["comment" := JStr(input.comment.value)] else withScore;
    JObj(if input.token.Some? then withComment["token" := JStr(input.token.value)] else withComment)
  }

  /** The schema admits exactly the valid inputs: each is read back from
      its body unchanged, and nothing else is ever produced. */
  lemma ParseEncodeRoundTrip(input: FeedbackInput)
    ensures ParseFeedback(EncodeInput(input)) == (if ValidInput(input) then Some(input) else None)
  {
    var fields := EncodeInput(input).fields;
    assert fields["score"] == JNum(input.score);
    assert "comment" in fields <==> input.comment.Some?;
    assert "token" in fields <==> input.token.Some?;
  }

  /** Keys the schema does not name change nothing. */
  lemma ExtraKeysIgnored(fields: map<string, Json>, key: string, value: Json)
    requires key != "score" && key != "comment" && key != "token"
    ensures ParseFeedback(JObj(fields[key := value])) == ParseFeedback(JObj(fields))
  {
    var more := fields[key := value];
    assert "score" in more <==> "score" in fields;
    assert "comment" in more <==> "comment" in fields;
    assert "token" in more <==> "token" in fields;
  }

  /** A `null` comment or token is refused: `optional` admits a missing
      field, not a `null` one; so is a body that is not an object. */
  lemma NullFieldRefused(fields: map<string, Json>, key: string)
    requires key == "comment" || key == "token"
    ensures ParseFeedback(JObj(fields[key := JNull])) == None
    ensures ParseFeedback(JArr([JObj(fields)])) == None && ParseFeedback(JNull) == None
  {
  }

  /** The entry stored for an input received at `nowIso`: the comment
      trimmed (`''` when absent), the token cut to 12 characters. */
  function ToEntry(input: FeedbackInput, nowIso: string): (e: FeedbackEntry)
    ensures e.score == input.score && e.createdAt == nowIso
    ensures input.comment.None? ==> e.comment == ""
    ensures input.comment.Some? ==> e.comment == Trim(input.comment.value) && CutFrom(input.comment.value, e.comment)
    ensures |e.comment| > 0 ==> !IsJsSpace(e.comment[0]) && !IsJsSpace(e.comment[|e.comment| - 1])
    ensures e.token.Some? <==> input.token.Some?
    ensures e.token.Some? ==>
      && |e.token.value| == MinInt(StoredTokenLength, |input.token.value|)
      && StartsWith(input.token.value, e.token.value)
  {
    var comment := if input.comment.Some? then OrElse(Trim(input.comment.value), "") else "";
    var token := if input.token.Some? then Some(input.token.value[..MinInt(StoredTokenLength, |input.token.value|)]) else None;
    FeedbackEntry(input.score, comment, nowIso, token)
  }

  /** Every stored entry keeps to the schema's bounds: a score from 1 to 5,
      a comment of at most 500 characters and a token of at most 12. */
  lemma StoredEntryBounded(body: Json, nowIso: string)
    requires ParseFeedback(body).Some?
    ensures var e := ToEntry(ParseFeedback(body).value, nowIso);
      && MinScore <= e.score <= MaxScore
      && |e.comment| <= MaxCommentLength
      && (e.token.Some? ==> |e.token.value| <= StoredTokenLength)
  {
  }

  /** The reply: `{ ok: true }`, 403 `Forbidden` or 400. */
  datatype Reply = Accepted | Forbidden | BadInput

  /** `POST`: `origin`, `host` and `hostOf` as `assertSameOrigin` takes
      them; `body` the parsed request body (`None` when `request.json()`
      throws); `nowIso` the time written by `toISOString`; the two files what
      the stores would read. */
  method Post(feedback: FeedbackStore, metrics: MetricsStore,
              origin: Option<string>, host: Option<string>, hostOf: string -> Option<string>,
              body: Option<Json>, nowIso: string,
              feedbackFile: Option<seq<FeedbackEntry>>, metricsFile: Option<MetricsFile>)
    returns (reply: Reply)
    modifies feedback, metrics
    ensures AssertSameOrigin(origin, host, hostOf) == InvalidOrigin ==>
      reply == Forbidden && feedback.cache == old(feedback.cache)
      && metrics.loaded == old(metrics.loaded) && metrics.metrics == old(metrics.metrics)
    ensures AssertSameOrigin(origin, host, hostOf) == Passed && (body.None? || ParseFeedback(body.value).None?) ==>
      reply == BadInput && feedback.cache == old(feedback.cache)
      && metrics.loaded == old(metrics.loaded) && metrics.metrics == old(metrics.metrics)
    ensures AssertSameOrigin(origin, host, hostOf) == Passed && body.Some? && ParseFeedback(body.value).Some? ==>
      var input := ParseFeedback(body.value).value;
      var m := AfterLoad(old(metrics.loaded), old(metrics.metrics), metricsFile);
      && reply == Accepted
      && feedback.cache == Some(Current(old(feedback.cache), feedbackFile) + [ToEntry(input, nowIso)])
      && metrics.loaded
      && metrics.metrics == m.(feedbackCount := m.feedbackCount + 1,
                               feedbackAvg := NextAverage(m.feedbackAvg, m.feedbackCount, input.score))
    ensures reply == Accepted && FeedbackInRange(AfterLoad(old(metrics.loaded), old(metrics.metrics), metricsFile)) ==>
      FeedbackInRange(metrics.metrics)
  {
    if AssertSameOrigin(origin, host, hostOf) == InvalidOrigin {
      return Forbidden;
    }
    if body.None? {
      return BadInput;
    }
    var parsed := ParseFeedback(body.value);
    if parsed.None? {
      return BadInput;
    }
    var input := parsed.value;
    feedback.AddFeedback(ToEntry(input, nowIso), feedbackFile);
    metrics.RecordFeedback(input.score, metricsFile);
    reply := Accepted;
  }
}
