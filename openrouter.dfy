/** `lib/openrouter.ts`: image generation through OpenRouter's chat
    completions endpoint, and the search of its answer for the picture. The
    HTTP exchange is outside the model: what each try receives is a
    parameter. */
module OpenRouter {
  import opened Common
  import opened JsValue
  import opened Retry

  const DataUrlStart := "data:image/"
  const Base64Marker := ";base64,"

  /** The characters `.` does not match in a JavaScript regular expression. */
  predicate IsLineTerminator(c: char)
  {
    c == '\n' || c == '\r' || c == '\U{2028}' || c == '\U{2029}'
  }

  predicate SingleLine(s: string)
  {
    forall k :: 0 <= k < |s| ==> !IsLineTerminator(s[k])
  }

  /** `extractBase64FromDataUrl`: the text after `;base64,` of a URL that
      matches `^data:image\/[^;]+;base64,(.+)$`; `None` for `null`. The
      subtype runs to the first `;`, which must open `;base64,`. */
  function ExtractBase64FromDataUrl(url: string): (r: Option<string>)
    ensures r.Some? ==> r.value != "" && SingleLine(r.value) && EndsWith(url, r.value) && StartsWith(url, DataUrlStart)
  {
    if !StartsWith(url, DataUrlStart) then None
    else
      var rest := url[|DataUrlStart|..];
      match IndexOf(rest, ';')
      case None => None
      case Some(i) =>
        var tail := rest[i..];
        if i == 0 || !StartsWith(tail, Base64Marker) then None
        else
          var payload := tail[|Base64Marker|..];
          assert url[|url| - |payload|..] == payload;
          if payload != "" && SingleLine(payload) then Some(payload) else None
  }

  /** The data URL the request carries for the uploaded picture. */
  function DataUrl(subtype: string, payload: string): string
  {
    DataUrlStart + subtype + Base64Marker + payload
  }

  /** A data URL built from a subtype without `;` and a one-line payload
      gives the payload back; this is how the request's own image URL
      `data:image/png;base64,…` reads. */
  lemma DataUrlRoundTrip(subtype: string, payload: string)
    requires subtype != "" && ';' !in subtype && payload != "" && SingleLine(payload)
    ensures ExtractBase64FromDataUrl(DataUrl(subtype, payload)) == Some(payload)
  {
    var url := DataUrl(subtype, payload);
    var tail := Base64Marker + payload;
    var rest := subtype + tail;
    assert url == DataUrlStart + rest;
    DropFront(DataUrlStart, rest);
    assert rest[|subtype|] == ';';
    IndexOfFirst(rest, subtype, ';');
    DropFront(subtype, tail);
    DropFront(Base64Marker, payload);
  }

  /** Dropping the front of a concatenation leaves its back. */
  lemma DropFront(front: string, back: string)
    ensures (front + back)[|front|..] == back
    ensures (front + back)[..|front|] == front
  {
  }

  lemma IndexOfFirst(s: string, before: string, c: char)
    requires |before| < |s| && s[..|before|] == before && c !in before && s[|before|] == c
    ensures IndexOf(s, c) == Some(|before|)
  {
    if |before| > 0 {
      assert s[1..][..|before| - 1] == before[1..];
      IndexOfFirst(s[1..], before[1..], c);
    }
  }

  /** A payload broken over two lines is refused. */
  lemma MultiLinePayloadRefused(subtype: string, first: string, second: string)
    ensures ExtractBase64FromDataUrl(DataUrl(subtype, first + "\n" + second)) == None
  {
    var payload := first + "\n" + second;
    var url := DataUrl(subtype, payload);
    var rest := url[|DataUrlStart|..];
    assert rest == subtype + Base64Marker + payload;
    assert rest[|subtype|] == ';';
    var i := IndexOf(rest, ';').value;
    var tail := rest[i..];
    if i != 0 && StartsWith(tail, Base64Marker) {
      var rem := tail[|Base64Marker|..];
      assert rem == rest[i + |Base64Marker|..];
      var k := |subtype| + |first| - i;
      assert 0 <= k < |rem| && rem[k] == '\n';
    }
  }

  /** `x?.image_url?.url || x?.imageUrl?.url || x?.image_url || x?.imageUrl`
      (the content parts use the first three). */
  function ImagesUrl(item: Option<Json>): Option<Json>
  {
    Or(Field(Field(item, "image_url"), "url"), Or(Field(Field(item, "imageUrl"), "url"), Or(Field(item, "image_url"), Field(item, "imageUrl"))))
  }

  function PartUrl(part: Option<Json>): Option<Json>
  {
    Or(Field(Field(part, "image_url"), "url"), Or(Field(Field(part, "imageUrl"), "url"), Field(part, "image_url")))
  }

  /** The payload of a value that is a string holding a data URL. */
  function PayloadOf(url: Option<Json>): Option<string>
  {
    match AsString(url)
    case None => None
    case Some(s) => ExtractBase64FromDataUrl(s)
  }

  predicate IsImagePart(part: Json)
  {
    Field(Some(part), "type") == Some(JStr("image_url"))
  }

  /** Whether a content part gives a picture, and which. */
  function PartPayload(part: Json): Option<string>
  {
    if IsImagePart(part) then PayloadOf(PartUrl(Some(part))) else None
  }

  /** Part k is the first part that gives a picture, and it gives `v`. */
  predicate FirstFoundAt(parts: seq<Json>, k: int, v: string)
  {
    0 <= k < |parts| && PartPayload(parts[k]) == Some(v) && forall j :: 0 <= j < k ==> PartPayload(parts[j]).None?
  }

  /** The `for … of content` loop: the payload of the first `image_url`
      part whose URL is a data URL; parts of other types and parts whose URL
      is not one are passed over. */
  function FirstContentImage(parts: seq<Json>): Option<string>
  {
    if parts == [] then None
    else if PartPayload(parts[0]).Some? then PartPayload(parts[0])
    else FirstContentImage(parts[1..])
  }

  /** The loop finds no picture exactly when no part gives one. */
  lemma {:induction false} FirstContentImageNone(parts: seq<Json>)
    ensures FirstContentImage(parts).None? <==> forall k :: 0 <= k < |parts| ==> PartPayload(parts[k]).None?
  {
    if parts != [] && PartPayload(parts[0]).None? {
      var tail := parts[1..];
      FirstContentImageNone(tail);
      assert forall k :: 1 <= k < |parts| ==> parts[k] == tail[k - 1];
    }
  }

  /** A picture the loop finds is the first part's that gives one. */
  lemma {:induction false} FirstContentImageFirst(parts: seq<Json>)
    ensures FirstContentImage(parts).Some? ==> exists k :: FirstFoundAt(parts, k, FirstContentImage(parts).value)
  {
    if parts != [] && PartPayload(parts[0]).None? {
      var tail := parts[1..];
      FirstContentImageFirst(tail);
      if FirstContentImage(tail).Some? {
        var k :| FirstFoundAt(tail, k, FirstContentImage(tail).value);
        FirstFoundShift(parts, k, FirstContentImage(tail).value);
      }
    } else if parts != [] {
      assert FirstFoundAt(parts, 0, FirstContentImage(parts).value);
    }
  }

  /** Behind a part that gives no picture, the first finding moves one on. */
  lemma FirstFoundShift(parts: seq<Json>, k: int, v: string)
    requires parts != [] && PartPayload(parts[0]).None? && FirstFoundAt(parts[1..], k, v)
    ensures FirstFoundAt(parts, k + 1, v)
  {
    assert forall j :: 1 <= j < |parts| ==> parts[j] == parts[1..][j - 1];
  }

  /** The four sources `extractImageBase64` looks at, in its order. */
  function FromImages(payload: Option<Json>): Option<string>
  {
    var images := Field(Field(At(Field(payload, "choices"), 0), "message"), "images");
    if IsArray(images) && |images.value.items| > 0 then PayloadOf(ImagesUrl(At(images, 0))) else None
  }

  function FromContent(payload: Option<Json>): Option<string>
  {
    var content := Field(Field(At(Field(payload, "choices"), 0), "message"), "content");
    if IsArray(content) then FirstContentImage(content.value.items) else None
  }

  /** `data[0].b64_json` when it is a string, else the payload of
      `data[0].url`. */
  function FromData(payload: Option<Json>): Option<string>
  {
    var data := Field(payload, "data");
    if IsArray(data) && |data.value.items| > 0 then
      match AsString(Field(At(data, 0), "b64_json"))
      case Some(b64) => Some(b64)
      case None => PayloadOf(Field(At(data, 0), "url"))
    else None
  }

  /** `extractImageBase64(payload)`: `None` for `null`. A `b64_json` that is
      an empty string is returned as it is and counts as no image later. */
  function ExtractImageBase64(payload: Option<Json>): (r: Option<string>)
    ensures FromImages(payload).Some? ==> r == FromImages(payload)
    ensures FromImages(payload).None? && FromContent(payload).Some? ==> r == FromContent(payload)
    ensures FromImages(payload).None? && FromContent(payload).None? ==> r == FromData(payload)
  {
    var images := Field(Field(At(Field(payload, "choices"), 0), "message"), "images");
    var first := if IsArray(images) && |images.value.items| > 0 then PayloadOf(ImagesUrl(At(images, 0))) else None;
    if first.Some? then first
    else
      var content := Field(Field(At(Field(payload, "choices"), 0), "message"), "content");
      var fromContent := if IsArray(content) then FirstContentImage(content.value.items) else None;
      if fromContent.Some? then fromContent
      else FromData(payload)
  }

  /** A picture found anywhere comes from one of the four sources, and a
      payload with none of them gives nothing. */
  lemma ExtractedFromSomeSource(payload: Option<Json>)
    ensures ExtractImageBase64(payload).Some? <==>
      FromImages(payload).Some? || FromContent(payload).Some? || FromData(payload).Some?
    ensures ExtractImageBase64(payload).Some? ==>
      ExtractImageBase64(payload) in {FromImages(payload), FromContent(payload), FromData(payload)}
  {
  }

  /** A non-data URL in `images[0]` does not hide a picture among the
      content parts. */
  lemma ContentAfterNonDataImage(payload: Option<Json>, url: string)
    requires AsString(ImagesUrl(At(Field(Field(At(Field(payload, "choices"), 0), "message"), "images"), 0))) == Some(url)
    requires ExtractBase64FromDataUrl(url).None?
    requires FromContent(payload).Some?
    ensures ExtractImageBase64(payload) == FromContent(payload)
  {
  }

  /** What one try receives: whether the response was ok, and its parsed
      JSON body. */
  datatype Reply = Reply(ok: bool, body: Option<Json>)

  /** One try of the request: `Bearer` authorisation, the prompt and the
      picture; a failed response and one without a picture both throw. */
  function TryOnce(reply: Reply): (r: Attempt<string>)
    ensures r.Succeeded? <==> reply.ok && ExtractImageBase64(reply.body).Some? && ExtractImageBase64(reply.body).value != ""
    ensures r.Succeeded? ==> r.value == ExtractImageBase64(reply.body).value
    ensures !reply.ok ==> r == Threw("OpenRouter failed")
  {
    if !reply.ok then Threw("OpenRouter failed")
    else
      match ExtractImageBase64(reply.body)
      case Some(b64) => if b64 != "" then Succeeded(b64) else Threw("OpenRouter no image data")
      case None => Threw("OpenRouter no image data")
  }

  /** The request headers: the optional ones only when configured. */
  function Headers(apiKey: string, referer: string, title: string): (h: map<string, string>)
    ensures "Authorization" in h && h["Authorization"] == "Bearer " + apiKey
    ensures "Content-Type" in h && h["Content-Type"] == "application/json"
    ensures "HTTP-Referer" in h <==> referer != ""
    ensures "X-Title" in h <==> title != ""
    ensures referer != "" ==> h["HTTP-Referer"] == referer
    ensures title != "" ==> h["X-Title"] == title
    ensures h.Keys <= {"Authorization", "Content-Type", "HTTP-Referer", "X-Title"}
  {
    var base := map["Authorization" := "Bearer " + apiKey, "Content-Type" := "application/json"];
    var withReferer := if referer != "" then base["HTTP-Referer" := referer] else base;
    if title != "" then withReferer["X-Title" := title] else withReferer
  }

  /** `generateWithOpenRouter`: `apiKey`, `referer` and `title` as
      configured (`""` when unset); `replies(i)` is what try i receives.
      Without a key nothing is sent. The result is the base64 text of the
      picture (its decoding is left out). */
  method GenerateWithOpenRouter(apiKey: string, replies: nat -> Reply) returns (r: Attempt<string>, requests: nat)
    ensures apiKey == "" ==> r == Threw("OpenRouter API key missing") && requests == 0
    ensures apiKey != "" ==> 1 <= requests <= MaxAttempts && r == Settled((i: nat) => TryOnce(replies(i)))
    ensures r.Succeeded? ==> replies(requests - 1).ok && ExtractImageBase64(replies(requests - 1).body) == Some(r.value)
  {
    if apiKey == "" {
      return Threw("OpenRouter API key missing"), 0;
    }
    r, requests := WithBackoff((i: nat) => TryOnce(replies(i)));
  }
}
