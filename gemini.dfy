/** `lib/gemini.ts`: image generation with Google's Gemini and Imagen
    models. The model name decides the route: Imagen's `:predict` endpoint,
    the REST `generateContent` endpoint, or the SDK with the REST endpoint
    behind it. The SDK and HTTP exchanges are outside the model: what each
    try receives is a parameter. */
module Gemini {
  import opened Common
  import opened JsValue
  import opened Retry

  const ModelsPrefix := "models/"
  const EndpointBase := "https://generativelanguage.googleapis.com/v1beta/"

  /** `normalizeModel` */
  function NormalizeModel(model: string): (name: string)
    ensures StartsWith(name, ModelsPrefix)
    ensures StartsWith(model, ModelsPrefix) ==> name == model
    ensures !StartsWith(model, ModelsPrefix) ==> name == ModelsPrefix + model
  {
    if StartsWith(model, ModelsPrefix) then model else ModelsPrefix + model
  }

  /** Normalising twice is normalising once. */
  lemma NormalizeModelIdempotent(model: string)
    ensures NormalizeModel(NormalizeModel(model)) == NormalizeModel(model)
  {
  }

  /** ASCII letters compared without case, as a regular expression with
      the `i` flag and without `u` compares the letters of `image`. */
  function Lower(c: char): char
  {
    if 'A' <= c <= 'Z' then (c as int - 'A' as int + 'a' as int) as char else c
  }

  predicate StartsWithIgnoringCase(s: string, p: string)
  {
    |p| <= |s| && forall k :: 0 <= k < |p| ==> Lower(s[k]) == Lower(p[k])
  }

  predicate ContainsIgnoringCase(s: string, p: string)
    decreases |s|
  {
    StartsWithIgnoringCase(s, p) || (|s| > 0 && ContainsIgnoringCase(s[1..], p))
  }

  /** `isImageModel`: `/image|imagen/i.test(model)`. */
  predicate IsImageModel(model: string)
  {
    ContainsIgnoringCase(model, "image") || ContainsIgnoringCase(model, "imagen")
  }

  /** The `imagen` alternative adds nothing: every name containing it
      contains `image`. */
  lemma {:induction false} ImagenContainsImage(s: string)
    ensures ContainsIgnoringCase(s, "imagen") ==> ContainsIgnoringCase(s, "image")
    decreases |s|
  {
    if StartsWithIgnoringCase(s, "imagen") {
      assert StartsWithIgnoringCase(s, "image");
    } else if |s| > 0 {
      ImagenContainsImage(s[1..]);
    }
  }

  lemma IsImageModelIsImage(model: string)
    ensures IsImageModel(model) <==> ContainsIgnoringCase(model, "image")
  {
    ImagenContainsImage(model);
  }

  /** The three routes of one try. */
  datatype Route = Predict | RestGenerate | SdkThenRest

  /** `env.geminiModel.includes('imagen')` (with case) goes first, then
      `isImageModel`, then the SDK. */
  function ChooseRoute(model: string): Route
  {
    if Contains(model, "imagen") then Predict
    else if IsImageModel(model) then RestGenerate
    else SdkThenRest
  }

  lemma {:induction false} ContainsCaseless(s: string, p: string)
    ensures Contains(s, p) ==> ContainsIgnoringCase(s, p)
    decreases |s|
  {
    if StartsWith(s, p) {
      assert StartsWithIgnoringCase(s, p) by {
        forall k | 0 <= k < |p| ensures Lower(s[k]) == Lower(p[k]) {
          assert s[..|p|][k] == s[k];
        }
      }
    } else if |s| > 0 {
      ContainsCaseless(s[1..], p);
    }
  }

  /** The routes split the names: an Imagen name (with case) is an image
      model, only an image model avoids the SDK, and a name with no `image`
      in any case goes through the SDK. */
  lemma RouteOrder(model: string)
    ensures ChooseRoute(model) == Predict <==> Contains(model, "imagen")
    ensures ChooseRoute(model) != SdkThenRest <==> ContainsIgnoringCase(model, "image")
  {
    IsImageModelIsImage(model);
    ContainsCaseless(model, "imagen");
    ImagenContainsImage(model);
  }

  /** The URL a REST route posts to. */
  function Endpoint(model: string, route: Route): (url: string)
    ensures route == Predict ==> url == EndpointBase + NormalizeModel(model) + ":predict"
    ensures route != Predict ==> url == EndpointBase + NormalizeModel(model) + ":generateContent"
  {
    EndpointBase + NormalizeModel(model) + (if route == Predict then ":predict" else ":generateContent")
  }

  /** `p.inlineData?.data || p.inline_data?.data` */
  function InlineData(part: Json): Option<Json>
  {
    Or(Field(Field(Some(part), "inlineData"), "data"), Field(Field(Some(part), "inline_data"), "data"))
  }

  /** What the `find` over the parts of a REST answer comes to: the data of
      the part found, no part found, or a part that is itself `null`, on
      which `p.inlineData` throws a `TypeError` before a later part is
      looked at. */
  datatype Search = Hit(data: Json) | Miss | NullPart

  /** `parts.find(p => p.inlineData?.data || p.inline_data?.data)`, then
      its data. */
  function FindInline(parts: seq<Json>): (r: Search)
    ensures r.Hit? ==> Truthy(Some(r.data))
    ensures r.Miss? <==> forall k :: 0 <= k < |parts| ==> parts[k] != JNull && !Truthy(InlineData(parts[k]))
    ensures r.NullPart? ==> JNull in parts
  {
    if parts == [] then Miss
    else if parts[0] == JNull then NullPart
    else if Truthy(InlineData(parts[0])) then Hit(InlineData(parts[0]).value)
    else
      var r := FindInline(parts[1..]);
      assert forall k :: 1 <= k < |parts| ==> parts[k] == parts[1..][k - 1];
      r
  }

  /** The part found is the first one carrying data, when no `null` part
      comes before it. */
  lemma {:induction false} FindInlineFirst(parts: seq<Json>, k: nat)
    requires k < |parts| && Truthy(InlineData(parts[k]))
    requires forall j :: 0 <= j < k ==> parts[j] != JNull && !Truthy(InlineData(parts[j]))
    ensures FindInline(parts) == Hit(InlineData(parts[k]).value)
  {
    if k > 0 {
      FindInlineFirst(parts[1..], k - 1);
    }
  }

  /** A `null` part before any part carrying data makes the search throw. */
  lemma {:induction false} NullPartThrows(parts: seq<Json>, k: nat)
    requires k < |parts| && parts[k] == JNull
    requires forall j :: 0 <= j < k ==> !Truthy(InlineData(parts[j]))
    ensures FindInline(parts) == NullPart
  {
    if k > 0 && parts[0] != JNull {
      NullPartThrows(parts[1..], k - 1);
    }
  }

  /** What the REST routes receive. */
  datatype Reply = Reply(ok: bool, body: Option<Json>)

  /** A found value becomes the result only when it is a string. `Buffer.from`
      throws on a number or a boolean; an array or array-like object, which
      it would turn into bytes, is also counted as a failure here. */
  function Decoded(data: Option<Json>, missing: string): Attempt<string>
  {
    if !Truthy(data) then Threw(missing)
    else match AsString(data)
      case Some(s) => Succeeded(s)
      case None => Threw("TypeError")
  }

  /** The `generateContent` REST try. */
  function RestTry(reply: Reply): Attempt<string>
  {
    if !reply.ok then Threw("Gemini REST failed")
    else
      var parts := Field(Field(At(Field(reply.body, "candidates"), 0), "content"), "parts");
      var found := if IsArray(parts) then FindInline(parts.value.items) else Miss;
      if found.NullPart? then Threw("TypeError")
      else Decoded(if found.Hit? then Some(found.data) else None, "Gemini REST no image data")
  }

  /** The `:predict` try. */
  function PredictTry(reply: Reply): Attempt<string>
  {
    if !reply.ok then Threw("Imagen REST failed")
    else Decoded(Field(At(Field(reply.body, "predictions"), 0), "bytesBase64Encoded"), "Imagen REST no image data")
  }

  /** The SDK try: `sdkParts` is the parts of the SDK's answer (`None` when
      it throws); only `inlineData.data` counts there. Any failure falls
      back to the REST try. */
  function SdkTry(sdkParts: Option<seq<Json>>, reply: Reply): Attempt<string>
  {
    var found := if sdkParts.Some? then FirstSdkImage(sdkParts.value) else None;
    match found
    case Some(s) => Succeeded(s)
    case None => RestTry(reply)
  }

  /** `parts.find(part => part.inlineData?.data)`, when the data is a
      non-empty string; a `null` part before it throws, and the SDK try
      fails. */
  function FirstSdkImage(parts: seq<Json>): Option<string>
  {
    if parts == [] || parts[0] == JNull then None
    else
      var data := Field(Field(Some(parts[0]), "inlineData"), "data");
      if Truthy(data) then AsString(data) else FirstSdkImage(parts[1..])
  }

  /** One try of `generateWithGemini` on the route `route`. */
  function TryOnce(route: Route, sdkParts: Option<seq<Json>>, reply: Reply): (r: Attempt<string>)
    ensures route == Predict && !reply.ok ==> r == Threw("Imagen REST failed")
    ensures route == RestGenerate ==> r == RestTry(reply)
    ensures route == SdkThenRest && sdkParts.None? ==> r == RestTry(reply)
  {
    match route
    case Predict => PredictTry(reply)
    case RestGenerate => RestTry(reply)
    case SdkThenRest => SdkTry(sdkParts, reply)
  }

  /** A REST answer whose first data-carrying part holds a string gives
      that string. */
  lemma RestFindsFirstInline(reply: Reply, parts: seq<Json>, k: nat, data: string)
    requires reply.ok
    requires Field(Field(At(Field(reply.body, "candidates"), 0), "content"), "parts") == Some(JArr(parts))
    requires k < |parts| && InlineData(parts[k]) == Some(JStr(data)) && data != ""
    requires forall j :: 0 <= j < k ==> parts[j] != JNull && !Truthy(InlineData(parts[j]))
    ensures RestTry(reply) == Succeeded(data)
  {
    FindInlineFirst(parts, k);
  }

  /** A REST answer with a `null` part before any part carrying data makes
      the try throw a `TypeError`. */
  lemma RestNullPartThrows(reply: Reply, parts: seq<Json>, k: nat)
    requires reply.ok
    requires Field(Field(At(Field(reply.body, "candidates"), 0), "content"), "parts") == Some(JArr(parts))
    requires k < |parts| && parts[k] == JNull
    requires forall j :: 0 <= j < k ==> !Truthy(InlineData(parts[j]))
    ensures RestTry(reply) == Threw("TypeError")
  {
    NullPartThrows(parts, k);
  }

  /** `generateWithGemini`: `apiKey` and `model` as configured (`""` when
      unset); `sdk(i)` and `replies(i)` are what try i receives. Without a
      key nothing is tried; otherwise the route is fixed by the model name
      and tried up to three times. */
  method GenerateWithGemini(apiKey: string, model: string, sdk: nat -> Option<seq<Json>>, replies: nat -> Reply)
    returns (r: Attempt<string>, tries: nat)
    ensures apiKey == "" ==> r == Threw("Gemini API key missing") && tries == 0
    ensures apiKey != "" ==> 1 <= tries <= MaxAttempts && r == Settled((i: nat) => TryOnce(ChooseRoute(model), sdk(i), replies(i)))
  {
    if apiKey == "" {
      return Threw("Gemini API key missing"), 0;
    }
    var route := ChooseRoute(model);
    r, tries := WithBackoff((i: nat) => TryOnce(route, sdk(i), replies(i)));
  }
}
