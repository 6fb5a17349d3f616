/**
 * The HTTP functions (`firebase/functions/src/index.ts`): the API key lookup
 * and the client cache, the `withHttp` method gate and response envelope,
 * and the four handlers with the normalisation they apply to the model's
 * output.
 *
 * The model call is an input: `GenReply` is what `generateContent` did (it
 * threw, or it answered with an optional text). `parse` is JSON.parse,
 * `uuid(i)` the i-th `crypto.randomUUID()` of a call, and `stack` the stack
 * trace the engine records on an Error.
 */
module CloudFunctions {
  import opened Wrappers
  import opened Text
  import opened Js

  const EXTERNAL_RESOURCE := "External Resource"

  // ---------------------------------------------------------------------------
  // getApiKey and the client cache
  // ---------------------------------------------------------------------------

  const MISSING_KEY :=
    "GEMINI_API_KEY is missing. For local development, create a file at `firebase/functions/.env` "
    + "and add the line `GEMINI_API_KEY=\"YOUR_KEY\"`. For deployed functions, run "
    + "`firebase functions:config:set gemini.key=\"YOUR_KEY\"`."

  /** Where a key can come from: `process.env.GEMINI_API_KEY` and the runtime
    * config's `gemini.key`. */
  datatype KeySources = KeySources(fromEnv: Option<string>, fromConfig: Option<string>)

  /** `getApiKey`: the environment key wins over the config key; with
    * neither, the call throws. A key it returns is never empty. */
  function GetApiKey(keys: KeySources): (r: Result<string, JsError>)
    ensures r.Ok? ==> r.value != ""
    ensures r.Err? <==> !Present(keys.fromEnv) && !Present(keys.fromConfig)
    ensures r.Err? ==> r.error == Raise(MISSING_KEY)
    ensures Present(keys.fromEnv) ==> r == Ok(keys.fromEnv.value)
    ensures !Present(keys.fromEnv) && Present(keys.fromConfig) ==> r == Ok(keys.fromConfig.value)
  {
    if Present(keys.fromEnv) then Ok(keys.fromEnv.value)
    else if Present(keys.fromConfig) then Ok(keys.fromConfig.value)
    else Err(Raise(MISSING_KEY))
  }

  /** A `GoogleGenAI` client, as far as the cache is concerned. */
  class GenAiClient {
    const apiKey: string

    constructor (apiKey: string)
      ensures this.apiKey == apiKey
    {
      this.apiKey := apiKey;
    }
  }

  /** The module-level `cachedKey` / `cachedClient` pair. */
  class ClientCache {
    var cachedKey: Option<string>
    var cachedClient: GenAiClient?

    /** Both are set together, and the client was built with the cached key. */
    ghost predicate Valid()
      reads this, cachedClient
    {
      && (cachedClient == null <==> cachedKey.None?)
      && (cachedClient != null ==> cachedClient.apiKey == cachedKey.value)
    }

    constructor ()
      ensures Valid() && cachedKey == None && cachedClient == null
    {
      cachedKey := None;
      cachedClient := null;
    }

    /** `getClient`: looks the key up, rebuilds the client when there is none
      * yet or the key changed, and otherwise hands back the cached one. */
    method GetClient(keys: KeySources) returns (r: Result<GenAiClient, JsError>)
      requires Valid()
      modifies this
      ensures Valid()
      ensures GetApiKey(keys).Err? ==>
                r == Err(GetApiKey(keys).error) && cachedKey == old(cachedKey) && cachedClient == old(cachedClient)
      ensures GetApiKey(keys).Ok? ==>
                && r.Ok? && r.value == cachedClient
                && cachedKey == Some(GetApiKey(keys).value)
                && r.value.apiKey == GetApiKey(keys).value
      ensures GetApiKey(keys).Ok? && old(cachedClient) != null && old(cachedKey) == Some(GetApiKey(keys).value) ==>
                r == Ok(old(cachedClient))
      ensures GetApiKey(keys).Ok? && (old(cachedClient) == null || old(cachedKey) != Some(GetApiKey(keys).value)) ==>
                r.Ok? && fresh(r.value)
    {
      var key := GetApiKey(keys);
      if key.Err? {
        return Err(key.error);
      }
      if cachedClient == null || cachedKey != Some(key.value) {
        cachedClient := new GenAiClient(key.value);
        cachedKey := Some(key.value);
      }
      r := Ok(cachedClient);
    }
  }

  // ---------------------------------------------------------------------------
  // withHttp
  // ---------------------------------------------------------------------------

  /** What a handler did with its payload: returned a value, or threw
    * something whose `message` and `stack` may be missing. */
  datatype HandlerOutcome = Returned(value: Json) | Threw(message: Option<string>, stack: Option<string>)

  /** Throwing `new Error(message)`. */
  function Fault(message: string, stack: string): HandlerOutcome {
    Threw(Some(message), Some(stack))
  }

  datatype HttpRequest = HttpRequest(httpMethod: string, body: Json)

  /** What was sent: nothing yet, a text body, or a JSON body. */
  datatype Body = NoBody | TextBody(text: string) | JsonBody(value: Json)

  /** The response object the handler writes to. */
  class HttpResponse {
    var headers: map<string, string>
    var statusCode: nat
    var body: Body

    constructor ()
      ensures headers == map[] && statusCode == 200 && body == NoBody
    {
      headers := map[];
      statusCode := 200;
      body := NoBody;
    }

    /** `res.set(name, value)`. */
    method Set(name: string, value: string)
      modifies this
      ensures headers == old(headers)[name := value]
      ensures statusCode == old(statusCode) && body == old(body)
    {
      headers := headers[name := value];
    }

    /** `res.status(code)`. */
    method Status(code: nat)
      modifies this
      ensures statusCode == code
      ensures headers == old(headers) && body == old(body)
    {
      statusCode := code;
    }

    /** `res.send(text)`. */
    method Send(text: string)
      modifies this
      ensures body == TextBody(text)
      ensures headers == old(headers) && statusCode == old(statusCode)
    {
      body := TextBody(text);
    }

    /** `res.json(value)`. */
    method SendJson(value: Json)
      modifies this
      ensures body == JsonBody(value)
      ensures headers == old(headers) && statusCode == old(statusCode)
    {
      body := JsonBody(value);
    }
  }

  const CORS_HEADERS: map<string, string> := map[
    "Access-Control-Allow-Origin" := "*",
    "Access-Control-Allow-Headers" := "Content-Type, Authorization",
    "Access-Control-Allow-Methods" := "POST, OPTIONS"
  ]

  const METHOD_NOT_ALLOWED := "Method not allowed. Use POST."

  /** `{error: {message}}` / `{error: {message, stack}}`. */
  function ErrorEnvelope(fields: map<string, Json>): Json {
    JObj(map["error" := JObj(fields)])
  }

  /** `req.body || {}`. */
  function PayloadOf(req: HttpRequest): Json {
    if Truthy(req.body) then req.body else JObj(map[])
  }

  /** The status and body `withHttp` sends. */
  datatype Response = Response(status: nat, body: Body)

  /** The envelope: 200 with `{result}` when the handler returns, 500 with
    * the error's message and stack (or their default texts) when it throws. */
  function Envelope(outcome: HandlerOutcome): Response {
    match outcome
    case Returned(v) => Response(200, JsonBody(JObj(map["result" := v])))
    case Threw(message, stack) =>
      Response(500, JsonBody(ErrorEnvelope(map[
        "message" := JStr(OrElse(message, "Unexpected error")),
        "stack" := JStr(OrElse(stack, "No stack trace available"))])))
  }

  /** The method gate: OPTIONS is answered 204 with an empty body, any other
    * method but POST 405; only a POST reaches the handler. */
  function Respond(req: HttpRequest, handler: Json -> HandlerOutcome): (r: Response)
    ensures req.httpMethod == "OPTIONS" ==> r == Response(204, TextBody(""))
    ensures req.httpMethod != "OPTIONS" && req.httpMethod != "POST" ==>
              r == Response(405, JsonBody(ErrorEnvelope(map["message" := JStr(METHOD_NOT_ALLOWED)])))
    ensures req.httpMethod == "POST" ==> r == Envelope(handler(PayloadOf(req)))
  {
    if req.httpMethod == "OPTIONS" then Response(204, TextBody(""))
    else if req.httpMethod != "POST" then
      Response(405, JsonBody(ErrorEnvelope(map["message" := JStr(METHOD_NOT_ALLOWED)])))
    else Envelope(handler(PayloadOf(req)))
  }

  /** A POST is answered 200 exactly when the handler returns; the status is
    * always one of 200, 204, 405 and 500, and a 500 always carries a
    * non-empty message and stack. */
  lemma EnvelopeStatus(req: HttpRequest, handler: Json -> HandlerOutcome)
    ensures var r := Respond(req, handler);
            && r.status in {200, 204, 405, 500}
            && (req.httpMethod == "POST" ==> (r.status == 200 <==> handler(PayloadOf(req)).Returned?))
            && (r.status == 500 ==>
                  r.body.JsonBody? &&
                  var e := Field(r.body.value, "error");
                  && Field(e, "message").JStr? && Field(e, "message").s != ""
                  && Field(e, "stack").JStr? && Field(e, "stack").s != "")
  {
  }

  /** A thrown value without a message or stack is reported with the
    * default texts; an Error's own message and stack are passed on. */
  lemma EnvelopeDefaults(message: Option<string>, stack: Option<string>)
    ensures var e := Field(Envelope(Threw(message, stack)).body.value, "error");
            && (Present(message) ==> Field(e, "message") == JStr(message.value))
            && (!Present(message) ==> Field(e, "message") == JStr("Unexpected error"))
            && (Present(stack) ==> Field(e, "stack") == JStr(stack.value))
            && (!Present(stack) ==> Field(e, "stack") == JStr("No stack trace available"))
  {
  }

  /** `withHttp(handler)` serving one request: the three CORS headers are set
    * on every response, then the gate and the envelope decide the rest.
    * `invoked` says whether the handler ran. */
  method WithHttp(req: HttpRequest, res: HttpResponse, handler: Json -> HandlerOutcome)
    returns (invoked: bool)
    modifies res
    ensures invoked <==> req.httpMethod == "POST"
    ensures res.headers == old(res.headers) + CORS_HEADERS
    ensures Response(res.statusCode, res.body) == Respond(req, handler)
  {
    AllowCors(res);
    if req.httpMethod == "OPTIONS" {
      res.Status(204);
      res.Send("");
      return false;
    }
    if req.httpMethod != "POST" {
      res.Status(405);
      res.SendJson(ErrorEnvelope(map["message" := JStr(METHOD_NOT_ALLOWED)]));
      return false;
    }
    var outcome := handler(PayloadOf(req));
    invoked := true;
    match outcome
    case Returned(result) =>
      res.Status(200);
      res.SendJson(JObj(map["result" := result]));
    case Threw(message, stack) =>
      res.Status(500);
      res.SendJson(ErrorEnvelope(map[
        "message" := JStr(OrElse(message, "Unexpected error")),
        "stack" := JStr(OrElse(stack, "No stack trace available"))]));
  }

  /** The three `res.set` calls that open every response. */
  method AllowCors(res: HttpResponse)
    modifies res
    ensures res.headers == old(res.headers) + CORS_HEADERS
    ensures res.statusCode == old(res.statusCode) && res.body == old(res.body)
  {
    ghost var h := res.headers;
    res.Set("Access-Control-Allow-Origin", "*");
    res.Set("Access-Control-Allow-Headers", "Content-Type, Authorization");
    res.Set("Access-Control-Allow-Methods", "POST, OPTIONS");
    CorsMerge(h);
  }

  /** Setting the three headers one after the other merges `CORS_HEADERS`. */
  lemma CorsMerge(h: map<string, string>)
    ensures h["Access-Control-Allow-Origin" := "*"]
             ["Access-Control-Allow-Headers" := "Content-Type, Authorization"]
             ["Access-Control-Allow-Methods" := "POST, OPTIONS"] == h + CORS_HEADERS
  {
  }

  // ---------------------------------------------------------------------------
  // The model call and the shared error handling
  // ---------------------------------------------------------------------------

  /** What `generateContent` did: threw (with a message, perhaps), or
    * answered with `response.text`, which may be undefined. */
  datatype GenReply = GenFailed(message: Option<string>) | GenText(text: Option<string>)

  /** `JSON.parse(response.text ?? '{}')`: only a missing text reads as the
    * empty object; any present text, even "", goes to `JSON.parse`. */
  function ParseText(text: Option<string>, parse: string -> Parsed): (r: Parsed)
    ensures text.None? ==> r == Parsed(JObj(map[]))
    ensures text.Some? ==> r == parse(text.value)
  {
    match text
    case None => Parsed(JObj(map[]))
    case Some(t) => parse(t)
  }

  /** The `catch` of every handler: `new Error(error?.message || '<X> failed.')`. */
  function Rethrow(message: Option<string>, fallback: string, stack: string): (o: HandlerOutcome)
    requires fallback != ""
    ensures o.Threw? && o.message.Some? && o.message.value != ""
    ensures Present(message) ==> o.message == message
    ensures !Present(message) ==> o.message == Some(fallback)
    ensures o.stack == Some(stack)
  {
    Fault(OrElse(message, fallback), stack)
  }

  /** What the handlers throw when the field they require is missing or
    * empty, before the key lookup and before any model call. */
  const URL_REQUIRED := "`url` is required."
  const TOPIC_REQUIRED := "`topic` is required."

  // ---------------------------------------------------------------------------
  // resolveWebPageTitle
  // ---------------------------------------------------------------------------

  /** `s.replace(/^"|"$/g, '')`: one leading and one trailing quote go; a lone
    * `"` is removed once. */
  function StripQuotes(s: string): (r: string)
    ensures var k := if |s| > 0 && s[0] == '"' then 1 else 0;
            && k + |r| <= |s| && r == s[k..k + |r|]
            && |s| - k - |r| <= 1
            && (k + |r| < |s| <==> |s| > k && s[|s| - 1] == '"')
  {
    var a := if |s| > 0 && s[0] == '"' then s[1..] else s;
    if |a| > 0 && a[|a| - 1] == '"' then a[..|a| - 1] else a
  }

  /** The title cleaning: trim, default to "External Resource", strip the
    * quotes at the ends, and refuse anything that mentions "http". */
  function CleanTitle(text: Option<string>): (r: string)
    ensures !Contains(r, "http")
  {
    var trimmed := if text.Some? then Trim(text.value) else "";
    var title := if trimmed != "" then trimmed else EXTERNAL_RESOURCE;
    var unquoted := StripQuotes(title);
    NoHttpInDefault();
    if Contains(unquoted, "http") then EXTERNAL_RESOURCE else unquoted
  }

  /** A title other than "External Resource" is the model's trimmed,
    * non-empty text with its quotes stripped. */
  lemma CleanTitleOrigin(text: Option<string>)
    ensures CleanTitle(text) != EXTERNAL_RESOURCE ==>
              text.Some? && Trim(text.value) != "" && CleanTitle(text) == StripQuotes(Trim(text.value))
  {
    if text.None? || Trim(text.value) == "" {
      NoQuotesInDefault();
      assert StripQuotes(EXTERNAL_RESOURCE) == EXTERNAL_RESOURCE;
    }
  }

  /** Conversely, a non-empty trimmed reply whose stripped text has no
    * "http" in it keeps that stripped text, whether or not it was quoted or
    * padded with white space. */
  lemma CleanTitleKeepsStrippedText(text: Option<string>)
    requires text.Some? && Trim(text.value) != ""
    requires !Contains(StripQuotes(Trim(text.value)), "http")
    ensures CleanTitle(text) == StripQuotes(Trim(text.value))
  {
  }

  lemma NoHttpInDefault()
    ensures !Contains(EXTERNAL_RESOURCE, "http")
  {
    assert forall i :: 0 <= i < |EXTERNAL_RESOURCE| ==> EXTERNAL_RESOURCE[i] != 'h';
    WithoutFirstCharNoMatch(EXTERNAL_RESOURCE, "http");
  }

  lemma NoQuotesInDefault()
    ensures EXTERNAL_RESOURCE[0] != '"' && EXTERNAL_RESOURCE[|EXTERNAL_RESOURCE| - 1] != '"'
  {
  }

  /** A string that lacks the first character of `pat` does not contain it. */
  lemma {:induction false} WithoutFirstCharNoMatch(s: string, pat: string)
    requires |pat| > 0
    requires forall i :: 0 <= i < |s| ==> s[i] != pat[0]
    ensures !Contains(s, pat)
    decreases |s|
  {
    if |s| >= |pat| {
      assert s[..|pat|][0] == s[0];
      WithoutFirstCharNoMatch(s[1..], pat);
    }
  }

  /** No text, or only white space, gives "External Resource". */
  lemma CleanTitleDefault(s: string)
    ensures CleanTitle(None) == EXTERNAL_RESOURCE
    ensures (forall i :: 0 <= i < |s| ==> IsJsSpace(s[i])) ==> CleanTitle(Some(s)) == EXTERNAL_RESOURCE
  {
    NoHttpInDefault();
    NoQuotesInDefault();
    TrimEmptyIffAllSpace(s);
    assert StripQuotes(EXTERNAL_RESOURCE) == EXTERNAL_RESOURCE;
  }

  /** The default is applied before the quotes are stripped, so a reply of
    * two quote marks gives the empty title. */
  lemma CleanTitleTwoQuotes()
    ensures CleanTitle(Some("\"\"")) == ""
  {
    var q := "\"\"";
    assert !IsJsSpace(q[0]) && !IsJsSpace(q[1]);
    assert TrimStart(q) == q;
    assert TrimEnd(q) == q;
    assert StripQuotes(q) == "";
  }

  /** A title that needs no cleaning comes through unchanged: the special
    * case of CleanTitleKeepsStrippedText where stripping removes nothing. */
  lemma CleanTitleKeepsCleanTitle(s: string)
    requires s != "" && Trim(s) == s
    requires s[0] != '"' && s[|s| - 1] != '"'
    requires !Contains(s, "http")
    ensures CleanTitle(Some(s)) == s
  {
    var r := StripQuotes(s);
    assert |r| == |s|;
    assert r == s[..|r|];
    assert r == s;
    CleanTitleKeepsStrippedText(Some(s));
  }

  /** What the title handler does with its payload. */
  function TitleOutcome(payload: Json, keys: KeySources, reply: GenReply, stack: string): HandlerOutcome {
    if !Truthy(Field(payload, "url")) then Fault(URL_REQUIRED, stack)
    else if GetApiKey(keys).Err? then Fault(GetApiKey(keys).error.message, stack)
    else match reply
      case GenFailed(message) => Rethrow(message, "Title resolution failed.", stack)
      case GenText(text) => Returned(JStr(CleanTitle(text)))
  }

  /** A title the handler returns is a string without "http"; it fails only
    * on a missing url, a missing key, or a failed model call. */
  lemma TitleOutcomeProperties(payload: Json, keys: KeySources, reply: GenReply, stack: string)
    ensures var o := TitleOutcome(payload, keys, reply, stack);
            && (o.Returned? ==> o.value.JStr? && !Contains(o.value.s, "http"))
            && (o.Threw? <==> !Truthy(Field(payload, "url")) || GetApiKey(keys).Err? || reply.GenFailed?)
            && (!Truthy(Field(payload, "url")) ==> o == Fault(URL_REQUIRED, stack))
  {
  }

  /** The `resolveWebPageTitle` handler. `consulted` says whether the model
    * was called. */
  method ResolveWebPageTitle(cache: ClientCache, keys: KeySources, payload: Json, reply: GenReply, stack: string)
    returns (o: HandlerOutcome, consulted: bool)
    requires cache.Valid()
    modifies cache
    ensures cache.Valid()
    ensures o == TitleOutcome(payload, keys, reply, stack)
    ensures consulted <==> Truthy(Field(payload, "url")) && GetApiKey(keys).Ok?
    ensures !Truthy(Field(payload, "url")) || GetApiKey(keys).Err? ==>
              cache.cachedKey == old(cache.cachedKey) && cache.cachedClient == old(cache.cachedClient)
    ensures Truthy(Field(payload, "url")) && GetApiKey(keys).Ok? ==> cache.cachedKey == Some(GetApiKey(keys).value)
  {
    var url := Field(payload, "url");
    if !Truthy(url) {
      return Fault(URL_REQUIRED, stack), false;
    }
    var client := cache.GetClient(keys);
    if client.Err? {
      return Fault(client.error.message, stack), false;
    }
    consulted := true;
    match reply
    case GenFailed(message) =>
      o := Rethrow(message, "Title resolution failed.", stack);
    case GenText(text) =>
      var title := CleanTitle(text);
      o := Returned(JStr(title));
  }

  // ---------------------------------------------------------------------------
  // generateSyllabus
  // ---------------------------------------------------------------------------

  function Min(a: nat, b: nat): nat {
    if a <= b then a else b
  }

  /** The syllabus result: the title is the model's if truthy, else the
    * topic; the sessions are the first seven of the model's array, or none
    * when it gave no array. Reading `title` of a null `data` throws. */
  function ShapeSyllabus(data: Json, topic: Json): (r: Result<Json, string>)
    ensures Nullish(data) <==> r.Err?
    ensures r.Err? ==> r.error == ReadError(data, "title")
    ensures r.Ok? ==>
              && (Truthy(Field(data, "title")) ==> Field(r.value, "title") == Field(data, "title"))
              && (!Truthy(Field(data, "title")) ==> Field(r.value, "title") == topic)
              && Field(r.value, "syllabus").JArr?
              && var sessions := Field(r.value, "syllabus").items;
              && (Field(data, "syllabus").JArr? ==>
                    var given := Field(data, "syllabus").items;
                    |sessions| == Min(7, |given|) && sessions == given[..|sessions|])
              && (!Field(data, "syllabus").JArr? ==> sessions == [])
  {
    if Nullish(data) then Err(ReadError(data, "title"))
    else
      var title := Field(data, "title");
      var syllabus := Field(data, "syllabus");
      Ok(JObj(map[
        "title" := if Truthy(title) then title else topic,
        "syllabus" := if syllabus.JArr? then JArr(syllabus.items[..Min(7, |syllabus.items|)]) else JArr([])
      ]))
  }

  /** What the syllabus handler does with its payload. */
  function SyllabusOutcome(payload: Json, keys: KeySources, reply: GenReply, parse: string -> Parsed,
                           stack: string): HandlerOutcome
  {
    var topic := Field(payload, "topic");
    if !Truthy(topic) then Fault(TOPIC_REQUIRED, stack)
    else if GetApiKey(keys).Err? then Fault(GetApiKey(keys).error.message, stack)
    else
      var failed := "Syllabus generation failed.";
      match reply
      case GenFailed(message) => Rethrow(message, failed, stack)
      case GenText(text) =>
        match ParseText(text, parse)
        case SyntaxError(message) => Rethrow(Some(message), failed, stack)
        case Parsed(data) =>
          match ShapeSyllabus(data, topic)
          case Err(message) => Rethrow(Some(message), failed, stack)
          case Ok(result) => Returned(result)
  }

  /** A syllabus the handler returns has at most seven sessions and a truthy
    * title. */
  lemma SyllabusOutcomeBounds(payload: Json, keys: KeySources, reply: GenReply, parse: string -> Parsed,
                              stack: string)
    ensures var o := SyllabusOutcome(payload, keys, reply, parse, stack);
            && (!Truthy(Field(payload, "topic")) ==> o == Fault(TOPIC_REQUIRED, stack))
            && (o.Returned? ==>
                  && Truthy(Field(o.value, "title"))
                  && Field(o.value, "syllabus").JArr?
                  && |Field(o.value, "syllabus").items| <= 7)
  {
    var topic := Field(payload, "topic");
    if Truthy(topic) && GetApiKey(keys).Ok? && reply.GenText? {
      var parsed := ParseText(reply.text, parse);
      if parsed.Parsed? {
        var shaped := ShapeSyllabus(parsed.value, topic);
        if shaped.Ok? {
          assert |Field(shaped.value, "syllabus").items| <= 7 by {
            var given := Field(parsed.value, "syllabus");
            if given.JArr? {
              assert |Field(shaped.value, "syllabus").items| == Min(7, |given.items|);
            }
          }
        }
      }
    }
  }

  /** The `generateSyllabus` handler. */
  method GenerateSyllabus(cache: ClientCache, keys: KeySources, payload: Json, reply: GenReply,
                          parse: string -> Parsed, stack: string)
    returns (o: HandlerOutcome, consulted: bool)
    requires cache.Valid()
    modifies cache
    ensures cache.Valid()
    ensures o == SyllabusOutcome(payload, keys, reply, parse, stack)
    ensures consulted <==> Truthy(Field(payload, "topic")) && GetApiKey(keys).Ok?
    ensures !Truthy(Field(payload, "topic")) || GetApiKey(keys).Err? ==>
              cache.cachedKey == old(cache.cachedKey) && cache.cachedClient == old(cache.cachedClient)
    ensures Truthy(Field(payload, "topic")) && GetApiKey(keys).Ok? ==> cache.cachedKey == Some(GetApiKey(keys).value)
  {
    var topic := Field(payload, "topic");
    if !Truthy(topic) {
      return Fault(TOPIC_REQUIRED, stack), false;
    }
    var client := cache.GetClient(keys);
    if client.Err? {
      return Fault(client.error.message, stack), false;
    }
    consulted := true;
    var failed := "Syllabus generation failed.";
    if reply.GenFailed? {
      return Rethrow(reply.message, failed, stack), true;
    }
    var parsed := ParseText(reply.text, parse);
    if parsed.SyntaxError? {
      return Rethrow(Some(parsed.message), failed, stack), true;
    }
    var shaped := ShapeSyllabus(parsed.value, topic);
    if shaped.Err? {
      return Rethrow(Some(shaped.error), failed, stack), true;
    }
    o := Returned(shaped.value);
  }

  // ---------------------------------------------------------------------------
  // performInitialScoping
  // ---------------------------------------------------------------------------

  /** A goal the user starts from: every model goal text becomes a selected,
    * "Useful" goal with a fresh id. */
  function ScopedGoal(id: string, text: Json): (g: Json)
    ensures Field(g, "id") == JStr(id) && Field(g, "text") == text
    ensures Truthy(Field(g, "isSelected")) && Field(g, "priority") == JStr("Useful")
  {
    JObj(map["id" := JStr(id), "text" := text, "isSelected" := JBool(true), "priority" := JStr("Useful")])
  }

  /** The scoping result: goals mapped one for one, complexity defaulting to
    * "Intermediate", and threshold concepts that are an array or none.
    * Reading `goals` of a null `data` throws. */
  function ShapeScoping(data: Json, uuid: nat -> string): (r: Result<Json, string>)
    ensures Nullish(data) <==> r.Err?
    ensures r.Err? ==> r.error == ReadError(data, "goals")
    ensures r.Ok? ==>
              && Field(r.value, "goals").JArr?
              && var goals := Field(r.value, "goals").items;
              && (Field(data, "goals").JArr? ==>
                    var texts := Field(data, "goals").items;
                    && |goals| == |texts|
                    && forall i :: 0 <= i < |goals| ==>
                         && Field(goals[i], "id") == JStr(uuid(i))
                         && Field(goals[i], "text") == texts[i]
                         && Field(goals[i], "isSelected") == JBool(true)
                         && Field(goals[i], "priority") == JStr("Useful"))
              && (!Field(data, "goals").JArr? ==> goals == [])
    ensures r.Ok? ==>
              && Field(r.value, "complexity") ==
                   (if Truthy(Field(data, "complexity")) then Field(data, "complexity") else JStr("Intermediate"))
              && Truthy(Field(r.value, "complexity"))
              && Field(r.value, "thresholdConcepts") ==
                   (if Field(data, "thresholdConcepts").JArr? then Field(data, "thresholdConcepts") else JArr([]))
  {
    if Nullish(data) then Err(ReadError(data, "goals"))
    else
      var goals := Field(data, "goals");
      var scoped := if goals.JArr? then seq(|goals.items|, i requires 0 <= i < |goals.items| => ScopedGoal(uuid(i), goals.items[i]))
                    else [];
      var complexity := Field(data, "complexity");
      var concepts := Field(data, "thresholdConcepts");
      Ok(JObj(map[
        "complexity" := if Truthy(complexity) then complexity else JStr("Intermediate"),
        "thresholdConcepts" := if concepts.JArr? then concepts else JArr([]),
        "goals" := JArr(scoped)
      ]))
  }

  /** What the scoping handler does with its payload. The session context
    * it builds reads `prefs.learningStyle` outside the `try`. */
  function ScopingOutcome(payload: Json, keys: KeySources, reply: GenReply, parse: string -> Parsed,
                          uuid: nat -> string, stack: string): HandlerOutcome
  {
    var topic := Field(payload, "topic");
    var prefs := Field(payload, "prefs");
    if !Truthy(topic) then Fault(TOPIC_REQUIRED, stack)
    else if GetApiKey(keys).Err? then Fault(GetApiKey(keys).error.message, stack)
    else if Nullish(prefs) then Fault(ReadError(prefs, "learningStyle"), stack)
    else
      var failed := "Initial scoping failed.";
      match reply
      case GenFailed(message) => Rethrow(message, failed, stack)
      case GenText(text) =>
        match ParseText(text, parse)
        case SyntaxError(message) => Rethrow(Some(message), failed, stack)
        case Parsed(data) =>
          match ShapeScoping(data, uuid)
          case Err(message) => Rethrow(Some(message), failed, stack)
          case Ok(result) => Returned(result)
  }

  /** A scoping the handler returns has goals that are all selected with
    * priority "Useful", a truthy complexity and an array of threshold
    * concepts. */
  lemma ScopingOutcomeShape(payload: Json, keys: KeySources, reply: GenReply, parse: string -> Parsed,
                            uuid: nat -> string, stack: string)
    ensures var o := ScopingOutcome(payload, keys, reply, parse, uuid, stack);
            o.Returned? ==>
              && Field(o.value, "goals").JArr?
              && (forall g :: g in Field(o.value, "goals").items ==>
                    Field(g, "isSelected") == JBool(true) && Field(g, "priority") == JStr("Useful"))
              && Truthy(Field(o.value, "complexity"))
              && Field(o.value, "thresholdConcepts").JArr?
  {
    var o := ScopingOutcome(payload, keys, reply, parse, uuid, stack);
    if o.Returned? {
      var parsed := ParseText(reply.text, parse);
      var shaped := ShapeScoping(parsed.value, uuid);
      assert o.value == shaped.value;
      var goals := Field(o.value, "goals").items;
      forall g | g in goals
        ensures Field(g, "isSelected") == JBool(true) && Field(g, "priority") == JStr("Useful")
      {
        var i :| 0 <= i < |goals| && goals[i] == g;
      }
    }
  }

  /** The `performInitialScoping` handler. */
  method PerformInitialScoping(cache: ClientCache, keys: KeySources, payload: Json, reply: GenReply,
                               parse: string -> Parsed, uuid: nat -> string, stack: string)
    returns (o: HandlerOutcome, consulted: bool)
    requires cache.Valid()
    modifies cache
    ensures cache.Valid()
    ensures o == ScopingOutcome(payload, keys, reply, parse, uuid, stack)
    ensures consulted <==> Truthy(Field(payload, "topic")) && GetApiKey(keys).Ok? && !Nullish(Field(payload, "prefs"))
    ensures !Truthy(Field(payload, "topic")) || GetApiKey(keys).Err? ==>
              cache.cachedKey == old(cache.cachedKey) && cache.cachedClient == old(cache.cachedClient)
    ensures Truthy(Field(payload, "topic")) && GetApiKey(keys).Ok? ==> cache.cachedKey == Some(GetApiKey(keys).value)
  {
    var topic := Field(payload, "topic");
    var prefs := Field(payload, "prefs");
    if !Truthy(topic) {
      return Fault(TOPIC_REQUIRED, stack), false;
    }
    var client := cache.GetClient(keys);
    if client.Err? {
      return Fault(client.error.message, stack), false;
    }
    if Nullish(prefs) {
      return Fault(ReadError(prefs, "learningStyle"), stack), false;
    }
    consulted := true;
    var failed := "Initial scoping failed.";
    if reply.GenFailed? {
      return Rethrow(reply.message, failed, stack), true;
    }
    var parsed := ParseText(reply.text, parse);
    if parsed.SyntaxError? {
      return Rethrow(Some(parsed.message), failed, stack), true;
    }
    var shaped := ShapeScoping(parsed.value, uuid);
    if shaped.Err? {
      return Rethrow(Some(shaped.error), failed, stack), true;
    }
    o := Returned(shaped.value);
  }

  // ---------------------------------------------------------------------------
  // generateSprintContent
  // ---------------------------------------------------------------------------

  /** `goal.isSelected`, as the filter tests it. */
  predicate Selected(goal: Json) {
    Truthy(Field(goal, "isSelected"))
  }

  /** `goals.filter(goal => goal.isSelected)`: the selected goals in their
    * order; reading `isSelected` of a null goal throws. */
  function SelectGoals(goals: seq<Json>): (r: Result<seq<Json>, string>)
    ensures r.Err? <==> exists i :: 0 <= i < |goals| && Nullish(goals[i])
    ensures r.Ok? ==> |r.value| <= |goals|
    ensures r.Ok? ==> forall g :: g in r.value <==> g in goals && Selected(g)
    decreases |goals|
  {
    if goals == [] then Ok([])
    else if Nullish(goals[0]) then Err(ReadError(goals[0], "isSelected"))
    else
      match SelectGoals(goals[1..])
      case Err(message) => Err(message)
      case Ok(rest) =>
        assert forall g :: g in goals <==> g == goals[0] || g in goals[1..];
        assert forall i :: 0 < i < |goals| ==> goals[i] == goals[1..][i - 1];
        Ok(if Selected(goals[0]) then [goals[0]] + rest else rest)
  }

  /** Filtering distributes over concatenation, so the selected goals keep
    * their relative order. */
  lemma {:induction false} SelectGoalsAppend(a: seq<Json>, b: seq<Json>)
    requires SelectGoals(a).Ok? && SelectGoals(b).Ok?
    ensures SelectGoals(a + b) == Ok(SelectGoals(a).value + SelectGoals(b).value)
    decreases |a|
  {
    if a == [] {
      assert a + b == b;
      assert SelectGoals(a) == Ok([]);
      assert [] + SelectGoals(b).value == SelectGoals(b).value;
    } else {
      assert (a + b)[0] == a[0];
      assert (a + b)[1..] == a[1..] + b;
      assert !Nullish(a[0]);
      assert SelectGoals(a[1..]).Ok? by {
        forall i | 0 <= i < |a[1..]|
          ensures !Nullish(a[1..][i])
        {
          assert a[1..][i] == a[i + 1];
        }
      }
      SelectGoalsAppend(a[1..], b);
      var tail := SelectGoals(a[1..]).value;
      assert SelectGoals(a[1..]) == Ok(tail);
      assert SelectGoals(a[1..] + b) == Ok(tail + SelectGoals(b).value);
      if Selected(a[0]) {
        assert SelectGoals(a) == Ok([a[0]] + tail);
        assert SelectGoals(a + b) == Ok([a[0]] + (tail + SelectGoals(b).value));
        assert [a[0]] + (tail + SelectGoals(b).value) == ([a[0]] + tail) + SelectGoals(b).value;
        assert SelectGoals(a).value == [a[0]] + tail;
        assert SelectGoals(a + b) == Ok(SelectGoals(a).value + SelectGoals(b).value);
      } else {
        assert SelectGoals(a) == Ok(tail);
        assert SelectGoals(a + b) == Ok(tail + SelectGoals(b).value);
      }
    }
  }

  /** One line of the goal context: `- [<priority>] <text>`. */
  function GoalLine(goal: Json): string {
    "- [" + ToJsString(Field(goal, "priority")) + "] " + ToJsString(Field(goal, "text"))
  }

  /** The goal context: one line per selected goal, joined with newlines. */
  function GoalContext(selected: seq<Json>): string {
    Join(seq(|selected|, i requires 0 <= i < |selected| => GoalLine(selected[i])), "\n")
  }

  /** The context is empty exactly when no goal is selected, and whenever no
    * goal's priority or text holds a newline it splits back into exactly
    * one line per selected goal, in order. */
  lemma GoalContextLines(selected: seq<Json>)
    ensures GoalContext(selected) == "" <==> selected == []
    ensures selected != [] &&
            (forall i :: 0 <= i < |selected| ==> '\n' !in GoalLine(selected[i])) ==>
              SplitOn(GoalContext(selected), '\n') == seq(|selected|, i requires 0 <= i < |selected| => GoalLine(selected[i]))
  {
    var lines := seq(|selected|, i requires 0 <= i < |selected| => GoalLine(selected[i]));
    if selected != [] {
      JoinStartsWith(lines, "\n", GoalLine(selected[0]));
      if forall i :: 0 <= i < |selected| ==> '\n' !in GoalLine(selected[i]) {
        SplitJoin(lines, '\n');
      }
    }
  }

  /** A join of at least one part starts with its first part. */
  lemma JoinStartsWith(parts: seq<string>, sep: string, first: string)
    requires |parts| >= 1 && parts[0] == first
    ensures |Join(parts, sep)| >= |first| && Join(parts, sep)[..|first|] == first
  {
    if |parts| > 1 {
      assert Join(parts, sep) == first + (sep + Join(parts[1..], sep));
    }
  }

  /** `(scopingData.goals || [])`, the array `filter` runs on. */
  function GoalList(scopingData: Json): (r: Result<seq<Json>, string>)
    ensures r.Err? <==> Nullish(scopingData) || (Truthy(Field(scopingData, "goals")) && !Field(scopingData, "goals").JArr?)
    ensures Nullish(scopingData) ==> r == Err(ReadError(scopingData, "goals"))
    ensures !Nullish(scopingData) && !Truthy(Field(scopingData, "goals")) ==> r == Ok([])
    ensures r.Ok? && r.value != [] ==> Field(scopingData, "goals") == JArr(r.value)
  {
    if Nullish(scopingData) then Err(ReadError(scopingData, "goals"))
    else
      var goals := Field(scopingData, "goals");
      var list := if Truthy(goals) then goals else JArr([]);
      if list.JArr? then Ok(list.items) else Err("(scopingData.goals || []).filter is not a function")
  }

  /** The later reads of the prompt template, in order: `priming.relevance`,
    * `prefs.complexityPreference` and `scopingData.thresholdConcepts.join`;
    * the message of the first that throws. */
  function TemplateError(payload: Json, scopingData: Json): Option<string> {
    var priming := Field(payload, "priming");
    var prefs := Field(payload, "prefs");
    var concepts := Field(scopingData, "thresholdConcepts");
    if Nullish(priming) then Some(ReadError(priming, "relevance"))
    else if Nullish(prefs) then Some(ReadError(prefs, "complexityPreference"))
    else if Nullish(concepts) then Some(ReadError(concepts, "join"))
    else if !concepts.JArr? then Some("scopingData.thresholdConcepts.join is not a function")
    else None
  }

  /** What the sprint prompt does before the `try`: it yields the goal
    * context, or the TypeError the first bad read throws. */
  function SprintContext(payload: Json): Result<string, string> {
    var scopingData := Field(payload, "scopingData");
    match GoalList(scopingData)
    case Err(message) => Err(message)
    case Ok(goals) =>
      match SelectGoals(goals)
      case Err(message) => Err(message)
      case Ok(selected) =>
        match TemplateError(payload, scopingData)
        case Some(message) => Err(message)
        case None => Ok(GoalContext(selected))
  }

  /** With well-formed scoping data, the context the model sees is the
    * formatted list of exactly the selected goals. */
  lemma SprintContextSelected(payload: Json, goals: seq<Json>)
    requires Field(payload, "scopingData").JObj?
    requires Field(Field(payload, "scopingData"), "goals") == JArr(goals)
    requires forall i :: 0 <= i < |goals| ==> !Nullish(goals[i])
    requires !Nullish(Field(payload, "priming")) && !Nullish(Field(payload, "prefs"))
    requires Field(Field(payload, "scopingData"), "thresholdConcepts").JArr?
    ensures SelectGoals(goals).Ok?
    ensures SprintContext(payload) == Ok(GoalContext(SelectGoals(goals).value))
  {
    var scopingData := Field(payload, "scopingData");
    GoalListOfArray(scopingData, goals);
    assert !exists i :: 0 <= i < |goals| && Nullish(goals[i]);
    NoTemplateError(payload, scopingData);
    SprintContextOfParts(payload, goals, SelectGoals(goals).value);
  }

  lemma NoTemplateError(payload: Json, scopingData: Json)
    requires !Nullish(Field(payload, "priming")) && !Nullish(Field(payload, "prefs"))
    requires Field(scopingData, "thresholdConcepts").JArr?
    ensures TemplateError(payload, scopingData) == None
  {
  }

  lemma SprintContextOfParts(payload: Json, goals: seq<Json>, selected: seq<Json>)
    requires GoalList(Field(payload, "scopingData")) == Ok(goals)
    requires SelectGoals(goals) == Ok(selected)
    requires TemplateError(payload, Field(payload, "scopingData")) == None
    ensures SprintContext(payload) == Ok(GoalContext(selected))
  {
  }

  lemma GoalListOfArray(scopingData: Json, goals: seq<Json>)
    requires scopingData.JObj? && Field(scopingData, "goals") == JArr(goals)
    ensures GoalList(scopingData) == Ok(goals)
  {
  }

  /** `{...data}`: the own enumerable properties of the parsed value; an
    * array or a string spreads its indexes. */
  function Spread(data: Json): map<string, Json> {
    DecimalInjective();
    match data
    case JObj(fields) => fields
    case JArr(items) => map i: nat | i < |items| :: NatToDecimal(i) := items[i]
    case JStr(s) => map i: nat | i < |s| :: NatToDecimal(i) := JStr([s[i]])
    case _ => map[]
  }

  /** Distinct indexes have distinct decimal names. */
  lemma DecimalInjective()
    ensures forall a: nat, b: nat :: NatToDecimal(a) == NatToDecimal(b) ==> a == b
  {
    forall a: nat, b: nat | NatToDecimal(a) == NatToDecimal(b)
      ensures a == b
    {
      DecimalRoundTrip(a);
      DecimalRoundTrip(b);
    }
  }

  /** The sprint result: every property of `data` except `id` and
    * `duration` passes through unchanged; `id` gets `freshId` and
    * `duration` 10 when the model's are falsy. Spreading null is harmless,
    * but reading its `id` then throws. */
  function ShapeSprint(data: Json, freshId: string): (r: Result<Json, string>)
    ensures Nullish(data) <==> r.Err?
    ensures r.Err? ==> r.error == ReadError(data, "id")
    ensures r.Ok? ==>
              && r.value.JObj?
              && r.value.fields.Keys == Spread(data).Keys + {"id", "duration"}
              && (forall k :: k in Spread(data) && k != "id" && k != "duration" ==> r.value.fields[k] == Spread(data)[k])
              && Field(r.value, "id") == (if Truthy(Field(data, "id")) then Field(data, "id") else JStr(freshId))
              && Field(r.value, "duration") == (if Truthy(Field(data, "duration")) then Field(data, "duration") else JNum(10))
  {
    if Nullish(data) then Err(ReadError(data, "id"))
    else
      var id := Field(data, "id");
      var duration := Field(data, "duration");
      Ok(JObj(Spread(data)["id" := if Truthy(id) then id else JStr(freshId)]
                          ["duration" := if Truthy(duration) then duration else JNum(10)]))
  }

  /** A sprint the handler returns always has a truthy id and duration. */
  lemma ShapeSprintDefaults(data: Json, freshId: string)
    requires freshId != ""
    ensures var r := ShapeSprint(data, freshId);
            r.Ok? ==> Truthy(Field(r.value, "id")) && Truthy(Field(r.value, "duration"))
  {
  }

  /** What the sprint handler does with its payload; `generate` is the
    * model, shown the goal context. */
  function SprintOutcome(payload: Json, keys: KeySources, generate: string -> GenReply,
                         parse: string -> Parsed, freshId: string, stack: string): HandlerOutcome
  {
    if !Truthy(Field(payload, "topic")) then Fault(TOPIC_REQUIRED, stack)
    else if GetApiKey(keys).Err? then Fault(GetApiKey(keys).error.message, stack)
    else match SprintContext(payload)
      case Err(message) => Fault(message, stack)
      case Ok(context) =>
        var failed := "Sprint generation failed.";
        match generate(context)
        case GenFailed(message) => Rethrow(message, failed, stack)
        case GenText(text) =>
          match ParseText(text, parse)
          case SyntaxError(message) => Rethrow(Some(message), failed, stack)
          case Parsed(data) =>
            match ShapeSprint(data, freshId)
            case Err(message) => Rethrow(Some(message), failed, stack)
            case Ok(result) => Returned(result)
  }

  /** A sprint the handler returns is an object with a truthy id and a
    * truthy duration. */
  lemma SprintOutcomeShape(payload: Json, keys: KeySources, generate: string -> GenReply,
                           parse: string -> Parsed, freshId: string, stack: string)
    requires freshId != ""
    ensures var o := SprintOutcome(payload, keys, generate, parse, freshId, stack);
            o.Returned? ==> o.value.JObj? && Truthy(Field(o.value, "id")) && Truthy(Field(o.value, "duration"))
  {
    var o := SprintOutcome(payload, keys, generate, parse, freshId, stack);
    if o.Returned? {
      var context := SprintContext(payload).value;
      var parsed := ParseText(generate(context).text, parse);
      ShapeSprintDefaults(parsed.value, freshId);
      assert o.value == ShapeSprint(parsed.value, freshId).value;
    }
  }

  /** The `generateSprintContent` handler. */
  method GenerateSprintContent(cache: ClientCache, keys: KeySources, payload: Json,
                               generate: string -> GenReply, parse: string -> Parsed,
                               freshId: string, stack: string)
    returns (o: HandlerOutcome, consulted: bool)
    requires cache.Valid()
    modifies cache
    ensures cache.Valid()
    ensures o == SprintOutcome(payload, keys, generate, parse, freshId, stack)
    ensures consulted <==> Truthy(Field(payload, "topic")) && GetApiKey(keys).Ok? && SprintContext(payload).Ok?
    ensures !Truthy(Field(payload, "topic")) || GetApiKey(keys).Err? ==>
              cache.cachedKey == old(cache.cachedKey) && cache.cachedClient == old(cache.cachedClient)
    ensures Truthy(Field(payload, "topic")) && GetApiKey(keys).Ok? ==> cache.cachedKey == Some(GetApiKey(keys).value)
  {
    if !Truthy(Field(payload, "topic")) {
      return Fault(TOPIC_REQUIRED, stack), false;
    }
    var client := cache.GetClient(keys);
    if client.Err? {
      return Fault(client.error.message, stack), false;
    }
    var context := SprintContext(payload);
    if context.Err? {
      return Fault(context.error, stack), false;
    }
    consulted := true;
    var failed := "Sprint generation failed.";
    var reply := generate(context.value);
    if reply.GenFailed? {
      return Rethrow(reply.message, failed, stack), true;
    }
    var parsed := ParseText(reply.text, parse);
    if parsed.SyntaxError? {
      return Rethrow(Some(parsed.message), failed, stack), true;
    }
    var shaped := ShapeSprint(parsed.value, freshId);
    if shaped.Err? {
      return Rethrow(Some(shaped.error), failed, stack), true;
    }
    o := Returned(shaped.value);
  }

  /** Every handler throws "`<field>` is required." when its required field
    * is missing or empty, before anything else happens. */
  lemma RequiredFieldFirst(payload: Json, keys: KeySources, reply: GenReply, generate: string -> GenReply,
                           parse: string -> Parsed, uuid: nat -> string, freshId: string, stack: string)
    ensures !Truthy(Field(payload, "url")) ==> TitleOutcome(payload, keys, reply, stack) == Fault(URL_REQUIRED, stack)
    ensures !Truthy(Field(payload, "topic")) ==>
              && SyllabusOutcome(payload, keys, reply, parse, stack) == Fault(TOPIC_REQUIRED, stack)
              && ScopingOutcome(payload, keys, reply, parse, uuid, stack) == Fault(TOPIC_REQUIRED, stack)
              && SprintOutcome(payload, keys, generate, parse, freshId, stack) == Fault(TOPIC_REQUIRED, stack)
    ensures Truthy(Field(payload, "url")) && GetApiKey(keys).Err? ==>
              TitleOutcome(payload, keys, reply, stack) == Fault(MISSING_KEY, stack)
    ensures Truthy(Field(payload, "topic")) && GetApiKey(keys).Err? ==>
              && SyllabusOutcome(payload, keys, reply, parse, stack) == Fault(MISSING_KEY, stack)
              && ScopingOutcome(payload, keys, reply, parse, uuid, stack) == Fault(MISSING_KEY, stack)
              && SprintOutcome(payload, keys, generate, parse, freshId, stack) == Fault(MISSING_KEY, stack)
  {
  }
}
