/**
 * The browser-side request dispatcher (`services/geminiService.ts`): where
 * requests go (base URL, mock mode), the in-browser mock handlers, the
 * logging sink, and `callFunction`'s fallback chain.
 *
 * The network, `JSON.parse`, `new URL(..).hostname` and `Date.now()` are
 * inputs: `net(i, url)` is what the i-th fetch of a call (counting from 0)
 * gets from `url`, `parse` is JSON.parse, `hostname` yields the host name of
 * a URL or None when `new URL` throws, and `now` is the clock reading.
 */
module GeminiService {
  import opened Wrappers
  import opened Text
  import opened Js

  // ---------------------------------------------------------------------------
  // Configuration
  // ---------------------------------------------------------------------------

  /** The build-time environment `import.meta.env`; an unset variable is None. */
  datatype ClientEnv = ClientEnv(
    baseUrl: Option<string>,   // VITE_FUNCTIONS_BASE_URL
    origin: Option<string>,    // VITE_FUNCTIONS_ORIGIN
    emulator: Option<string>,  // VITE_FUNCTIONS_EMULATOR
    project: Option<string>,   // VITE_FUNCTIONS_PROJECT
    useMock: Option<string>)   // VITE_USE_MOCK_FUNCTIONS

  const DEFAULT_BASE := "/api"
  const EMULATOR_ORIGIN := "http://127.0.0.1:5001/"
  const REGION := "us-central1"
  const EXTERNAL_RESOURCE := "External Resource"
  const TITLE_OPERATION := "resolveWebPageTitle"

  /** `getBase`: the base URL override if set, else the functions origin,
    * each with one trailing slash removed; `/api` when neither is set. */
  function GetBase(env: ClientEnv): (r: string)
    ensures Present(env.baseUrl) ==> r == StripTrailingSlash(env.baseUrl.value)
    ensures !Present(env.baseUrl) && Present(env.origin) ==> r == StripTrailingSlash(env.origin.value)
    ensures !Present(env.baseUrl) && !Present(env.origin) ==> r == DEFAULT_BASE
  {
    var v := if Present(env.baseUrl) then env.baseUrl else env.origin;
    if Present(v) then StripTrailingSlash(v.value) else DEFAULT_BASE
  }

  /** `USE_MOCK_FUNCTIONS`: asked for explicitly, or nothing that names a
    * live backend is configured. */
  predicate UseMock(env: ClientEnv) {
    || env.useMock == Some("true")
    || (!Present(env.baseUrl) && !Present(env.origin) && !Present(env.emulator) && !Present(env.project))
  }

  /** Live mode means the mock switch is not "true" and some backend setting
    * is present; with neither base setting the requests go to `/api`. */
  lemma LiveModeIsConfigured(env: ClientEnv)
    requires !UseMock(env)
    ensures env.useMock != Some("true")
    ensures Present(env.baseUrl) || Present(env.origin) || Present(env.emulator) || Present(env.project)
    ensures !Present(env.baseUrl) && !Present(env.origin) ==>
              GetBase(env) == DEFAULT_BASE && (Present(env.emulator) || Present(env.project))
  {
  }

  /** The base that a transport error falls back to: the emulator origin with
    * one trailing slash removed takes precedence over the local emulator URL
    * built from the project id. None when neither is set, and also when the
    * emulator setting is just "/", which strips to the falsy "". */
  function FallbackBase(env: ClientEnv): (r: Option<string>)
    ensures r.Some? ==> r.value != ""
    ensures r.None? <==> env.emulator == Some("/") || (!Present(env.emulator) && !Present(env.project))
    ensures Present(env.emulator) && env.emulator != Some("/") ==>
              r == Some(StripTrailingSlash(env.emulator.value))
    ensures !Present(env.emulator) && Present(env.project) ==>
              r == Some(EMULATOR_ORIGIN + env.project.value + "/" + REGION)
  {
    if Present(env.emulator) then
      var b := StripTrailingSlash(env.emulator.value);
      if b == "" then None else Some(b)
    else if Present(env.project) then
      Some(EMULATOR_ORIGIN + env.project.value + "/" + REGION)
    else
      None
  }

  /** The primary URL: the base with one more trailing slash removed, then
    * the function name. (The `://` replacement in the source is the identity.) */
  function PrimaryUrl(env: ClientEnv, name: string): string {
    StripTrailingSlash(GetBase(env)) + "/" + name
  }

  /** The hosting-style URL tried after a 404. */
  function HostingUrl(name: string): string {
    "/api/" + name
  }

  /** `getBase` removes exactly one trailing slash ("a//" gives "a/"), and
    * `callFunction` removes one more before appending the name. */
  lemma TrailingSlashes(name: string)
    ensures GetBase(ClientEnv(Some("a//"), None, None, None, None)) == "a/"
    ensures PrimaryUrl(ClientEnv(Some("a//"), None, None, None, None), name) == "a/" + name
  {
    assert StripTrailingSlash("a//") == "a/";
    assert StripTrailingSlash("a/") == "a";
  }

  /** With the default base, the hosting-style fallback URL is the primary
    * URL itself: the fallbacks need not target different URLs. */
  lemma DefaultBaseHostingUrlIsPrimary(env: ClientEnv, name: string)
    requires GetBase(env) == DEFAULT_BASE
    ensures PrimaryUrl(env, name) == HostingUrl(name)
  {
    assert StripTrailingSlash(DEFAULT_BASE) == DEFAULT_BASE;
  }

  // ---------------------------------------------------------------------------
  // The mock handler table
  // ---------------------------------------------------------------------------

  /** The names the mock table has a handler for. */
  const OPERATIONS: set<string> :=
    {"resolveWebPageTitle", "generateSyllabus", "performInitialScoping", "generateSprintContent"}

  const MOCK_TITLE_SUFFIX := " \U{2014} Example Title"

  /** `payload?.topic || 'Topic'`. */
  function TopicValue(payload: map<string, Json>): Json {
    var t := Member(payload, "topic");
    if Truthy(t) then t else JStr("Topic")
  }

  /** The topic as template interpolation shows it. */
  function TopicText(payload: map<string, Json>): string {
    ToJsString(TopicValue(payload))
  }

  /** Mock `resolveWebPageTitle`: the URL's host name without a leading
    * "www.", followed by a fixed suffix; "External Resource" when the url is
    * missing or `new URL` rejects it. */
  function MockTitle(payload: map<string, Json>, hostname: string -> Option<string>): (r: string)
    ensures !Truthy(Member(payload, "url")) ==> r == EXTERNAL_RESOURCE
    ensures Truthy(Member(payload, "url")) && hostname(ToJsString(Member(payload, "url"))).None? ==>
              r == EXTERNAL_RESOURCE
    ensures Truthy(Member(payload, "url")) && hostname(ToJsString(Member(payload, "url"))).Some? ==>
              var host := hostname(ToJsString(Member(payload, "url"))).value;
              r == StripPrefix(host, "www.") + MOCK_TITLE_SUFFIX
  {
    var url := Member(payload, "url");
    if !Truthy(url) then EXTERNAL_RESOURCE
    else match hostname(ToJsString(url))
      case None => EXTERNAL_RESOURCE
      case Some(host) => StripPrefix(host, "www.") + MOCK_TITLE_SUFFIX
  }

  /** The mock title does not always avoid "http": a host name may contain it. */
  lemma MockTitleCanContainHttp()
    ensures Contains(MockTitle(map["url" := JStr("https://httpbin.org/get")],
                               (u: string) => Some("httpbin.org")), "http")
  {
    var t := MockTitle(map["url" := JStr("https://httpbin.org/get")], (u: string) => Some("httpbin.org"));
    assert "httpbin.org"[..4] != "www." by { assert "httpbin.org"[..4][0] == 'h'; }
    assert t[..4] == "http";
  }

  const SESSION_TITLES: seq<string> := [
    "Foundations & Core Principles",
    "Mechanisms & Deep Dive I",
    "Mechanisms & Deep Dive II",
    "Applications & Synthesis I",
    "Applications & Synthesis II",
    "Advanced Topics & Edge Cases",
    "Mastery & Integration"
  ]

  /** Mock `generateSyllabus`: "<topic> Mastery" and exactly seven sessions. */
  function MockSyllabus(payload: map<string, Json>): (r: Json)
    ensures r.JObj?
    ensures Field(r, "title") == JStr(TopicText(payload) + " Mastery")
    ensures Field(r, "syllabus").JArr? && |Field(r, "syllabus").items| == 7
    ensures forall i :: 0 <= i < |Field(r, "syllabus").items| ==>
              Field(r, "syllabus").items[i] == JStr(SESSION_TITLES[i])
  {
    JObj(map[
      "title" := JStr(TopicText(payload) + " Mastery"),
      "syllabus" := JArr(seq(7, i requires 0 <= i < 7 => JStr(SESSION_TITLES[i])))
    ])
  }

  /** The i-th (from 0) mock scoping goal. */
  function MockGoal(topic: string, i: nat): Json {
    JObj(map[
      "id" := JStr("g" + NatToDecimal(i + 1)),
      "text" := JStr("Goal " + NatToDecimal(i + 1) + " for " + topic),
      "isSelected" := JBool(true),
      "priority" := JStr("Useful")
    ])
  }

  const MOCK_CONCEPTS: seq<string> :=
    ["Concept A", "Concept B", "Concept C", "Concept D", "Concept E", "Concept F", "Concept G", "Concept H"]

  /** Mock `performInitialScoping`: complexity "Intermediate", eight threshold
    * concepts and five goals g1..g5, each selected with priority "Useful". */
  function MockScoping(payload: map<string, Json>): (r: Json)
    ensures r.JObj?
    ensures Field(r, "complexity") == JStr("Intermediate")
    ensures Field(r, "thresholdConcepts").JArr? && |Field(r, "thresholdConcepts").items| == 8
    ensures Field(r, "goals").JArr? && |Field(r, "goals").items| == 5
    ensures forall i :: 0 <= i < |Field(r, "goals").items| ==>
              var g := Field(r, "goals").items[i];
              && Field(g, "id") == JStr("g" + NatToDecimal(i + 1))
              && Field(g, "text") == JStr("Goal " + NatToDecimal(i + 1) + " for " + TopicText(payload))
              && Field(g, "isSelected") == JBool(true)
              && Field(g, "priority") == JStr("Useful")
  {
    var topic := TopicText(payload);
    JObj(map[
      "complexity" := JStr("Intermediate"),
      "thresholdConcepts" := JArr(seq(8, i requires 0 <= i < 8 => JStr(MOCK_CONCEPTS[i]))),
      "goals" := JArr(seq(5, i requires 0 <= i < 5 => MockGoal(topic, i)))
    ])
  }

  function MockSection(title: string, content: string, keyword: Json, interaction: string): Json {
    JObj(map[
      "title" := JStr(title),
      "content" := JStr(content),
      "imageKeyword" := keyword,
      "interactionType" := JStr(interaction)
    ])
  }

  function MockQuizItem(id: string, question: string, options: seq<string>, correct: nat): Json {
    JObj(map[
      "id" := JStr(id),
      "question" := JStr(question),
      "explanation" := JStr("Because..."),
      "correctIndex" := JNum(correct),
      "options" := JArr(seq(|options|, i requires 0 <= i < |options| => JStr(options[i])))
    ])
  }

  function MockWordPair(i: nat): Json {
    JObj(map["a" := JStr("Term" + NatToDecimal(i + 1)), "b" := JStr("Def" + NatToDecimal(i + 1))])
  }

  /** `payload?.scopingData?.thresholdConcepts || ['Concept A', 'Concept B']`. */
  function MockSprintConcepts(payload: map<string, Json>): Json {
    var given := Field(Member(payload, "scopingData"), "thresholdConcepts");
    if Truthy(given) then given else JArr([JStr("Concept A"), JStr("Concept B")])
  }

  /** Mock `generateSprintContent`: id "mock-<now>", duration 10, eight word
    * pairs, and two quiz items whose correct index is one of their options. */
  function MockSprint(payload: map<string, Json>, now: nat): (r: Json)
    ensures r.JObj?
    ensures Field(r, "id") == JStr("mock-" + NatToDecimal(now))
    ensures Field(r, "duration") == JNum(10)
    ensures Field(r, "thresholdConcepts") == MockSprintConcepts(payload)
    ensures Field(r, "wordPairs").JArr? && |Field(r, "wordPairs").items| == 8
    ensures Field(r, "quiz").JArr? && |Field(r, "quiz").items| == 2
    ensures forall i :: 0 <= i < |Field(r, "quiz").items| ==>
              var q := Field(r, "quiz").items[i];
              && Field(q, "options").JArr?
              && Field(q, "correctIndex").JNum?
              && 0 <= Field(q, "correctIndex").n < |Field(q, "options").items|
  {
    var topic := TopicValue(payload);
    var text := TopicText(payload);
    JObj(map[
      "title" := JStr(text + ": Quick Unit"),
      "complexity" := JStr("Intermediate"),
      "motivatingStatement" := JStr("This short unit makes " + text + " relevant and actionable."),
      "smartGoals" := JArr([JStr("Understand core concept"), JStr("Apply in a simple example")]),
      "sections" := JArr([
        MockSection("Overview", "Quick overview content.", topic, "READ"),
        MockSection("Practice", "Short practice activity.", topic, "REFLECTION")
      ]),
      "thresholdConcepts" := MockSprintConcepts(payload),
      "wordPairs" := JArr(seq(8, i requires 0 <= i < 8 => MockWordPair(i))),
      "duration" := JNum(10),
      "id" := JStr("mock-" + NatToDecimal(now)),
      "quiz" := JArr([
        MockQuizItem("q1", "Sample question?", ["A", "B", "C"], 0),
        MockQuizItem("q2", "Another?", ["A", "B"], 1)
      ])
    ])
  }

  /** `mockHandlers[name]`: a handler exactly for the four operation names. */
  function MockHandler(name: string, payload: map<string, Json>, hostname: string -> Option<string>, now: nat): (r: Option<Json>)
    ensures r.Some? <==> name in OPERATIONS
    ensures name == TITLE_OPERATION ==> r == Some(JStr(MockTitle(payload, hostname)))
    ensures name == "generateSyllabus" ==> r == Some(MockSyllabus(payload))
    ensures name == "performInitialScoping" ==> r == Some(MockScoping(payload))
    ensures name == "generateSprintContent" ==> r == Some(MockSprint(payload, now))
  {
    if name == TITLE_OPERATION then Some(JStr(MockTitle(payload, hostname)))
    else if name == "generateSyllabus" then Some(MockSyllabus(payload))
    else if name == "performInitialScoping" then Some(MockScoping(payload))
    else if name == "generateSprintContent" then Some(MockSprint(payload, now))
    else None
  }

  /** How a call settles: the promise resolves to a value or rejects with an error. */
  datatype Outcome = Resolved(value: Json) | Rejected(error: JsError)

  /** Mock dispatch: the handler's result, or an error naming the function. */
  function MockOutcome(name: string, payload: map<string, Json>, hostname: string -> Option<string>, now: nat): (r: Outcome)
    ensures name !in OPERATIONS ==> r == Rejected(Raise("No mock handler for function " + name))
    ensures name in OPERATIONS ==> r == Resolved(MockHandler(name, payload, hostname, now).value)
  {
    match MockHandler(name, payload, hostname, now)
    case Some(v) => Resolved(v)
    case None => Rejected(Raise("No mock handler for function " + name))
  }

  // ---------------------------------------------------------------------------
  // Logging
  // ---------------------------------------------------------------------------

  datatype LogKind = Info | Request | Response | Error | State

  datatype LogEntry = LogEntry(kind: LogKind, message: string)

  /** An installed callback, by identity. */
  type CallbackId = nat

  /** Where one log call went: the installed callback, or the console. */
  datatype Sink = Callback(id: CallbackId) | ConsoleLog | ConsoleError

  datatype Delivery = Delivery(sink: Sink, entry: LogEntry)

  /** `log`: to the callback when one is installed (anything it throws is
    * swallowed), otherwise `console.error` for errors and `console.log` for
    * the rest. */
  function Route(callback: Option<CallbackId>, e: LogEntry): (d: Delivery)
    ensures d.entry == e
    ensures callback.Some? ==> d.sink == Callback(callback.value)
    ensures callback.None? && e.kind == Error ==> d.sink == ConsoleError
    ensures callback.None? && e.kind != Error ==> d.sink == ConsoleLog
  {
    match callback
    case Some(id) => Delivery(Callback(id), e)
    case None => Delivery(if e.kind == Error then ConsoleError else ConsoleLog, e)
  }

  function Deliveries(callback: Option<CallbackId>, es: seq<LogEntry>): seq<Delivery> {
    seq(|es|, i requires 0 <= i < |es| => Route(callback, es[i]))
  }

  /** The module-level `logger` and the log calls made through it. */
  class Logger {
    /** The installed callback; None is `null`. */
    var callback: Option<CallbackId>
    /** Every log call so far, with where it went. */
    ghost var delivered: seq<Delivery>

    constructor ()
      ensures callback == None && delivered == []
    {
      callback := None;
      delivered := [];
    }

    /** `setLogger(cb)`: installs or (with None) removes the callback. */
    method SetLogger(cb: Option<CallbackId>)
      modifies this
      ensures callback == cb && delivered == old(delivered)
    {
      callback := cb;
    }

    /** `log(type, message)`: always returns normally. */
    method Log(kind: LogKind, message: string)
      modifies this
      ensures callback == old(callback)
      ensures delivered == old(delivered) + [Route(callback, LogEntry(kind, message))]
    {
      delivered := delivered + [Route(callback, LogEntry(kind, message))];
    }
  }

  // ---------------------------------------------------------------------------
  // callFunction
  // ---------------------------------------------------------------------------

  /** What one fetch gets: a transport error, or a status with its body text. */
  datatype Reply = NetFailure(error: JsError) | Answered(status: nat, body: string)

  /** `res.ok`. */
  predicate IsOk(status: nat) {
    200 <= status <= 299
  }

  datatype Stage = Primary | NetworkFallback | HostingFallback

  function Rank(s: Stage): nat {
    match s
    case Primary => 0
    case NetworkFallback => 1
    case HostingFallback => 2
  }

  datatype Attempt = Attempt(stage: Stage, url: string)

  /** The result of one call: how it settled, the fetches it made in order,
    * and what it logged. */
  datatype Call = Call(outcome: Outcome, attempts: seq<Attempt>, log: seq<LogEntry>)

  /** The lenient body parse: empty text is null, text JSON.parse rejects is
    * `{raw: text}`. */
  function ParseBody(text: string, parse: string -> Parsed): Json {
    if text == "" then JNull
    else match parse(text)
      case Parsed(j) => j
      case SyntaxError(_) => JObj(map["raw" := JStr(text)])
  }

  /** `json?.result ?? json`. */
  function ResultOrBody(json: Json): Json {
    var result := Field(json, "result");
    if !Nullish(result) then result else json
  }

  /** `json?.error?.message || 'Function <name> failed with <status>'`, as the
    * message of the Error thrown with it. */
  function ErrorMessage(json: Json, name: string, status: nat): string {
    var message := Field(Field(json, "error"), "message");
    if Truthy(message) then ToJsString(message)
    else "Function " + name + " failed with " + NatToDecimal(status)
  }

  /** The server's message wins when it is a non-empty string; without a
    * truthy message the text names the function and the status. */
  lemma ErrorMessageRule(json: Json, name: string, status: nat)
    ensures Field(Field(json, "error"), "message").JStr? && Field(Field(json, "error"), "message").s != "" ==>
              ErrorMessage(json, name, status) == Field(Field(json, "error"), "message").s
    ensures !Truthy(Field(Field(json, "error"), "message")) ==>
              ErrorMessage(json, name, status) == "Function " + name + " failed with " + NatToDecimal(status)
  {
  }

  /** How a call settles on a reply: a transport error rejects with that
    * error; an ok status resolves to the result (or the whole body); any
    * other status rejects with the error-message rule. */
  function Verdict(r: Reply, name: string, parse: string -> Parsed): Outcome {
    match r
    case NetFailure(e) => Rejected(e)
    case Answered(s, b) =>
      if IsOk(s) then Resolved(ResultOrBody(ParseBody(b, parse)))
      else Rejected(Raise(ErrorMessage(ParseBody(b, parse), name, s)))
  }

  /** The reply the i-th attempt of a call received. */
  function ReplyTo(net: (nat, string) -> Reply, attempts: seq<Attempt>, i: nat): Reply
    requires i < |attempts|
  {
    net(i, attempts[i].url)
  }

  /** Rejects with the error-message rule applied to the body in hand,
    * logging the message as an error after `notes`. */
  function Fail(json: Json, name: string, status: nat, tried: seq<Attempt>, notes: seq<LogEntry>): Call {
    var message := ErrorMessage(json, name, status);
    Call(Rejected(Raise(message)), tried, notes + [LogEntry(Error, message)])
  }

  /** The `info` entry that opens the hosting fallback after a 404. */
  function NotFoundNote(primary: string, name: string): LogEntry {
    LogEntry(Info, "Received 404 from " + primary + " for " + name + ". Trying hosting-style /api/" + name + " fallback.")
  }

  /** The `info` entry that opens the network fallback after a transport error. */
  function FailoverNote(err: JsError): LogEntry {
    LogEntry(Info, "Primary function URL failed, attempting fallback: " + Describe(err))
  }

  /** The part of the chain after a response is in hand, with the fetches made
    * so far in `tried`; its log is what this part adds. */
  function Settle(name: string, primary: string, status: nat, body: string, tried: seq<Attempt>,
                  net: (nat, string) -> Reply, parse: string -> Parsed): Call
  {
    var json := ParseBody(body, parse);
    if IsOk(status) then
      Call(Resolved(ResultOrBody(json)), tried, [LogEntry(Response, "Response from " + name)])
    else if status != 404 then
      Fail(json, name, status, tried, [])
    else
      var hosting := HostingUrl(name);
      var tried' := tried + [Attempt(HostingFallback, hosting)];
      var note := NotFoundNote(primary, name);
      match net(|tried|, hosting)
      case NetFailure(e) =>
        Fail(json, name, status, tried',
             [note, LogEntry(Info, "Fallback /api/" + name + " also failed: " + Describe(e))])
      case Answered(s2, b2) =>
        if IsOk(s2) then
          Call(Resolved(ResultOrBody(ParseBody(b2, parse))), tried',
               [note, LogEntry(Response, "Response from fallback /api/" + name)])
        else
          Fail(json, name, status, tried', [note])
  }

  /** A call's later part, with `log` logged before it. */
  function Prepend(log: seq<LogEntry>, c: Call): Call {
    Call(c.outcome, c.attempts, log + c.log)
  }

  /** The part of the chain after the primary fetch failed in transport with
    * `err`: one fetch of the configured fallback, or rejection with `err`. */
  function Rescue(env: ClientEnv, name: string, primary: string, err: JsError,
                  net: (nat, string) -> Reply, parse: string -> Parsed): Call
  {
    var log1 := [FailoverNote(err)];
    match FallbackBase(env)
    case None => Call(Rejected(err), [Attempt(Primary, primary)], log1)
    case Some(fb) =>
      var url := fb + "/" + name;
      Prepend(log1 + [LogEntry(Request, "POST fallback " + url)], FromFallback(name, primary, url, net, parse))
  }

  /** The second fetch, to the fallback URL `url`, and what follows it; its
    * log is what this part adds. */
  function FromFallback(name: string, primary: string, url: string,
                        net: (nat, string) -> Reply, parse: string -> Parsed): Call
  {
    var tried := [Attempt(Primary, primary), Attempt(NetworkFallback, url)];
    match net(1, url)
    case NetFailure(err2) => Call(Rejected(err2), tried, [])
    case Answered(s, b) => Settle(name, primary, s, b, tried, net, parse)
  }

  /** A live call: the primary fetch, then Settle or Rescue. */
  function Live(env: ClientEnv, name: string, net: (nat, string) -> Reply, parse: string -> Parsed): Call {
    var primary := PrimaryUrl(env, name);
    var log0 := [LogEntry(Request, "POST " + primary)];
    Prepend(log0, AfterPrimary(env, name, primary, net(0, primary), net, parse))
  }

  /** What follows the primary fetch, given its reply `r`. */
  function AfterPrimary(env: ClientEnv, name: string, primary: string, r: Reply,
                        net: (nat, string) -> Reply, parse: string -> Parsed): Call
  {
    match r
    case Answered(s, b) => Settle(name, primary, s, b, [Attempt(Primary, primary)], net, parse)
    case NetFailure(err) => Rescue(env, name, primary, err, net, parse)
  }

  /** `callFunction(name, payload)`: the whole chain. In mock mode no fetch is
    * made. Live, the primary URL is fetched first; a transport error there
    * leads to exactly one fetch of the configured fallback (or rejects with
    * that error when there is none); a 404 on the response in hand leads to
    * one fetch of `/api/<name>`, whose result is used only if it is ok. */
  function Dispatch(env: ClientEnv, name: string, payload: map<string, Json>,
                    net: (nat, string) -> Reply, parse: string -> Parsed,
                    hostname: string -> Option<string>, now: nat): Call
  {
    if UseMock(env) then
      Call(MockOutcome(name, payload, hostname, now), [], [LogEntry(Info, "Mocking function " + name)])
    else
      Live(env, name, net, parse)
  }

  /** The hosting fallback a status in hand leads to. */
  function AfterStatus(status: nat, name: string): seq<Attempt> {
    if status == 404 then [Attempt(HostingFallback, HostingUrl(name))] else []
  }

  /** The fetches a live call makes, case by case. */
  function LiveAttempts(env: ClientEnv, name: string, net: (nat, string) -> Reply): seq<Attempt> {
    var primary := PrimaryUrl(env, name);
    var r0 := net(0, primary);
    if r0.Answered? then [Attempt(Primary, primary)] + AfterStatus(r0.status, name)
    else if FallbackBase(env).None? then [Attempt(Primary, primary)]
    else
      var url := FallbackBase(env).value + "/" + name;
      var r1 := net(1, url);
      [Attempt(Primary, primary), Attempt(NetworkFallback, url)] + (if r1.Answered? then AfterStatus(r1.status, name) else [])
  }

  /** Settle makes one more fetch exactly when the status in hand is 404. */
  lemma SettleAttempts(name: string, primary: string, status: nat, body: string, tried: seq<Attempt>,
                       net: (nat, string) -> Reply, parse: string -> Parsed)
    ensures Settle(name, primary, status, body, tried, net, parse).attempts == tried + AfterStatus(status, name)
  {
  }

  /** How Settle settles, in terms of the hosting fallback's reply alone. */
  lemma SettleOutcome(name: string, primary: string, status: nat, body: string, tried: seq<Attempt>,
                      net: (nat, string) -> Reply, parse: string -> Parsed)
    ensures Settle(name, primary, status, body, tried, net, parse).outcome ==
            if status != 404 then Verdict(Answered(status, body), name, parse)
            else
              var second := net(|tried|, HostingUrl(name));
              if second.Answered? && IsOk(second.status) then Verdict(second, name, parse)
              else Verdict(Answered(status, body), name, parse)
  {
  }

  lemma DispatchLiveAttempts(env: ClientEnv, name: string, payload: map<string, Json>,
                             net: (nat, string) -> Reply, parse: string -> Parsed,
                             hostname: string -> Option<string>, now: nat)
    requires !UseMock(env)
    ensures Dispatch(env, name, payload, net, parse, hostname, now).attempts == LiveAttempts(env, name, net)
  {
    var primary := PrimaryUrl(env, name);
    match net(0, primary)
    case Answered(s, b) =>
      SettleAttempts(name, primary, s, b, [Attempt(Primary, primary)], net, parse);
    case NetFailure(err) =>
      if FallbackBase(env).Some? {
        var url := FallbackBase(env).value + "/" + name;
        match net(1, url)
        case NetFailure(_) =>
        case Answered(s, b) =>
          SettleAttempts(name, primary, s, b, [Attempt(Primary, primary), Attempt(NetworkFallback, url)], net, parse);
      }
  }

  /** The stages come in the order primary, network fallback, hosting
    * fallback, each at most once, starting with the primary fetch. */
  predicate StagesInOrder(attempts: seq<Attempt>) {
    && |attempts| <= 3
    && (attempts != [] ==> attempts[0].stage == Primary)
    && (forall i, j :: 0 <= i < j < |attempts| ==> Rank(attempts[i].stage) < Rank(attempts[j].stage))
  }

  /** The network fallback is the second fetch, made only after the primary
    * fetch failed in transport, and it goes to the configured fallback. */
  predicate NetworkFallbackRule(env: ClientEnv, name: string, net: (nat, string) -> Reply, attempts: seq<Attempt>) {
    forall i :: 0 <= i < |attempts| && attempts[i].stage == NetworkFallback ==>
      && i == 1
      && ReplyTo(net, attempts, 0).NetFailure?
      && FallbackBase(env).Some?
      && attempts[i].url == FallbackBase(env).value + "/" + name
  }

  /** The hosting fallback comes right after a 404 and goes to `/api/<name>`;
    * every 404 before it is followed by it. */
  predicate HostingFallbackRule(name: string, net: (nat, string) -> Reply, attempts: seq<Attempt>) {
    && (forall i :: 0 <= i < |attempts| && attempts[i].stage == HostingFallback ==>
          && i > 0
          && ReplyTo(net, attempts, i - 1).Answered?
          && ReplyTo(net, attempts, i - 1).status == 404
          && attempts[i].url == HostingUrl(name))
    && (forall i :: 0 <= i < |attempts| && attempts[i].stage != HostingFallback &&
                    ReplyTo(net, attempts, i).Answered? && ReplyTo(net, attempts, i).status == 404 ==>
          i + 1 < |attempts| && attempts[i + 1].stage == HostingFallback)
  }

  /** Everything the fetch list of a live call is promised to satisfy. */
  predicate LiveAttemptsWellFormed(env: ClientEnv, name: string, net: (nat, string) -> Reply, t: seq<Attempt>) {
    && t != [] && t[0] == Attempt(Primary, PrimaryUrl(env, name))
    && StagesInOrder(t)
    && NetworkFallbackRule(env, name, net, t)
    && HostingFallbackRule(name, net, t)
    && (net(0, PrimaryUrl(env, name)).NetFailure? && FallbackBase(env).Some? ==>
          |t| >= 2 && t[1].stage == NetworkFallback)
  }

  lemma LiveAttemptsRules(env: ClientEnv, name: string, net: (nat, string) -> Reply)
    ensures var t := LiveAttempts(env, name, net);
            && t != [] && t[0] == Attempt(Primary, PrimaryUrl(env, name))
            && StagesInOrder(t)
            && NetworkFallbackRule(env, name, net, t)
            && HostingFallbackRule(name, net, t)
            && (net(0, PrimaryUrl(env, name)).NetFailure? && FallbackBase(env).Some? ==>
                  |t| >= 2 && t[1].stage == NetworkFallback)
  {
    if net(0, PrimaryUrl(env, name)).Answered? {
      AnsweredPrimaryRules(env, name, net);
    } else if FallbackBase(env).None? {
      UnrescuedPrimaryRules(env, name, net);
    } else {
      RescuedPrimaryRules(env, name, net);
    }
  }

  lemma AnsweredPrimaryRules(env: ClientEnv, name: string, net: (nat, string) -> Reply)
    requires net(0, PrimaryUrl(env, name)).Answered?
    ensures LiveAttemptsWellFormed(env, name, net, LiveAttempts(env, name, net))
  {
    var p := Attempt(Primary, PrimaryUrl(env, name));
    var r0 := net(0, PrimaryUrl(env, name));
    if r0.status == 404 {
      var t := [p, Attempt(HostingFallback, HostingUrl(name))];
      assert LiveAttempts(env, name, net) == t;
      assert ReplyTo(net, t, 0) == r0;
      assert HostingFallbackRule(name, net, t);
    } else {
      assert LiveAttempts(env, name, net) == [p];
    }
  }

  lemma UnrescuedPrimaryRules(env: ClientEnv, name: string, net: (nat, string) -> Reply)
    requires net(0, PrimaryUrl(env, name)).NetFailure? && FallbackBase(env).None?
    ensures LiveAttemptsWellFormed(env, name, net, LiveAttempts(env, name, net))
  {
    assert LiveAttempts(env, name, net) == [Attempt(Primary, PrimaryUrl(env, name))];
  }

  lemma RescuedPrimaryRules(env: ClientEnv, name: string, net: (nat, string) -> Reply)
    requires net(0, PrimaryUrl(env, name)).NetFailure? && FallbackBase(env).Some?
    ensures LiveAttemptsWellFormed(env, name, net, LiveAttempts(env, name, net))
  {
    var r1 := net(1, FallbackBase(env).value + "/" + name);
    if r1.Answered? && r1.status == 404 {
      RescuedNotFoundRules(env, name, net);
    } else {
      RescuedSettledRules(env, name, net);
    }
  }

  lemma RescuedNotFoundRules(env: ClientEnv, name: string, net: (nat, string) -> Reply)
    requires net(0, PrimaryUrl(env, name)).NetFailure? && FallbackBase(env).Some?
    requires var r1 := net(1, FallbackBase(env).value + "/" + name); r1.Answered? && r1.status == 404
    ensures LiveAttemptsWellFormed(env, name, net, LiveAttempts(env, name, net))
  {
    var url := FallbackBase(env).value + "/" + name;
    var t := [Attempt(Primary, PrimaryUrl(env, name)), Attempt(NetworkFallback, url),
              Attempt(HostingFallback, HostingUrl(name))];
    assert LiveAttempts(env, name, net) == t;
    assert ReplyTo(net, t, 0) == net(0, PrimaryUrl(env, name));
    assert ReplyTo(net, t, 1) == net(1, url);
    assert StagesInOrder(t);
    assert NetworkFallbackRule(env, name, net, t);
    assert HostingFallbackRule(name, net, t);
  }

  lemma RescuedSettledRules(env: ClientEnv, name: string, net: (nat, string) -> Reply)
    requires net(0, PrimaryUrl(env, name)).NetFailure? && FallbackBase(env).Some?
    requires var r1 := net(1, FallbackBase(env).value + "/" + name); !(r1.Answered? && r1.status == 404)
    ensures LiveAttemptsWellFormed(env, name, net, LiveAttempts(env, name, net))
  {
    var url := FallbackBase(env).value + "/" + name;
    var t := [Attempt(Primary, PrimaryUrl(env, name)), Attempt(NetworkFallback, url)];
    assert LiveAttempts(env, name, net) == t;
    assert ReplyTo(net, t, 0) == net(0, PrimaryUrl(env, name));
    assert ReplyTo(net, t, 1) == net(1, url);
    assert NetworkFallbackRule(env, name, net, t);
    assert HostingFallbackRule(name, net, t);
  }

  /** Which fetches a call makes: none in mock mode; live, the primary URL
    * first, then in order at most one network fallback, made exactly when
    * the primary fetch failed in transport and a fallback is configured, and
    * at most one hosting fallback, made exactly after a 404. */
  lemma DispatchAttempts(env: ClientEnv, name: string, payload: map<string, Json>,
                         net: (nat, string) -> Reply, parse: string -> Parsed,
                         hostname: string -> Option<string>, now: nat)
    ensures var c := Dispatch(env, name, payload, net, parse, hostname, now);
            && (c.attempts == [] <==> UseMock(env))
            && (!UseMock(env) ==> c.attempts[0] == Attempt(Primary, PrimaryUrl(env, name)))
            && StagesInOrder(c.attempts)
            && NetworkFallbackRule(env, name, net, c.attempts)
            && HostingFallbackRule(name, net, c.attempts)
            && (!UseMock(env) && net(0, PrimaryUrl(env, name)).NetFailure? && FallbackBase(env).Some? ==>
                  |c.attempts| >= 2 && c.attempts[1].stage == NetworkFallback)
  {
    if !UseMock(env) {
      DispatchLiveAttempts(env, name, payload, net, parse, hostname, now);
      LiveAttemptsRules(env, name, net);
    }
  }

  /** A call settles on the reply to its last fetch, except that a hosting
    * fallback that is not ok leaves the verdict of the 404 it followed. */
  predicate SettlesOnLastReply(net: (nat, string) -> Reply, name: string, parse: string -> Parsed,
                               attempts: seq<Attempt>, outcome: Outcome) {
    && |attempts| >= 1
    && (attempts[|attempts| - 1].stage != HostingFallback ==>
          outcome == Verdict(ReplyTo(net, attempts, |attempts| - 1), name, parse))
    && (attempts[|attempts| - 1].stage == HostingFallback ==>
          |attempts| >= 2 &&
          var k := |attempts| - 1;
          var second := ReplyTo(net, attempts, k);
          outcome == if second.Answered? && IsOk(second.status) then Verdict(second, name, parse)
                     else Verdict(ReplyTo(net, attempts, k - 1), name, parse))
  }

  /** Settle, entered with the reply to the last fetch so far, settles on
    * the last reply in that sense. */
  lemma SettleOnLastReply(name: string, primary: string, status: nat, body: string, tried: seq<Attempt>,
                          net: (nat, string) -> Reply, parse: string -> Parsed)
    requires tried != [] && tried[|tried| - 1].stage != HostingFallback
    requires ReplyTo(net, tried, |tried| - 1) == Answered(status, body)
    ensures var c := Settle(name, primary, status, body, tried, net, parse);
            SettlesOnLastReply(net, name, parse, c.attempts, c.outcome)
  {
    SettleAttempts(name, primary, status, body, tried, net, parse);
    SettleOutcome(name, primary, status, body, tried, net, parse);
    if status == 404 {
      var t := tried + [Attempt(HostingFallback, HostingUrl(name))];
      assert ReplyTo(net, t, |tried| - 1) == ReplyTo(net, tried, |tried| - 1);
      assert ReplyTo(net, t, |tried|) == net(|tried|, HostingUrl(name));
    }
  }

  /** The rescued branch of a live call settles on its last reply. */
  lemma RescueOnLastReply(env: ClientEnv, name: string, primary: string, err: JsError,
                          net: (nat, string) -> Reply, parse: string -> Parsed)
    requires net(0, primary) == NetFailure(err)
    ensures var c := Rescue(env, name, primary, err, net, parse);
            SettlesOnLastReply(net, name, parse, c.attempts, c.outcome)
  {
    match FallbackBase(env)
    case None =>
      assert ReplyTo(net, [Attempt(Primary, primary)], 0) == NetFailure(err);
    case Some(fb) =>
      var url := fb + "/" + name;
      var two := [Attempt(Primary, primary), Attempt(NetworkFallback, url)];
      assert ReplyTo(net, two, 1) == net(1, url);
      match net(1, url)
      case NetFailure(_) =>
      case Answered(s, b) =>
        SettleOnLastReply(name, primary, s, b, two, net, parse);
  }

  /** How a live call settles: on the reply to its last fetch, except that a
    * hosting fallback that is not ok leaves the verdict of the 404 it
    * followed. */
  lemma DispatchOutcome(env: ClientEnv, name: string, payload: map<string, Json>,
                        net: (nat, string) -> Reply, parse: string -> Parsed,
                        hostname: string -> Option<string>, now: nat)
    requires !UseMock(env)
    ensures var c := Dispatch(env, name, payload, net, parse, hostname, now);
            SettlesOnLastReply(net, name, parse, c.attempts, c.outcome)
  {
    var primary := PrimaryUrl(env, name);
    var r0 := net(0, primary);
    var after := AfterPrimary(env, name, primary, r0, net, parse);
    if r0.Answered? {
      assert ReplyTo(net, [Attempt(Primary, primary)], 0) == r0;
      SettleOnLastReply(name, primary, r0.status, r0.body, [Attempt(Primary, primary)], net, parse);
    } else {
      RescueOnLastReply(env, name, primary, r0.error, net, parse);
    }
    var c := Dispatch(env, name, payload, net, parse, hostname, now);
    assert c.attempts == after.attempts && c.outcome == after.outcome;
  }

  /** In mock mode the call settles as the mock table says, without a fetch. */
  lemma DispatchMock(env: ClientEnv, name: string, payload: map<string, Json>,
                     net: (nat, string) -> Reply, parse: string -> Parsed,
                     hostname: string -> Option<string>, now: nat)
    requires UseMock(env)
    ensures var c := Dispatch(env, name, payload, net, parse, hostname, now);
            c.attempts == [] && c.outcome == MockOutcome(name, payload, hostname, now) &&
            c.log == [LogEntry(Info, "Mocking function " + name)]
  {
  }

  /** Logging one more entry delivers one more entry. */
  lemma DeliveriesSnoc(callback: Option<CallbackId>, es: seq<LogEntry>, e: LogEntry)
    ensures Deliveries(callback, es + [e]) == Deliveries(callback, es) + [Route(callback, e)]
  {
  }

  /** Logging two runs of entries after `d` delivers them in order. */
  lemma DeliveriesAppend(d: seq<Delivery>, callback: Option<CallbackId>, a: seq<LogEntry>, b: seq<LogEntry>)
    ensures d + Deliveries(callback, a) + Deliveries(callback, b) == d + Deliveries(callback, a + b)
  {
    assert Deliveries(callback, a + b) == Deliveries(callback, a) + Deliveries(callback, b);
  }

  /** The part of `callFunction` after a response is in hand. */
  method HandleResponse(logger: Logger, name: string, url: string, status: nat, body: string,
                        tried: seq<Attempt>, net: (nat, string) -> Reply, parse: string -> Parsed)
    returns (outcome: Outcome, attempts: seq<Attempt>)
    modifies logger
    ensures var c := Settle(name, url, status, body, tried, net, parse);
            && outcome == c.outcome
            && attempts == c.attempts
            && logger.callback == old(logger.callback)
            && logger.delivered == old(logger.delivered) + Deliveries(old(logger.callback), c.log)
  {
    ghost var trace: seq<LogEntry> := [];
    var json := ParseBody(body, parse);
    attempts := tried;
    if !IsOk(status) {
      if status == 404 {
        var note := "Received 404 from " + url + " for " + name + ". Trying hosting-style /api/" + name + " fallback.";
        logger.Log(Info, note);
        DeliveriesSnoc(old(logger.callback), trace, LogEntry(Info, note));
        trace := trace + [LogEntry(Info, note)];
        var apiFallback := HostingUrl(name);
        var res2 := net(|attempts|, apiFallback);
        attempts := attempts + [Attempt(HostingFallback, apiFallback)];
        if res2.NetFailure? {
          var failed := "Fallback /api/" + name + " also failed: " + Describe(res2.error);
          logger.Log(Info, failed);
          DeliveriesSnoc(old(logger.callback), trace, LogEntry(Info, failed));
          trace := trace + [LogEntry(Info, failed)];
        } else if IsOk(res2.status) {
          var result2 := ResultOrBody(ParseBody(res2.body, parse));
          var received := "Response from fallback /api/" + name;
          logger.Log(Response, received);
          DeliveriesSnoc(old(logger.callback), trace, LogEntry(Response, received));
          outcome := Resolved(result2);
          return;
        }
      }
      var errMsg := ErrorMessage(json, name, status);
      logger.Log(Error, errMsg);
      DeliveriesSnoc(old(logger.callback), trace, LogEntry(Error, errMsg));
      outcome := Rejected(Raise(errMsg));
      return;
    }
    var result := ResultOrBody(json);
    logger.Log(Response, "Response from " + name);
    outcome := Resolved(result);
  }

  /** The imperative `callFunction`: the same chain, step by step, logging
    * through `logger` as it goes. */
  method CallFunction(logger: Logger, env: ClientEnv, name: string, payload: map<string, Json>,
                      net: (nat, string) -> Reply, parse: string -> Parsed,
                      hostname: string -> Option<string>, now: nat)
    returns (outcome: Outcome, attempts: seq<Attempt>)
    modifies logger
    ensures var c := Dispatch(env, name, payload, net, parse, hostname, now);
            && outcome == c.outcome
            && attempts == c.attempts
            && logger.callback == old(logger.callback)
            && logger.delivered == old(logger.delivered) + Deliveries(old(logger.callback), c.log)
  {
    if UseMock(env) {
      DispatchMock(env, name, payload, net, parse, hostname, now);
      assert Deliveries(logger.callback, [LogEntry(Info, "Mocking function " + name)])
             == [Route(logger.callback, LogEntry(Info, "Mocking function " + name))];
      logger.Log(Info, "Mocking function " + name);
      outcome := CallMock(name, payload, hostname, now);
      attempts := [];
      return;
    }
    assert Dispatch(env, name, payload, net, parse, hostname, now) == Live(env, name, net, parse);
    outcome, attempts := CallLive(logger, env, name, net, parse);
  }

  /** `callFunction` outside mock mode. */
  method CallLive(logger: Logger, env: ClientEnv, name: string, net: (nat, string) -> Reply, parse: string -> Parsed)
    returns (outcome: Outcome, attempts: seq<Attempt>)
    modifies logger
    ensures var c := Live(env, name, net, parse);
            && outcome == c.outcome
            && attempts == c.attempts
            && logger.callback == old(logger.callback)
            && logger.delivered == old(logger.delivered) + Deliveries(old(logger.callback), c.log)
  {
    ghost var cb, d0 := logger.callback, logger.delivered;
    var url := PrimaryUrl(env, name);
    logger.Log(Request, "POST " + url);
    ghost var log0 := [LogEntry(Request, "POST " + url)];
    assert Deliveries(cb, log0) == [Route(cb, LogEntry(Request, "POST " + url))];
    assert logger.delivered == d0 + Deliveries(cb, log0);
    var res := net(0, url);
    ghost var rest := AfterPrimary(env, name, url, res, net, parse);
    assert Live(env, name, net, parse) == Prepend(log0, rest);
    outcome, attempts := Proceed(logger, env, name, url, res, net, parse);
    DeliveriesAppend(d0, cb, log0, rest.log);
  }

  /** The part of `callFunction` after the primary fetch gave `res`. */
  method Proceed(logger: Logger, env: ClientEnv, name: string, url: string, res: Reply,
                 net: (nat, string) -> Reply, parse: string -> Parsed)
    returns (outcome: Outcome, attempts: seq<Attempt>)
    modifies logger
    ensures var c := AfterPrimary(env, name, url, res, net, parse);
            && outcome == c.outcome
            && attempts == c.attempts
            && logger.callback == old(logger.callback)
            && logger.delivered == old(logger.delivered) + Deliveries(old(logger.callback), c.log)
  {
    if res.NetFailure? {
      outcome, attempts := TryFallback(logger, env, name, url, res.error, net, parse);
    } else {
      outcome, attempts := HandleResponse(logger, name, url, res.status, res.body, [Attempt(Primary, url)], net, parse);
    }
  }

  /** `callFunction` in mock mode, once the call is logged. */
  method CallMock(name: string, payload: map<string, Json>, hostname: string -> Option<string>, now: nat)
    returns (outcome: Outcome)
    ensures outcome == MockOutcome(name, payload, hostname, now)
  {
    var handler := MockHandler(name, payload, hostname, now);
    if handler.Some? {
      outcome := Resolved(handler.value);
    } else {
      outcome := Rejected(Raise("No mock handler for function " + name));
    }
  }

  /** The part of `callFunction` after the primary fetch failed in transport. */
  method TryFallback(logger: Logger, env: ClientEnv, name: string, url: string, err: JsError,
                     net: (nat, string) -> Reply, parse: string -> Parsed)
    returns (outcome: Outcome, attempts: seq<Attempt>)
    modifies logger
    ensures var c := Rescue(env, name, url, err, net, parse);
            && outcome == c.outcome
            && attempts == c.attempts
            && logger.callback == old(logger.callback)
            && logger.delivered == old(logger.delivered) + Deliveries(old(logger.callback), c.log)
  {
    ghost var cb, d0 := logger.callback, logger.delivered;
    var failed := "Primary function URL failed, attempting fallback: " + Describe(err);
    logger.Log(Info, failed);
    ghost var trace := [LogEntry(Info, failed)];
    assert Deliveries(cb, trace) == [Route(cb, LogEntry(Info, failed))];
    var fallbackBase := FallbackBase(env);
    if fallbackBase.None? {
      outcome, attempts := Rejected(err), [Attempt(Primary, url)];
      return;
    }
    var fallbackUrl := fallbackBase.value + "/" + name;
    logger.Log(Request, "POST fallback " + fallbackUrl);
    DeliveriesSnoc(cb, trace, LogEntry(Request, "POST fallback " + fallbackUrl));
    trace := trace + [LogEntry(Request, "POST fallback " + fallbackUrl)];
    assert logger.delivered == d0 + Deliveries(cb, trace);
    ghost var rest := FromFallback(name, url, fallbackUrl, net, parse);
    assert Rescue(env, name, url, err, net, parse) == Prepend(trace, rest);
    outcome, attempts := FetchFallback(logger, name, url, fallbackUrl, net, parse);
    DeliveriesAppend(d0, cb, trace, rest.log);
  }

  /** The fetch of the fallback URL, once it is logged. */
  method FetchFallback(logger: Logger, name: string, url: string, fallbackUrl: string,
                       net: (nat, string) -> Reply, parse: string -> Parsed)
    returns (outcome: Outcome, attempts: seq<Attempt>)
    modifies logger
    ensures var c := FromFallback(name, url, fallbackUrl, net, parse);
            && outcome == c.outcome
            && attempts == c.attempts
            && logger.callback == old(logger.callback)
            && logger.delivered == old(logger.delivered) + Deliveries(old(logger.callback), c.log)
  {
    var tried := [Attempt(Primary, url), Attempt(NetworkFallback, fallbackUrl)];
    var res := net(1, fallbackUrl);
    if res.NetFailure? {
      outcome, attempts := Rejected(res.error), tried;
      return;
    }
    outcome, attempts := HandleResponse(logger, name, url, res.status, res.body, tried, net, parse);
  }

  // ---------------------------------------------------------------------------
  // Properties of the chain
  // ---------------------------------------------------------------------------

  // ---------------------------------------------------------------------------
  // What a live call logs
  // ---------------------------------------------------------------------------

  /** The number of entries of kind `k`. */
  function CountKind(log: seq<LogEntry>, k: LogKind): nat {
    if log == [] then 0 else (if log[0].kind == k then 1 else 0) + CountKind(log[1..], k)
  }

  lemma {:induction false} CountKindAppend(a: seq<LogEntry>, b: seq<LogEntry>, k: LogKind)
    ensures CountKind(a + b, k) == CountKind(a, k) + CountKind(b, k)
    decreases |a|
  {
    if a != [] {
      assert (a + b)[1..] == a[1..] + b;
      CountKindAppend(a[1..], b, k);
    } else {
      assert a + b == b;
    }
  }

  /** The fetches announced with a `request` entry: all but the hosting
    * fallback, which is made without one. */
  function Announced(attempts: seq<Attempt>): nat {
    if attempts == [] then 0
    else (if attempts[0].stage != HostingFallback then 1 else 0) + Announced(attempts[1..])
  }

  lemma {:induction false} AnnouncedAppend(a: seq<Attempt>, b: seq<Attempt>)
    ensures Announced(a + b) == Announced(a) + Announced(b)
    decreases |a|
  {
    if a != [] {
      assert (a + b)[1..] == a[1..] + b;
      AnnouncedAppend(a[1..], b);
    } else {
      assert a + b == b;
    }
  }

  /** The call rejected because a fetch threw, not on a response in hand:
    * its last fetch is not the hosting fallback and failed in transport. */
  predicate RejectedInTransport(net: (nat, string) -> Reply, attempts: seq<Attempt>) {
    && |attempts| >= 1
    && attempts[|attempts| - 1].stage != HostingFallback
    && ReplyTo(net, attempts, |attempts| - 1).NetFailure?
  }

  /** What a live call's log says about it: one `request` entry per
    * announced fetch, a `response` entry last exactly when it resolves, and
    * one `error` entry exactly when it rejects on a response in hand. */
  predicate LiveLogShape(net: (nat, string) -> Reply, attempts: seq<Attempt>, outcome: Outcome, log: seq<LogEntry>) {
    && log != []
    && CountKind(log, Request) == Announced(attempts)
    && (log[|log| - 1].kind == Response <==> outcome.Resolved?)
    && CountKind(log, Error) == (if outcome.Rejected? && !RejectedInTransport(net, attempts) then 1 else 0)
  }

  /** Settle's own log: no request, a response last exactly on success, and
    * exactly one error on failure, which is always on a response. */
  lemma SettleLog(name: string, primary: string, status: nat, body: string, tried: seq<Attempt>,
                  net: (nat, string) -> Reply, parse: string -> Parsed)
    requires tried != [] && tried[|tried| - 1].stage != HostingFallback
    requires ReplyTo(net, tried, |tried| - 1) == Answered(status, body)
    ensures var c := Settle(name, primary, status, body, tried, net, parse);
            && c.log != []
            && CountKind(c.log, Request) == 0
            && (c.log[|c.log| - 1].kind == Response <==> c.outcome.Resolved?)
            && CountKind(c.log, Error) == (if c.outcome.Rejected? then 1 else 0)
            && !RejectedInTransport(net, c.attempts)
            && Announced(c.attempts) == Announced(tried)
  {
    SettleAttempts(name, primary, status, body, tried, net, parse);
    AnnouncedAppend(tried, AfterStatus(status, name));
    if status == 404 {
      NotFoundLog(name, primary, body, tried, net, parse);
    } else {
      DirectLog(name, primary, status, body, tried, net, parse);
    }
  }

  /** Settle's log on a status other than 404: one response or one error. */
  lemma DirectLog(name: string, primary: string, status: nat, body: string, tried: seq<Attempt>,
                  net: (nat, string) -> Reply, parse: string -> Parsed)
    requires status != 404
    ensures var c := Settle(name, primary, status, body, tried, net, parse);
            && |c.log| == 1
            && (c.log[0].kind == Response <==> c.outcome.Resolved?)
            && (c.log[0].kind == Error <==> c.outcome.Rejected?)
  {
  }

  /** Settle's log after a 404: the note, then what the hosting fallback
    * led to, ending in a response or an error. */
  lemma NotFoundLog(name: string, primary: string, body: string, tried: seq<Attempt>,
                    net: (nat, string) -> Reply, parse: string -> Parsed)
    ensures var c := Settle(name, primary, 404, body, tried, net, parse);
            && c.log != []
            && CountKind(c.log, Request) == 0
            && (c.log[|c.log| - 1].kind == Response <==> c.outcome.Resolved?)
            && CountKind(c.log, Error) == (if c.outcome.Rejected? then 1 else 0)
  {
    var c := Settle(name, primary, 404, body, tried, net, parse);
    var note := NotFoundNote(primary, name);
    var last := c.log[|c.log| - 1];
    assert c.log[0] == note;
    assert c.log == [note] + c.log[1..];
    CountKindAppend([note], c.log[1..], Request);
    CountKindAppend([note], c.log[1..], Error);
    var mid := c.log[1..|c.log| - 1];
    assert c.log[1..] == mid + [last];
    CountKindAppend(mid, [last], Request);
    CountKindAppend(mid, [last], Error);
    assert forall i :: 0 <= i < |mid| ==> mid[i].kind == Info;
    assert CountKind(mid, Request) == 0 && CountKind(mid, Error) == 0 by {
      assert |mid| <= 1;
    }
  }

  /** The log of the fallback fetch and what follows it: empty when that
    * fetch throws, otherwise Settle's. */
  lemma FromFallbackLog(name: string, primary: string, url: string,
                        net: (nat, string) -> Reply, parse: string -> Parsed)
    ensures var c := FromFallback(name, primary, url, net, parse);
            && Announced(c.attempts) == 2
            && CountKind(c.log, Request) == 0
            && (c.log == [] ==> c.outcome.Rejected? && RejectedInTransport(net, c.attempts))
            && (c.log != [] ==>
                  && (c.log[|c.log| - 1].kind == Response <==> c.outcome.Resolved?)
                  && CountKind(c.log, Error) == (if c.outcome.Rejected? then 1 else 0)
                  && !RejectedInTransport(net, c.attempts))
  {
    var two := [Attempt(Primary, primary), Attempt(NetworkFallback, url)];
    assert ReplyTo(net, two, 1) == net(1, url);
    assert Announced(two) == 2 by {
      assert two[1..] == [Attempt(NetworkFallback, url)];
      assert Announced([Attempt(NetworkFallback, url)]) == 1 by {
        assert [Attempt(NetworkFallback, url)][1..] == [];
      }
    }
    match net(1, url)
    case NetFailure(_) =>
    case Answered(s, b) =>
      SettleLog(name, primary, s, b, two, net, parse);
  }

  /** The rescued branch's log, after the primary request. */
  lemma RescueLog(env: ClientEnv, name: string, primary: string, err: JsError,
                  net: (nat, string) -> Reply, parse: string -> Parsed)
    requires net(0, primary) == NetFailure(err)
    ensures var c := Rescue(env, name, primary, err, net, parse);
            && c.log != []
            && CountKind(c.log, Request) + 1 == Announced(c.attempts)
            && (c.log[|c.log| - 1].kind == Response <==> c.outcome.Resolved?)
            && CountKind(c.log, Error) == (if c.outcome.Rejected? && !RejectedInTransport(net, c.attempts) then 1 else 0)
  {
    var c := Rescue(env, name, primary, err, net, parse);
    var log1 := [FailoverNote(err)];
    if FallbackBase(env).None? {
      assert c == Call(Rejected(err), [Attempt(Primary, primary)], log1);
      assert ReplyTo(net, [Attempt(Primary, primary)], 0) == NetFailure(err);
    } else {
      var url := FallbackBase(env).value + "/" + name;
      var head := log1 + [LogEntry(Request, "POST fallback " + url)];
      var rest := FromFallback(name, primary, url, net, parse);
      assert c == Prepend(head, rest);
      FromFallbackLog(name, primary, url, net, parse);
      CountKindAppend(head, rest.log, Request);
      CountKindAppend(head, rest.log, Error);
      assert CountKind(head, Request) == 1 && CountKind(head, Error) == 0;
    }
  }

  /** A live call logs `request` for the primary URL first; after that the
    * log has the shape LiveLogShape states. */
  lemma DispatchLiveLog(env: ClientEnv, name: string, payload: map<string, Json>,
                        net: (nat, string) -> Reply, parse: string -> Parsed,
                        hostname: string -> Option<string>, now: nat)
    requires !UseMock(env)
    ensures var c := Dispatch(env, name, payload, net, parse, hostname, now);
            && c.log != [] && c.log[0] == LogEntry(Request, "POST " + PrimaryUrl(env, name))
            && LiveLogShape(net, c.attempts, c.outcome, c.log)
  {
    var primary := PrimaryUrl(env, name);
    var r0 := net(0, primary);
    var head := [LogEntry(Request, "POST " + primary)];
    var after := AfterPrimary(env, name, primary, r0, net, parse);
    var c := Dispatch(env, name, payload, net, parse, hostname, now);
    assert c.log == head + after.log && c.attempts == after.attempts && c.outcome == after.outcome;
    CountKindAppend(head, after.log, Request);
    CountKindAppend(head, after.log, Error);
    if r0.Answered? {
      assert ReplyTo(net, [Attempt(Primary, primary)], 0) == r0;
      SettleLog(name, primary, r0.status, r0.body, [Attempt(Primary, primary)], net, parse);
    } else {
      RescueLog(env, name, primary, r0.error, net, parse);
    }
  }

  /** A call that rejects because a fetch threw logs no `error` entry: the
    * error is rethrown without passing through `log('error', ...)`. This
    * happens with no fallback configured and when the fallback fetch throws. */
  lemma TransportRejectionLogsNoError(env: ClientEnv, name: string, payload: map<string, Json>,
                                      net: (nat, string) -> Reply, parse: string -> Parsed,
                                      hostname: string -> Option<string>, now: nat)
    requires !UseMock(env) && net(0, PrimaryUrl(env, name)).NetFailure?
    requires FallbackBase(env).None? || net(1, FallbackBase(env).value + "/" + name).NetFailure?
    ensures var c := Dispatch(env, name, payload, net, parse, hostname, now);
            && c.outcome.Rejected?
            && forall i :: 0 <= i < |c.log| ==> c.log[i].kind != Error
  {
    var primary := PrimaryUrl(env, name);
    var err := net(0, primary).error;
    var log := Dispatch(env, name, payload, net, parse, hostname, now).log;
    DispatchIsLive(env, name, payload, net, parse, hostname, now);
    if FallbackBase(env).None? {
      assert log == [LogEntry(Request, "POST " + primary), FailoverNote(err)];
    } else {
      var url := FallbackBase(env).value + "/" + name;
      assert log == [LogEntry(Request, "POST " + primary), FailoverNote(err), LogEntry(Request, "POST fallback " + url)];
    }
  }

  /** Settle's log names its transitions: a 404 opens with the note, and a
    * rejection ends with an `error` entry carrying the rejection's message. */
  lemma SettleEntries(name: string, primary: string, status: nat, body: string, tried: seq<Attempt>,
                      net: (nat, string) -> Reply, parse: string -> Parsed)
    ensures var c := Settle(name, primary, status, body, tried, net, parse);
            && c.log != []
            && (status == 404 ==> c.log[0] == NotFoundNote(primary, name))
            && (c.outcome.Rejected? ==> c.log[|c.log| - 1] == LogEntry(Error, c.outcome.error.message))
  {
    if !IsOk(status) && status == 404 {
      var tried' := tried + [Attempt(HostingFallback, HostingUrl(name))];
      match net(|tried|, HostingUrl(name))
      case NetFailure(e) =>
      case Answered(s2, b2) =>
    }
  }

  /** The rescued branch's transitions, after the primary request: it opens
    * with the failover note, a 404 from the fallback adds the hosting note
    * after the fallback request, and a rejection on a response in hand ends
    * with the `error` entry. */
  lemma RescueEntries(env: ClientEnv, name: string, primary: string, err: JsError,
                      net: (nat, string) -> Reply, parse: string -> Parsed)
    requires net(0, primary) == NetFailure(err)
    ensures var c := Rescue(env, name, primary, err, net, parse);
            && c.log != [] && c.log[0] == FailoverNote(err)
            && (c.outcome.Rejected? ==>
                  RejectedInTransport(net, c.attempts) || c.log[|c.log| - 1] == LogEntry(Error, c.outcome.error.message))
            && (FallbackBase(env).Some? && net(1, FallbackBase(env).value + "/" + name).Answered?
                && net(1, FallbackBase(env).value + "/" + name).status == 404 ==>
                  |c.log| >= 3 && c.log[2] == NotFoundNote(primary, name))
  {
    var c := Rescue(env, name, primary, err, net, parse);
    var log1 := [FailoverNote(err)];
    if FallbackBase(env).None? {
      assert c == Call(Rejected(err), [Attempt(Primary, primary)], log1);
      assert ReplyTo(net, c.attempts, 0) == NetFailure(err);
    } else {
      var url := FallbackBase(env).value + "/" + name;
      var head := log1 + [LogEntry(Request, "POST fallback " + url)];
      var rest := FromFallback(name, primary, url, net, parse);
      assert c == Prepend(head, rest);
      var two := [Attempt(Primary, primary), Attempt(NetworkFallback, url)];
      match net(1, url)
      case NetFailure(e2) =>
        assert rest == Call(Rejected(e2), two, []);
        assert ReplyTo(net, two, 1) == NetFailure(e2);
      case Answered(s, b) =>
        SettleEntries(name, primary, s, b, two, net, parse);
    }
  }

  /** The entries that mark a live call's transitions: the network fallback
    * and the hosting fallback each open with their `info` note, and a call
    * that rejects on a response in hand ends with an `error` entry carrying
    * the very message it rejects with. */
  lemma DispatchLogEntries(env: ClientEnv, name: string, payload: map<string, Json>,
                           net: (nat, string) -> Reply, parse: string -> Parsed,
                           hostname: string -> Option<string>, now: nat)
    requires !UseMock(env)
    ensures var c := Dispatch(env, name, payload, net, parse, hostname, now);
            var primary := PrimaryUrl(env, name);
            var r0 := net(0, primary);
            && |c.log| >= 2
            && (c.outcome.Rejected? ==>
                  RejectedInTransport(net, c.attempts) || c.log[|c.log| - 1] == LogEntry(Error, c.outcome.error.message))
            && (r0.NetFailure? ==> c.log[1] == FailoverNote(r0.error))
            && (r0.Answered? && r0.status == 404 ==> c.log[1] == NotFoundNote(primary, name))
            && (r0.NetFailure? && FallbackBase(env).Some? && net(1, FallbackBase(env).value + "/" + name).Answered?
                && net(1, FallbackBase(env).value + "/" + name).status == 404 ==>
                  |c.log| >= 4 && c.log[3] == NotFoundNote(primary, name))
  {
    var primary := PrimaryUrl(env, name);
    var r0 := net(0, primary);
    var after := AfterPrimary(env, name, primary, r0, net, parse);
    var log := Dispatch(env, name, payload, net, parse, hostname, now).log;
    DispatchIsLive(env, name, payload, net, parse, hostname, now);
    match r0
    case Answered(s, b) =>
      SettleEntries(name, primary, s, b, [Attempt(Primary, primary)], net, parse);
      assert log[1] == after.log[0] && log[|log| - 1] == after.log[|after.log| - 1];
    case NetFailure(err) =>
      RescueEntries(env, name, primary, err, net, parse);
      assert log[1] == after.log[0] && log[|log| - 1] == after.log[|after.log| - 1];
      assert |after.log| >= 3 ==> log[3] == after.log[2];
  }

  /** A live call is its primary request followed by what the primary reply leads to. */
  lemma DispatchIsLive(env: ClientEnv, name: string, payload: map<string, Json>,
                       net: (nat, string) -> Reply, parse: string -> Parsed,
                       hostname: string -> Option<string>, now: nat)
    requires !UseMock(env)
    ensures var primary := PrimaryUrl(env, name);
            var after := AfterPrimary(env, name, primary, net(0, primary), net, parse);
            var c := Dispatch(env, name, payload, net, parse, hostname, now);
            && c.outcome == after.outcome && c.attempts == after.attempts
            && c.log == [LogEntry(Request, "POST " + primary)] + after.log
  {
  }

  /** A transport error with no fallback configured rejects with that very
    * error after one fetch. */
  lemma TransportErrorWithoutFallback(env: ClientEnv, name: string, payload: map<string, Json>,
                                      net: (nat, string) -> Reply, parse: string -> Parsed,
                                      hostname: string -> Option<string>, now: nat)
    requires !UseMock(env) && net(0, PrimaryUrl(env, name)).NetFailure? && FallbackBase(env).None?
    ensures var c := Dispatch(env, name, payload, net, parse, hostname, now);
            c.attempts == [Attempt(Primary, PrimaryUrl(env, name))] &&
            c.outcome == Rejected(net(0, PrimaryUrl(env, name)).error)
  {
  }

  /** A caller cannot tell a success through the network fallback from a
    * success at the primary URL: a call whose primary fetch fails in
    * transport and whose fallback fetch gets reply r settles as a call whose
    * primary fetch gets r, provided the hosting fallback, if reached, fares
    * the same in both. */
  lemma {:induction false} NetworkFallbackIsTransparent(
    env: ClientEnv, name: string, payload: map<string, Json>,
    net: (nat, string) -> Reply, direct: (nat, string) -> Reply, parse: string -> Parsed,
    hostname: string -> Option<string>, now: nat)
    requires !UseMock(env)
    requires net(0, PrimaryUrl(env, name)).NetFailure? && FallbackBase(env).Some?
    requires net(1, FallbackBase(env).value + "/" + name) == direct(0, PrimaryUrl(env, name))
    requires direct(0, PrimaryUrl(env, name)).Answered?
    requires net(2, HostingUrl(name)) == direct(1, HostingUrl(name))
    ensures Dispatch(env, name, payload, net, parse, hostname, now).outcome
            == Dispatch(env, name, payload, direct, parse, hostname, now).outcome
  {
    var primary := PrimaryUrl(env, name);
    var url := FallbackBase(env).value + "/" + name;
    var r := direct(0, primary);
    var two := [Attempt(Primary, primary), Attempt(NetworkFallback, url)];
    RescuedDispatch(env, name, payload, net, parse, hostname, now);
    AnsweredDispatch(env, name, payload, direct, parse, hostname, now);
    var rescued := Settle(name, primary, r.status, r.body, two, net, parse);
    var straight := Settle(name, primary, r.status, r.body, [Attempt(Primary, primary)], direct, parse);
    assert FromFallback(name, primary, url, net, parse).outcome == rescued.outcome;
    SettleOutcome(name, primary, r.status, r.body, two, net, parse);
    SettleOutcome(name, primary, r.status, r.body, [Attempt(Primary, primary)], direct, parse);
    assert |two| == 2 && net(|two|, HostingUrl(name)) == direct(|[Attempt(Primary, primary)]|, HostingUrl(name));
    assert rescued.outcome == straight.outcome;
  }

  /** A live call whose primary fetch is answered goes on as Settle does. */
  lemma AnsweredDispatch(env: ClientEnv, name: string, payload: map<string, Json>,
                         net: (nat, string) -> Reply, parse: string -> Parsed,
                         hostname: string -> Option<string>, now: nat)
    requires !UseMock(env) && net(0, PrimaryUrl(env, name)).Answered?
    ensures var r := net(0, PrimaryUrl(env, name));
            var c := Settle(name, PrimaryUrl(env, name), r.status, r.body, [Attempt(Primary, PrimaryUrl(env, name))], net, parse);
            Dispatch(env, name, payload, net, parse, hostname, now).outcome == c.outcome &&
            Dispatch(env, name, payload, net, parse, hostname, now).attempts == c.attempts
  {
  }

  /** A live call rescued by the network fallback goes on as FromFallback does. */
  lemma RescuedDispatch(env: ClientEnv, name: string, payload: map<string, Json>,
                        net: (nat, string) -> Reply, parse: string -> Parsed,
                        hostname: string -> Option<string>, now: nat)
    requires !UseMock(env) && net(0, PrimaryUrl(env, name)).NetFailure? && FallbackBase(env).Some?
    ensures var c := FromFallback(name, PrimaryUrl(env, name), FallbackBase(env).value + "/" + name, net, parse);
            Dispatch(env, name, payload, net, parse, hostname, now).outcome == c.outcome &&
            Dispatch(env, name, payload, net, parse, hostname, now).attempts == c.attempts
  {
  }

  /** A 404 that the hosting fallback does not rescue rejects with the
    * original body's message, or "Function <name> failed with 404". */
  lemma NotFoundWithoutRescue(env: ClientEnv, name: string, payload: map<string, Json>,
                              net: (nat, string) -> Reply, parse: string -> Parsed,
                              hostname: string -> Option<string>, now: nat, body: string)
    requires !UseMock(env)
    requires net(0, PrimaryUrl(env, name)) == Answered(404, body)
    requires !(net(1, HostingUrl(name)).Answered? && IsOk(net(1, HostingUrl(name)).status))
    ensures var c := Dispatch(env, name, payload, net, parse, hostname, now);
            && c.attempts == [Attempt(Primary, PrimaryUrl(env, name)), Attempt(HostingFallback, HostingUrl(name))]
            && c.outcome == Rejected(Raise(ErrorMessage(ParseBody(body, parse), name, 404)))
    ensures !Truthy(Field(Field(ParseBody(body, parse), "error"), "message")) ==>
              Dispatch(env, name, payload, net, parse, hostname, now).outcome
              == Rejected(Raise("Function " + name + " failed with 404"))
  {
    var primary := PrimaryUrl(env, name);
    var json := ParseBody(body, parse);
    AnsweredDispatch(env, name, payload, net, parse, hostname, now);
    SettleAttempts(name, primary, 404, body, [Attempt(Primary, primary)], net, parse);
    SettleOutcome(name, primary, 404, body, [Attempt(Primary, primary)], net, parse);
    assert Verdict(Answered(404, body), name, parse) == Rejected(Raise(ErrorMessage(json, name, 404)));
    if !Truthy(Field(Field(json, "error"), "message")) {
      DefaultNotFoundMessage(json, name);
    }
  }

  /** Without a truthy message a 404 names the function and the status. */
  lemma DefaultNotFoundMessage(json: Json, name: string)
    requires !Truthy(Field(Field(json, "error"), "message"))
    ensures ErrorMessage(json, name, 404) == "Function " + name + " failed with 404"
  {
    assert NatToDecimal(404) == "404" by {
      assert NatToDecimal(4) == "4";
      assert NatToDecimal(40) == NatToDecimal(4) + [Digit(0)];
    }
  }

  /** A transport error followed by a 404 from the fallback makes three
    * fetches, the most a call makes. */
  lemma ThreeFetches(env: ClientEnv, name: string, payload: map<string, Json>,
                     net: (nat, string) -> Reply, parse: string -> Parsed,
                     hostname: string -> Option<string>, now: nat)
    requires !UseMock(env)
    requires net(0, PrimaryUrl(env, name)).NetFailure? && FallbackBase(env).Some?
    requires net(1, FallbackBase(env).value + "/" + name).Answered?
    requires net(1, FallbackBase(env).value + "/" + name).status == 404
    ensures |Dispatch(env, name, payload, net, parse, hostname, now).attempts| == 3
  {
  }

  /** With the default base a 404 sends the call back to the URL it just
    * fetched. */
  lemma HostingFallbackCanRepeatPrimary(env: ClientEnv, name: string, payload: map<string, Json>,
                                        net: (nat, string) -> Reply, parse: string -> Parsed,
                                        hostname: string -> Option<string>, now: nat)
    requires !UseMock(env) && GetBase(env) == DEFAULT_BASE
    requires net(0, PrimaryUrl(env, name)).Answered? && net(0, PrimaryUrl(env, name)).status == 404
    ensures var c := Dispatch(env, name, payload, net, parse, hostname, now);
            |c.attempts| == 2 && c.attempts[0].url == c.attempts[1].url
  {
    DefaultBaseHostingUrlIsPrimary(env, name);
  }

  /** A body that is not JSON does not crash the call: with an ok status
    * it resolves to `{raw: text}`, and an empty body resolves to null. */
  lemma LenientBody(env: ClientEnv, name: string, payload: map<string, Json>,
                    net: (nat, string) -> Reply, parse: string -> Parsed,
                    hostname: string -> Option<string>, now: nat, status: nat, body: string)
    requires !UseMock(env) && IsOk(status)
    requires net(0, PrimaryUrl(env, name)) == Answered(status, body)
    ensures body == "" ==> Dispatch(env, name, payload, net, parse, hostname, now).outcome == Resolved(JNull)
    ensures body != "" && parse(body).SyntaxError? ==>
              Dispatch(env, name, payload, net, parse, hostname, now).outcome
              == Resolved(JObj(map["raw" := JStr(body)]))
  {
    if body != "" && parse(body).SyntaxError? {
      assert Field(JObj(map["raw" := JStr(body)]), "result") == JUndefined;
    }
  }

  /** On success the value is `result` unless that is null or absent, in
    * which case it is the whole parsed body. */
  lemma SuccessValue(json: Json)
    ensures !Nullish(Field(json, "result")) ==> ResultOrBody(json) == Field(json, "result")
    ensures Nullish(Field(json, "result")) ==> ResultOrBody(json) == json
  {
  }

  // ---------------------------------------------------------------------------
  // geniusEngine.resolveWebPageTitle
  // ---------------------------------------------------------------------------

  /** `typeof r === 'string' ? r : r?.result ?? ''`. */
  function TitleOf(r: Json): Json {
    if r.JStr? then r
    else
      var inner := Field(r, "result");
      if !Nullish(inner) then inner else JStr("")
  }

  /** The title the wrapper hands back: "External Resource" whenever the call
    * rejects, a string result as it is. */
  function EngineTitle(o: Outcome): (t: Json)
    ensures o.Rejected? ==> t == JStr(EXTERNAL_RESOURCE)
    ensures o.Resolved? && o.value.JStr? ==> t == o.value
    ensures o.Resolved? && !o.value.JStr? && !Nullish(Field(o.value, "result")) ==> t == Field(o.value, "result")
    ensures o.Resolved? && !o.value.JStr? && Nullish(Field(o.value, "result")) ==> t == JStr("")
  {
    match o
    case Resolved(r) => TitleOf(r)
    case Rejected(_) => JStr(EXTERNAL_RESOURCE)
  }

  /** `${e?.message || e}`. */
  function ErrorText(e: JsError): string {
    if e.message != "" then e.message else Describe(e)
  }

  function TitlePayload(url: string): map<string, Json> {
    map["url" := JStr(url)]
  }

  /** `geniusEngine.resolveWebPageTitle(url)`: never rejects; a failed call is
    * logged and yields "External Resource". */
  method ResolveWebPageTitle(logger: Logger, env: ClientEnv, url: string,
                             net: (nat, string) -> Reply, parse: string -> Parsed,
                             hostname: string -> Option<string>, now: nat)
    returns (title: Json)
    modifies logger
    ensures var c := Dispatch(env, TITLE_OPERATION, TitlePayload(url), net, parse, hostname, now);
            && title == EngineTitle(c.outcome)
            && logger.callback == old(logger.callback)
            && logger.delivered == old(logger.delivered) + Deliveries(old(logger.callback), c.log) +
                 (if c.outcome.Rejected?
                  then [Route(old(logger.callback), LogEntry(Error, "Title resolution error: " + ErrorText(c.outcome.error)))]
                  else [])
  {
    var outcome, _ := CallFunction(logger, env, TITLE_OPERATION, TitlePayload(url), net, parse, hostname, now);
    match outcome
    case Resolved(r) =>
      title := TitleOf(r);
    case Rejected(e) =>
      logger.Log(Error, "Title resolution error: " + ErrorText(e));
      title := JStr(EXTERNAL_RESOURCE);
  }

  /** In mock mode the title is "External Resource" or names a host, and no
    * fetch is made. */
  lemma MockModeTitle(env: ClientEnv, url: string, net: (nat, string) -> Reply, parse: string -> Parsed,
                      hostname: string -> Option<string>, now: nat)
    requires UseMock(env)
    ensures var c := Dispatch(env, TITLE_OPERATION, TitlePayload(url), net, parse, hostname, now);
            && c.attempts == []
            && EngineTitle(c.outcome) == JStr(MockTitle(TitlePayload(url), hostname))
            && (url == "" ==> EngineTitle(c.outcome) == JStr(EXTERNAL_RESOURCE))
  {
  }
}
