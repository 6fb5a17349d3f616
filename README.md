# A verified model of the Genius request path

The application is a learning tool. A browser front end asks four HTTP
functions for generated content:

- a page title for a URL;
- a seven-session syllabus;
- the scoping of a session (complexity, threshold concepts, goals);
- a learning sprint.

This project models the two pieces of code that carry those requests, and
proves what they promise.

- **The client dispatcher** (`services/geminiService.ts`, module
  `GeminiService` in `gemini_service.dfy`):
  - the choice of base URL;
  - the mock-mode switch;
  - the in-browser mock handlers;
  - the logger with its replaceable callback;
  - `callFunction`'s fixed fallback chain, which tries the primary URL,
    then once the emulator or project URL after a transport error, then
    once the hosting-style `/api/<name>` after a 404;
  - the lenient reading of response bodies;
  - the never-failing `geniusEngine.resolveWebPageTitle` wrapper.
- **The HTTP functions** (`firebase/functions/src/index.ts`, module
  `CloudFunctions` in `cloud_functions.dfy`):
  - the API key lookup and the cached model client;
  - `withHttp`, which sets the CORS headers, answers OPTIONS and refuses
    methods other than POST, then wraps the handler's value or error in a
    JSON envelope;
  - the four handlers, with the normalisation each applies to the model's
    output.
- **The wire between them** (module `Protocol` in `protocol.dfy`): what a
  handler returns or throws is what the caller of `callFunction` receives.

Shared pieces:

- `wrappers.dfy`: `Option` and `Result`.
- `text.dfy`: JavaScript's `trim`, `includes`, `join` and `split`, the two
  anchored `replace` calls, and decimal formatting, written over
  `seq<char>`.
- `js.dfy`: JavaScript values as far as the code inspects them.
  - JSON plus `undefined`.
  - Truthiness, and nullishness for `??`.
  - Property reads that give `undefined`.
  - `String(v)`.
  - Error objects and the TypeError text a property read on null or
    undefined produces.

## How the model is built

Everything outside the code is an input, so every proof is about all
possible environments:

- **The network.** `net(i, url)` is the reply to the i-th fetch of one call:
  a transport error, or a status with a body text. The attempt number is
  part of the key because the same URL can be fetched twice in one call.
- **Library calls.** `parse` is `JSON.parse`, `hostname` is
  `new URL(u).hostname` (None when the constructor throws), and `now` is
  `Date.now()`.
- **The model call.** On the server, `GenReply` is what `generateContent` did:
  it threw (perhaps with a message), or it answered with an optional text.
- **Callbacks and engine values.** A logging callback is identified by a
  number. `uuid(i)` is the i-th `crypto.randomUUID()`, and `stack` is the
  stack trace the engine attaches to an Error.

`callFunction` is written twice:

- as the function `GeminiService.Dispatch`, which gives the outcome, the
  fetches made and the log entries written;
- as the imperative method `GeminiService.CallFunction`, which walks the
  chain step by step and writes to a `Logger` object as it goes.

The method's postcondition ties it to the function. The lemmas state the
chain's rules about the function: the stage order, when each fallback is
taken, the at most three fetches, the error message and the value
extraction.

The same split is used on the server:

- each handler is a function (`TitleOutcome`, `SyllabusOutcome`,
  `ScopingOutcome`, `SprintOutcome`) and a method over the client cache;
- `withHttp` is the function `Respond` and the method `WithHttp`, which
  writes to an `HttpResponse` object.

Three properties one might expect do not hold of the code, and the model
proves that they fail:

- **A call can fetch the same URL twice.** With the default base `/api`, the
  hosting-style fallback after a 404 is the primary URL itself
  (`GeminiService.HostingFallbackCanRepeatPrimary`). An emulator setting can
  also equal the primary base.
- **A mock title can contain "http".** The mock title handler puts the host
  name into the title, and a host name can contain "http"
  (`GeminiService.MockTitleCanContainHttp`). Only the server's title
  cleaning excludes "http".
- **Not every failure is logged as an error.** A call that rejects because a
  fetch threw rethrows that error without an `error` entry. This happens
  when no fallback is configured and when the fallback fetch throws
  (`GeminiService.TransportRejectionLogsNoError`). Rejections on a response
  in hand always log one, as the last entry and with the rejection's own
  message (`GeminiService.DispatchLiveLog`, `GeminiService.DispatchLogEntries`).

## Model

| member | source | states |
|---|---|---|
| GeminiService.GetBase | services/geminiService.ts:5-13 | The base URL override wins if non-empty, else the functions origin, each with one trailing slash removed; with neither it is `/api`. |
| GeminiService.TrailingSlashes | services/geminiService.ts:5-13 | Only one trailing slash goes: "a//" gives the base "a/"; `callFunction` strips one more slash before appending the name. |
| GeminiService.LiveModeIsConfigured | services/geminiService.ts:18-21 | Outside mock mode the mock switch is not "true" and at least one of the four backend settings is non-empty; with neither base setting the base is `/api`. |
| GeminiService.FallbackBase | services/geminiService.ts:116-123 | After a transport error the emulator setting, with one trailing slash removed, wins over `http://127.0.0.1:5001/<project>/us-central1`. There is no fallback when neither is set, or when the emulator setting is just "/". |
| GeminiService.DefaultBaseHostingUrlIsPrimary | services/geminiService.ts:104-140 | With the default base, the hosting-style fallback URL equals the primary URL. |
| GeminiService.UseMock | services/geminiService.ts:18-21 | Definition of `USE_MOCK_FUNCTIONS`: the switch is "true", or all four backend settings are unset or empty. `LiveModeIsConfigured` states its negation. |
| GeminiService.PrimaryUrl | services/geminiService.ts:104 | Definition of the primary URL: the base with one more trailing slash removed, then "/" and the name. `TrailingSlashes` and `DefaultBaseHostingUrlIsPrimary` state what it gives. |
| GeminiService.MockTitle | services/geminiService.ts:26-35 | "External Resource" for a missing or empty url or one `new URL` rejects; otherwise the host name without a leading "www." followed by the fixed suffix. |
| GeminiService.MockTitleCanContainHttp | services/geminiService.ts:26-35 | A host name such as httpbin.org makes the mock title contain "http". |
| GeminiService.MockSyllabus | services/geminiService.ts:36-51 | The title is "<topic or Topic> Mastery"; there are exactly seven sessions, the fixed titles in order. |
| GeminiService.MockScoping | services/geminiService.ts:52-60 | Complexity "Intermediate", eight threshold concepts, and five goals g1..g5 with their texts, each selected with priority "Useful". |
| GeminiService.MockSprint | services/geminiService.ts:61-82 | The id is "mock-<now>" and the duration 10. The threshold concepts are the payload's or the two defaults. There are eight word pairs and two quiz items, each with a correct index inside its options. |
| GeminiService.MockHandler | services/geminiService.ts:25-83 | There is a handler exactly for the four operation names, and each name maps to its own mock result. |
| GeminiService.MockOutcome | services/geminiService.ts:98-103 | A known name resolves to its handler's result; an unknown one rejects with "No mock handler for function <name>". |
| GeminiService.Route | services/geminiService.ts:87-94 | A log call goes to the installed callback when there is one; without one it goes to `console.error` for errors and `console.log` for everything else. |
| GeminiService.Logger.SetLogger | services/geminiService.ts:84-85 | Installs or removes the callback and logs nothing. |
| GeminiService.Logger.Log | services/geminiService.ts:87-94 | Appends exactly one delivery, routed by the current callback, and keeps the callback. |
| GeminiService.Dispatch | services/geminiService.ts:96-161 | Definition of `callFunction` as a value: outcome, fetches and log. Its behaviour is stated by `DispatchMock`, `DispatchAttempts`, `DispatchOutcome` and `DispatchLiveLog`. |
| GeminiService.Live | services/geminiService.ts:104-112 | Definition of the live branch: log the request, fetch the primary URL, go on with `AfterPrimary`. |
| GeminiService.AfterPrimary | services/geminiService.ts:107-130 | Definition of the split after the primary fetch: a response goes to `Settle`, a transport error to `Rescue`. |
| GeminiService.Rescue | services/geminiService.ts:113-130 | Definition of the `catch` after a transport error: rethrow without a fallback, else log and fetch it. `TransportErrorWithoutFallback` and `RescueOnLastReply` state what it gives. |
| GeminiService.FromFallback | services/geminiService.ts:124-130 | Definition of the network fallback fetch: its transport error rejects the call, its response goes to `Settle`. |
| GeminiService.Settle | services/geminiService.ts:131-160 | Definition of everything after a response is in hand. `SettleAttempts`, `SettleOutcome` and `SettleLog` state its fetches, outcome and log. |
| GeminiService.ParseBody | services/geminiService.ts:131-133 | Definition of the lenient parse: "" is null, text `JSON.parse` rejects is `{raw: text}`. `LenientBody` states it for whole calls. |
| GeminiService.ResultOrBody | services/geminiService.ts:158 | Definition of `json?.result ?? json`; `SuccessValue` states it. |
| GeminiService.ErrorMessage | services/geminiService.ts:154 | Definition of `json?.error?.message || 'Function <name> failed with <status>'`; `ErrorMessageRule` states it. |
| GeminiService.Verdict | services/geminiService.ts:131-160 | Definition of how a call settles on one reply: a transport error rejects with it, ok resolves, other statuses reject with the error-message rule. `DispatchOutcome` uses it as the reference. |
| GeminiService.DispatchAttempts | services/geminiService.ts:96-161 | Mock mode fetches nothing. A live call fetches the primary URL first and makes at most three fetches in stage order. The network fallback comes second, after a transport error from the primary and only when a fallback is configured, and then it is always made. The hosting fallback to `/api/<name>` comes right after every 404 and only then. |
| GeminiService.DispatchOutcome | services/geminiService.ts:131-160 | A live call settles on the reply to its last fetch, except that a hosting fallback that is not ok leaves the verdict of the 404 before it. |
| GeminiService.DispatchLiveLog | services/geminiService.ts:104-160 | A live call's first log entry is `request` "POST <primary URL>". There is one `request` entry per fetch except the hosting fallback, which is made without one. The last entry is a `response` exactly when the call resolves, and there is one `error` entry exactly when it rejects on a response in hand, none otherwise. |
| GeminiService.TransportRejectionLogsNoError | services/geminiService.ts:113-130 | A call that rejects because the primary fetch threw with no fallback, or because the fallback fetch threw, logs no `error` entry. |
| GeminiService.DispatchLogEntries | services/geminiService.ts:113-156 | Each transition is marked in the log. After a transport error the second entry is the "Primary function URL failed, attempting fallback" note. After a 404 on the primary the second entry is the "Received 404 … Trying hosting-style /api/<name> fallback" note. After a 404 on the network fallback that note is the fourth entry, following the fallback request. A call that rejects on a response in hand ends with an `error` entry carrying exactly the message it rejects with. |
| GeminiService.SettleEntries | services/geminiService.ts:131-157 | With a response in hand, a 404 opens the log with the hosting-fallback note, and a rejection ends it with the `error` entry carrying the rejection's message. |
| GeminiService.RescueEntries | services/geminiService.ts:113-130 | After a transport error the log opens with the failover note. A 404 from the network fallback puts the hosting-fallback note after the fallback request. A rejection on a response ends with the `error` entry. |
| GeminiService.DispatchMock | services/geminiService.ts:98-103 | In mock mode the call logs "Mocking function <name>", fetches nothing and settles as the mock table says. |
| GeminiService.CallFunction | services/geminiService.ts:96-161 | The step-by-step chain settles as `Dispatch` does and fetches the same URLs. It delivers exactly the entries of `Dispatch`'s log, in order, through the callback installed at the start, and leaves the callback alone. |
| GeminiService.CallMock | services/geminiService.ts:98-103 | Mock dispatch gives the handler's result or the "No mock handler" error. |
| GeminiService.CallLive | services/geminiService.ts:104-112 | Logs the primary request, fetches the primary URL as the first fetch and carries on. The outcome, fetches and delivered entries equal `Live`'s, and the callback is unchanged. |
| GeminiService.Proceed | services/geminiService.ts:113-131 | The branch after the primary fetch goes to the fallback on a transport error and to the response handling otherwise. The outcome, fetches and delivered entries equal `AfterPrimary`'s. |
| GeminiService.FetchFallback | services/geminiService.ts:124-130 | The fallback fetch is the second fetch. If it throws, the call rejects with that error and logs nothing more; otherwise the response is handled. The outcome, fetches and delivered entries equal `FromFallback`'s. |
| GeminiService.TryFallback | services/geminiService.ts:113-130 | After a transport error: reject with that error when no fallback is configured, reject with the fallback's own transport error, or go on with the fallback's response. The log entries match the chain's. |
| GeminiService.HandleResponse | services/geminiService.ts:131-160 | With a response in hand: ok resolves to `result ?? json`. A 404 tries `/api/<name>` once and returns its result only if it is ok. Any other failure rejects with the error-message rule applied to the original body and status. |
| GeminiService.SettleAttempts | services/geminiService.ts:134-152 | A response in hand leads to one more fetch exactly when its status is 404. |
| GeminiService.SettleOutcome | services/geminiService.ts:134-157 | After a 404 the outcome is the fallback's verdict if the fallback is ok, and the original response's verdict otherwise, even when the fallback threw. |
| GeminiService.LiveAttemptsRules | services/geminiService.ts:104-152 | The case-by-case list of fetches satisfies the stage-order and fallback rules. |
| GeminiService.TransportErrorWithoutFallback | services/geminiService.ts:113-122 | A transport error with no fallback rejects with the very same error after one fetch. |
| GeminiService.NetworkFallbackIsTransparent | services/geminiService.ts:113-160 | A call rescued by the network fallback settles exactly as a call whose primary fetch had received the fallback's reply. |
| GeminiService.NotFoundWithoutRescue | services/geminiService.ts:134-157 | A 404 that the hosting fallback does not rescue makes two fetches. It rejects with the original body's error message, or with "Function <name> failed with 404". |
| GeminiService.ThreeFetches | services/geminiService.ts:104-152 | A transport error followed by a 404 from the fallback makes three fetches. |
| GeminiService.HostingFallbackCanRepeatPrimary | services/geminiService.ts:104-140 | With the default base, a 404 makes the call fetch the same URL twice. |
| GeminiService.LenientBody | services/geminiService.ts:131-133 | Body parsing never fails: with an ok status an empty body resolves to null and an unparseable one to `{raw: text}`. |
| GeminiService.ErrorMessageRule | services/geminiService.ts:154-156 | A failed call's message is the body's `error.message` when that is a non-empty string. With no truthy message it is "Function <name> failed with <status>". |
| GeminiService.SuccessValue | services/geminiService.ts:158-160 | A success yields `result` unless it is null or absent; then it yields the whole parsed body. |
| GeminiService.TitleOf | services/geminiService.ts:168 | Definition of `typeof r === 'string' ? r : r?.result ?? ''`; `EngineTitle` states it. |
| GeminiService.ErrorText | services/geminiService.ts:170 | Definition of `e?.message || e` for the title error entry; `ResolveWebPageTitle` states where it is logged. |
| GeminiService.EngineTitle | services/geminiService.ts:165-173 | A rejected call gives "External Resource" and a string result is the title. Otherwise the title is the result's `result` field, or "" when that is null or absent. |
| GeminiService.ResolveWebPageTitle | services/geminiService.ts:165-173 | The wrapper always returns a title, never an error. The call's entries are logged, plus one error entry "Title resolution error: <message>" exactly when the call rejected. |
| GeminiService.MockModeTitle | services/geminiService.ts:165-168 | In mock mode the wrapper fetches nothing and returns the mock title, which is "External Resource" for an empty url. |
| CloudFunctions.GetApiKey | firebase/functions/src/index.ts:7-24 | The environment key wins over the config key. The call throws the "GEMINI_API_KEY is missing…" error exactly when neither is non-empty. A key returned is never empty. |
| CloudFunctions.ClientCache.constructor | firebase/functions/src/index.ts:26-27 | The cache starts with no key and no client. |
| CloudFunctions.ClientCache.GetClient | firebase/functions/src/index.ts:29-37 | A missing key throws and leaves the cache alone. Otherwise the cached client is reused exactly when one exists for the same key; if not, a fresh client is built with the key. In both cases the cached key is the key afterwards. |
| CloudFunctions.PayloadOf | firebase/functions/src/index.ts:63 | Definition of the payload: the request body, or `{}` when the body is falsy. |
| CloudFunctions.Envelope | firebase/functions/src/index.ts:62-79 | Definition of the POST envelope: 200 `{result}`, or 500 `{error: {message, stack}}` with the defaults. `EnvelopeStatus` and `EnvelopeDefaults` state it. |
| CloudFunctions.Respond | firebase/functions/src/index.ts:52-80 | OPTIONS gives 204 with an empty body and never runs the handler. Any other method except POST gives 405 with "Method not allowed. Use POST.". A POST gives 200 `{result}` or 500 `{error: {message, stack}}`. |
| CloudFunctions.EnvelopeStatus | firebase/functions/src/index.ts:52-80 | The status is always 200, 204, 405 or 500. A POST gets 200 exactly when the handler returns. A 500 always carries a non-empty message and stack. |
| CloudFunctions.EnvelopeDefaults | firebase/functions/src/index.ts:66-79 | The error's own message and stack are passed on; missing or empty ones become "Unexpected error" and "No stack trace available". |
| CloudFunctions.WithHttp | firebase/functions/src/index.ts:44-81 | Every response gets the three CORS headers. The status and body written are what `Respond` says, and the handler runs exactly for a POST. |
| CloudFunctions.AllowCors | firebase/functions/src/index.ts:48-50 | The three `res.set` calls add exactly the CORS headers (allow any origin, the Content-Type and Authorization headers, and POST and OPTIONS) and touch neither the status nor the body. |
| CloudFunctions.ParseText | firebase/functions/src/index.ts:209 | `JSON.parse(response.text ?? '{}')`: only a missing text reads as the empty object; any present text, even "", goes to `JSON.parse`. The same expression is used at index.ts:267 and :383. |
| CloudFunctions.Rethrow | firebase/functions/src/index.ts:157-160 | A failure in the `try` is rethrown with its own message if non-empty, else with exactly the handler's fixed text, so the message is never empty; the new Error carries the engine's stack. |
| CloudFunctions.StripQuotes | firebase/functions/src/index.ts:150 | At most one leading and one trailing `"` are removed, and the rest is kept as it is. |
| CloudFunctions.CleanTitle | firebase/functions/src/index.ts:149-156 | A cleaned title never contains "http". |
| CloudFunctions.CleanTitleOrigin | firebase/functions/src/index.ts:149-156 | Any title other than "External Resource" is the model's non-empty trimmed text with its end quotes stripped. |
| CloudFunctions.CleanTitleDefault | firebase/functions/src/index.ts:149 | No text, or text that is all white space, gives "External Resource". |
| CloudFunctions.CleanTitleTwoQuotes | firebase/functions/src/index.ts:149-150 | The default is applied before the quotes are stripped, so a reply of two quotes gives "". |
| CloudFunctions.CleanTitleKeepsCleanTitle | firebase/functions/src/index.ts:149-156 | A trimmed, unquoted title without "http" comes through unchanged. |
| CloudFunctions.CleanTitleKeepsStrippedText | firebase/functions/src/index.ts:149-156 | Conversely to `CleanTitleOrigin`: a reply whose trimmed text is non-empty and whose stripped text has no "http" becomes exactly that stripped text, quoted or padded or not. |
| CloudFunctions.TitleOutcome | firebase/functions/src/index.ts:118-161 | Definition of the title handler's outcome. `TitleOutcomeProperties` and `RequiredFieldFirst` state it; the method `ResolveWebPageTitle` is proved against it. |
| CloudFunctions.TitleOutcomeProperties | firebase/functions/src/index.ts:118-161 | A returned title is a string without "http". The handler throws exactly on a missing url, a missing key or a failed model call, and a missing url throws "`url` is required.". |
| CloudFunctions.ResolveWebPageTitle | firebase/functions/src/index.ts:118-161 | The handler's outcome is `TitleOutcome`, and the model is consulted exactly when the url and the key are there. A missing url or key leaves the cache alone; otherwise the cache holds the key. |
| CloudFunctions.ShapeSyllabus | firebase/functions/src/index.ts:209-213 | The title is the model's if truthy, else the topic. The sessions are the first min(7, n) elements of the model's array, in order, or [] without an array. Null data throws the TypeError for reading `title`. |
| CloudFunctions.SyllabusOutcome | firebase/functions/src/index.ts:163-219 | Definition of the syllabus handler's outcome. `SyllabusOutcomeBounds` and `RequiredFieldFirst` state it; `GenerateSyllabus` is proved against it. |
| CloudFunctions.SyllabusOutcomeBounds | firebase/functions/src/index.ts:163-219 | A missing topic throws "`topic` is required.". A returned syllabus has a truthy title and at most seven sessions. |
| CloudFunctions.GenerateSyllabus | firebase/functions/src/index.ts:163-219 | The handler's outcome is `SyllabusOutcome`; the model is consulted exactly when the topic and the key are there, and the cache changes as for the title handler. |
| CloudFunctions.ShapeScoping | firebase/functions/src/index.ts:267-282 | The goals follow the model's goal texts one for one, in order, with ids uuid(0), uuid(1), …, each selected with priority "Useful", or [] without an array. The complexity defaults to "Intermediate". The threshold concepts are the model's array or []. Null data throws. |
| CloudFunctions.ScopedGoal | firebase/functions/src/index.ts:270-275 | A scoped goal carries the given id and goal text, is selected and has priority "Useful". |
| CloudFunctions.ScopingOutcome | firebase/functions/src/index.ts:221-287 | Definition of the scoping handler's outcome, including the `prefs.learningStyle` read outside the `try`. `ScopingOutcomeShape` and `RequiredFieldFirst` state it; `PerformInitialScoping` is proved against it. |
| CloudFunctions.ScopingOutcomeShape | firebase/functions/src/index.ts:267-282 | A scoping the handler returns has an array of goals, every one selected with priority "Useful", a truthy complexity and an array of threshold concepts. |
| CloudFunctions.PerformInitialScoping | firebase/functions/src/index.ts:221-287 | The handler's outcome is `ScopingOutcome`. A null `prefs` throws the TypeError after the key lookup and before the model call. The cache changes as for the title handler. |
| CloudFunctions.SelectGoals | firebase/functions/src/index.ts:298 | The filter throws exactly when a goal is null or undefined. A goal is in the result exactly when it is in the list and selected, and the result is never longer than the list. |
| CloudFunctions.GoalList | firebase/functions/src/index.ts:298 | `(scopingData.goals \|\| [])`: reading `goals` of null or undefined scoping data throws the read error; a falsy `goals` gives the empty list; a truthy `goals` that is not an array makes `filter` throw; otherwise the list is the array's items. |
| CloudFunctions.SelectGoalsAppend | firebase/functions/src/index.ts:298 | Filtering distributes over concatenation, so the selected goals keep their original order. |
| CloudFunctions.GoalLine | firebase/functions/src/index.ts:299 | Definition of one line `- [<priority>] <text>`. |
| CloudFunctions.GoalContext | firebase/functions/src/index.ts:299 | Definition of the lines joined with "\n"; `GoalContextLines` states what it holds. |
| CloudFunctions.GoalContextLines | firebase/functions/src/index.ts:299 | The goal context is empty exactly when no goal is selected. Without newlines inside the goals it splits back into one `- [<priority>] <text>` line per selected goal, in order. |
| CloudFunctions.TemplateError | firebase/functions/src/index.ts:305-320 | Definition of the later template reads, `priming.relevance`, `prefs.complexityPreference` and `scopingData.thresholdConcepts.join`, and the TypeError of the first that throws. |
| CloudFunctions.SprintContext | firebase/functions/src/index.ts:290-325 | Definition of what the sprint prompt does before the `try`: the goal context, or the first TypeError. `SprintContextSelected` states it for well-formed input. |
| CloudFunctions.SprintContextSelected | firebase/functions/src/index.ts:298-325 | With well-formed scoping data, priming and preferences, the context given to the model is the formatted list of exactly the selected goals. |
| CloudFunctions.Spread | firebase/functions/src/index.ts:384 | Definition of the properties `...data` copies: an object's own properties, an array's items or a string's characters by index, nothing for other values. `ShapeSprint` states the result in terms of it. |
| CloudFunctions.ShapeSprint | firebase/functions/src/index.ts:383-388 | Every property of the model's data except `id` and `duration` passes through unchanged, and no other key is added. `id` gets a fresh id and `duration` 10 when the model's are falsy. Null data throws. |
| CloudFunctions.ShapeSprintDefaults | firebase/functions/src/index.ts:386-387 | A returned sprint always has a truthy id and duration. |
| CloudFunctions.SprintOutcome | firebase/functions/src/index.ts:289-393 | Definition of the sprint handler's outcome. `SprintOutcomeShape` and `RequiredFieldFirst` state it; `GenerateSprintContent` is proved against it. |
| CloudFunctions.SprintOutcomeShape | firebase/functions/src/index.ts:383-388 | With a non-empty fresh id, a sprint the handler returns is an object with a truthy id and a truthy duration. |
| CloudFunctions.GenerateSprintContent | firebase/functions/src/index.ts:289-393 | The handler's outcome is `SprintOutcome`. The model is consulted exactly when the topic and the key are there and the prompt's reads succeed. The cache changes as for the title handler. |
| CloudFunctions.RequiredFieldFirst | firebase/functions/src/index.ts:118-295 | Each handler throws "`url` is required." or "`topic` is required." when its field is missing or empty, before the key lookup. For each of the four handlers a missing key comes next, with the key error. |
| Protocol.ReturnedValueReachesClient | firebase/functions/src/index.ts:62-65 | A value a handler returns reaches the caller of `callFunction` unchanged, unless it is null or undefined; then the caller gets the `{result}` envelope itself. |
| Protocol.ThrownMessageReachesClient | firebase/functions/src/index.ts:66-79 | A handler's error makes the caller's promise reject with the server's message, or with "Unexpected error". |
| Protocol.MethodNotAllowedReachesClient | firebase/functions/src/index.ts:57-60 | A method other than POST or OPTIONS makes the caller reject with "Method not allowed. Use POST.". |
| Protocol.LiveTitle | services/geminiService.ts:165-173 | End to end, a live title the title function produced reaches the page as a string without "http", and a title function that throws gives "External Resource". |
| Text.Trim | firebase/functions/src/index.ts:149 | `trim` cuts only white space from both ends, and the result starts and ends with a non-space character. |
| Text.TrimEmptyIffAllSpace | firebase/functions/src/index.ts:149 | The trimmed text is empty exactly when the text is all white space. |
| Text.ContainsIff | firebase/functions/src/index.ts:152 | `includes` finds the pattern exactly when it occurs at some index. |
| Text.SplitJoin | firebase/functions/src/index.ts:299 | Splitting on a separator character undoes a `join` of pieces that do not contain it. |

## Left out

- **Time and concurrency.** The `sleep` delays of the mock handlers and all
  of the asynchrony are left out. Each call is one uninterrupted step, and
  interleaved calls sharing the logger or the client cache are not
  modelled.
- **Request bodies.** `JSON.stringify(payload || {})` is not modelled. The
  reply oracle does not depend on the payload, which is only passed to the
  mock handlers.
- **The third argument of `log`.** The data argument is not modelled, nor is
  the `[GENIUS]` console prefix. A log entry is its kind and message.
- **Reading the body.** A `res.text()` that fails is not modelled. It would
  reject the call, or be swallowed on the hosting fallback.
- **The `://` replacement.** The `.replace(/:\/\//, '://')` in the URL
  construction is the identity, so it is left out.
- **Numbers.** JSON numbers are integers. Fractions, NaN and the exponent
  notation of `String(n)` are not modelled, so `duration || 10` is only
  modelled for integers.
- **Server logging.** `functions.logger` calls are left out.
- **Deployment.** `functions.region` and the deployment setup are left out.
- **`functions.config()`.** It is taken to return normally.
- **`new GoogleGenAI`.** Building a client is taken to succeed.
- **The model call.** The prompt texts, the response schemas and the model
  name are text passed to the model, which is an input here. Only the
  sprint prompt's goal context and the property reads that can throw while
  the prompt is built are modelled.
- **TypeErrors.** Only those from property reads on null or undefined are
  modelled, plus the two "is not a function" errors of the sprint prompt.
  Their texts are V8's wording.
- **Strings and arrays as scoping data.** A string or array given as
  `scopingData` reads `goals` and `thresholdConcepts` as missing, as an
  object without them would.
- **Error values.** A thrown value is its message and stack, both optional.
  `${err}` of a transport error is Error.prototype.toString.
- **The stack trace.** The stack is an input, so its text is not modelled.
- **Inherited names in the mock table.** `mockHandlers[name]` for a name
  inherited from Object.prototype (such as "toString") finds an inherited
  function. The model treats every name outside the four operations as
  unknown.
- **Other engine wrappers.** `geniusEngine.generateSyllabus`,
  `performInitialScoping` and `generateSprintContent` only call
  `callFunction` and cast its result, so they are covered by
  `GeminiService.CallFunction`.
- **`firebase/functions/lib/index.js`.** It is the compiled copy of the
  server source and is not part of this model.
- **`vite.config.ts`.** It is dev-server configuration and is not part of
  this model.
- CloudFunctions.Spread: a string spreads into one property per `char`.
  JavaScript spreads UTF-16 code units, so strings outside the Basic
  Multilingual Plane are not modelled.
- **Undefined in the envelope.** `JSON.stringify` drops a `result` that is
  undefined. The `Protocol` lemmas take `parse` to return exactly the value
  sent, so they treat an undefined result like a null one.
- CloudFunctions.CleanTitle: the contract states only that the title is free
  of "http". The rest of the cleaning is stated by lemmas:
  `CleanTitleOrigin` (a title other than the default is the stripped
  reply), `CleanTitleKeepsStrippedText` (the converse), `CleanTitleDefault`
  and `CleanTitleTwoQuotes`.
