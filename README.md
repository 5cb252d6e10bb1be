# Multi-provider chat service and analytics endpoints, in Dafny

This project models the core of a chat application.

**Chat side.** `AIService` answers a chat message through one of five AI providers: Gemini, Groq, OpenRouter, Hugging Face and OpenAI.
- A request either pins a provider (explicit mode) or lets the service walk a fixed priority list (automatic mode).
- In automatic mode the walk skips unconfigured providers and providers still inside a five-minute cooldown, and stops at the first success.
- A failure whose message reads as a rate limit puts its provider on cooldown.
- The Hugging Face adapter walks sixteen models in a fixed order.
- The provider registry builds each provider's configuration from the build environment.

**Analytics side.** Four serverless endpoints:
- one ingests usage events;
- three aggregate stored events into per-provider statistics, per-day and per-hour counts, session spans, error tallies and a latency profile.

The modules follow the source files:

| module | file | source |
|---|---|---|
| `Providers` | `providers.dfy` | the registry, `src/services/aiProviders.ts` |
| `Adapters` | `adapters.dfy` | what each provider adapter of `src/services/aiService.ts` makes of a remote reply, including the Hugging Face model walk as a recursive reference |
| `AiService` | `ai_service.dfy` | the `AIService` class: its cooldown map as a field, its methods with their loops, each proved against a specification function (`CheckRateLimit`, `HuggingFaceFrom`, `ExplicitRun`, `AutoWalk`, `ChatRun`) |
| `ChatProperties` | `chat_properties.dfy` | what `getChatResponse` promises, proved about those specification functions |
| `Dicts` | `dicts.dfy` | JavaScript objects used as dictionaries (keys in insertion order), and the counting loop `d[k] = (d[k] \|\| 0) + 1` |
| `Analytics` | `analytics.dfy` | the stored event, the per-provider grouping loops shared by three endpoints, their formatted rows, `Math.round` of a mean |
| `Dashboard` | `dashboard.dfy` | `api/dashboard.ts` |
| `ProvidersEndpoint` | `providers_api.dfy` | `api/providers.ts` |
| `InsightsEndpoint` | `insights.dfy` | `api/insights.ts` |
| `EventsEndpoint` | `events.dfy` | `api/events.ts` |
| `Strings`, `Wrappers` | | substring search, `join`, `trim`, decimal rendering, `Option` |

Inputs from outside are parameters:
- the environment;
- each backend's reply (a `Reply`: unreachable, or an HTTP status with a parsed or unparsable body);
- the clock reading `now`;
- the rows the database returns (a sequence of `StoredEvent`);
- the calendar day and hour of a timestamp;
- `JSON.stringify`;
- the database insert.

The code and its own comments disagree on one point. The class comment lists the fallback order as Gemini, Groq, OpenRouter, Hugging Face. The code tries Groq, Gemini, OpenRouter, Hugging Face, OpenAI. The model follows the code (`AiService.Priority`).

## Model

| member | source | states |
|---|---|---|
| Providers.Registry | src/services/aiProviders.ts:18-74 | every provider has an entry; it is the configuration built from the source's constants and the provider's environment variable (`|| ""` when unset) |
| Providers.NamesMatchKeys | src/services/aiProviders.ts:18-74 | each entry's `name` field equals its key |
| Providers.DeclarationOrderComplete | src/services/aiProviders.ts:18-74 | the declaration order lists each of the five providers exactly once |
| Providers.NameInjective | src/services/aiProviders.ts:1-6 | different providers have different names |
| Providers.GetProvider | src/services/aiProviders.ts:82-84 | `getProvider` returns the registry entry, whose name is the requested provider |
| Providers.AvailableProvidersExact | src/services/aiProviders.ts:76-80 | `getAvailableProviders` returns exactly the configurations with `available` set and a non-empty key, in declaration order |
| Providers.ConfiguredIdsSubsequence | src/services/aiProviders.ts:76-80 | the filter keeps declaration order |
| Providers.MissingKeyExcludes | src/services/aiProviders.ts:24-80 | a missing or empty environment key gives an empty `apiKey`, and the provider is not available |
| AiService.CheckRateLimitMeaning | src/services/aiService.ts:24-36 | `isRateLimited` answers true iff the entry exists, is non-zero and is at most 300000 ms old; only an expired entry of that provider is deleted, and every other entry is unchanged |
| AiService.CooldownWindow | src/services/aiService.ts:22-36 | after a mark at `t0 != 0` the provider is suppressed exactly while `now - t0 <= 300000`; afterwards the check answers false and deletes the entry; a mark at time 0 reads as absent |
| AiService.AIService.IsRateLimited | src/services/aiService.ts:24-36 | the method answers `Suppressed` and leaves the map `CheckRateLimit` describes |
| AiService.AIService.MarkRateLimited | src/services/aiService.ts:38-45 | upsert: the provider's entry becomes `now`; every other entry is unchanged |
| AiService.AIService.CallGemini | src/services/aiService.ts:67-88 | the Gemini adapter's outcome; a 429 marks "gemini" before the error, and nothing else changes the map |
| Adapters.Gemini429 | src/services/aiService.ts:71-78 | a Gemini 429 marks the provider and fails with a message containing "rate limit" |
| AiService.AIService.CallHuggingFace | src/services/aiService.ts:156-241 | the loop returns the outcome of the recursive walk `HuggingFaceOutcome` and tries the same models; before each iteration `failedModels` is exactly the models already tried |
| Adapters.HuggingFaceFirstAnswer | src/services/aiService.ts:184-222 | when models before `k` fail and model `k` answers with a 2xx status, the walk stops at `k` with the trimmed text, the sorry text, or the degraded notice, having tried exactly the models up to `k` |
| Adapters.HuggingFaceAllFail | src/services/aiService.ts:236-240 | when all sixteen models fail, the walk throws one error after trying all sixteen |
| Adapters.AllModelsFailedNamesEach | src/services/aiService.ts:236-240 | that error names every failed model |
| Adapters.FallbackIsLast | src/services/aiService.ts:161-180 | there are sixteen models, and `facebook/bart-large-cnn` is the last and only the last |
| Adapters.HuggingFaceDegraded | src/services/aiService.ts:206-213 | when the fifteen chat models fail and the fallback answers, the outcome is the degraded notice naming each of the fifteen |
| Adapters.DegradedNoticeNamesEach | src/services/aiService.ts:210-212 | the degraded notice names every failed model |
| Adapters.StatusErrorNamesStatus | src/services/aiService.ts:108-116 | the Groq/OpenRouter error text contains the decimal status |
| Adapters.ChatBackends429 | src/services/aiService.ts:108-149 | a 429 from Groq or OpenRouter fails with a message containing "429", so automatic mode marks them |
| Adapters.OpenAI429 | src/services/aiService.ts:273-277 | an OpenAI 429 fails with the quota text followed by the error body's message |
| AiService.AIService.Invoke | src/services/aiService.ts:322-346 | the dispatch runs the adapter of the named provider; only Gemini's own mark changes the map |
| AiService.AIService.GetChatResponse | src/services/aiService.ts:305-440 | the response, the new cooldown map and the adapters run are those of `ChatRun`; explicit mode runs at most one adapter |
| AiService.AIService.GetPinnedResponse | src/services/aiService.ts:309-361 | explicit mode as `ExplicitRun` |
| AiService.AIService.TryProvider | src/services/aiService.ts:374-430 | one loop iteration as `AutoStep`: skipped, answered, or failed and passed over, with the map that step leaves |
| AiService.AIService.Fallback | src/services/aiService.ts:374-439 | the fallback loop equals `AutoWalk` over the candidates |
| ChatProperties.ExplicitUnavailable | src/services/aiService.ts:309-318 | an unconfigured pinned provider: no adapter runs, the map is unchanged, and the response has `provider` = the name and error "<displayName> is not available" |
| ChatProperties.ExplicitConfigured | src/services/aiService.ts:320-360 | a configured pinned provider: exactly its adapter runs; the response is the same for every cooldown map; it carries the adapter's text or its error message under the display name |
| ChatProperties.GeminiMarksWhenPinned | src/services/aiService.ts:71-78 | a pinned Gemini answering 429 marks "gemini" and fails with a message containing "rate limit" |
| ChatProperties.WorldOfCoherent | src/services/aiService.ts:71-78 | Gemini marks itself only when it fails with a rate-limit message |
| ChatProperties.PriorityDistinct | src/services/aiService.ts:366-372 | the priority list holds each provider once |
| ChatProperties.StepEligible | src/services/aiService.ts:374-417 | an automatic step runs the adapter iff the provider is configured and not suppressed; it answers iff, in addition, the adapter succeeds |
| ChatProperties.StepFrame | src/services/aiService.ts:374-430 | a step touches only its own provider's entry; a skip touches nothing |
| ChatProperties.StepFailureMarks | src/services/aiService.ts:418-430 | after a failed step, a rate-limit message leaves the provider marked at `now`; any other failure leaves it outside its cooldown |
| ChatProperties.FirstAnswerFacts | src/services/aiService.ts:374-439 | the reference stops at the first answer: a prefix of the candidates, all failures before the last; it succeeds iff some candidate answers |
| ChatProperties.CandidatesSubsequence | src/services/aiService.ts:374-385 | the eligible candidates keep priority order |
| ChatProperties.AutoWalkIsReference | src/services/aiService.ts:374-439 | the walk runs exactly the eligible providers up to the first that answers, and responds with that answer |
| ChatProperties.AutoWalkFrame | src/services/aiService.ts:374-430 | providers the walk did not call keep their cooldown entry |
| ChatProperties.AutoWalkMarks | src/services/aiService.ts:418-430 | every called provider that failed is marked at `now` iff its message contains "rate limit" or "429"; otherwise it is outside its cooldown |
| ChatProperties.AutomaticMode | src/services/aiService.ts:366-439 | for any provider configurations and adapter outcomes, automatic mode calls, in priority order, the eligible providers up to the first success; none after it; every earlier one failed; success iff an eligible provider answers; otherwise all eligible were tried and the fixed "All AI providers failed" response returns |
| ChatProperties.AutomaticSkips | src/services/aiService.ts:374-385 | an unconfigured or suppressed provider is never called in automatic mode |
| ChatProperties.AutomaticCooldowns | src/services/aiService.ts:418-430 | a failed call is marked iff its message reads as a rate limit; providers not called keep their entry |
| ChatProperties.CooldownAcrossRequests | src/services/aiService.ts:382-426 | a provider rate-limited by one automatic request is not called by a later automatic request within five minutes |
| Dicts.CountOne | api/dashboard.ts:119 | the callback `counts[k] = (counts[k] \|\| 0) + 1`: counting one more `k` turns the tally of the items so far into the tally with `k` appended, and the counts add up to one more |
| Dicts.Tally | api/dashboard.ts:116-120 | the counting loop: keys in first-occurrence order; each count is the number of occurrences and at least 1; the counts add up to the number of items |
| Analytics.Where | api/providers.ts:13-24 | a `where` clause keeps exactly the rows satisfying it |
| Analytics.NamedMembers | api/providers.ts:29-30 | a provider gets an entry iff some event names it with a non-empty value (names `Object.prototype` defines excepted: see "## Left out") |
| Analytics.CallsOfInOrder | api/providers.ts:54-56 | a provider's events, and so its timestamps, are listed in input order, and none is missed |
| Analytics.CallsPartition | api/providers.ts:42-48 | each call is counted once as a success or a failure, and contributes its own timestamp |
| Analytics.DurationTotalOfPresent | api/providers.ts:50-52 | skipping null and zero durations leaves the sum of all present durations unchanged |
| Analytics.GroupProviderData | api/providers.ts:27-57 | the grouping loop: one entry per provider in first-appearance order, each summarising exactly its events; successes + failures = calls = number of timestamps >= 1; the calls add up to the events with a provider; this is the loop with one entry per name, which the source evidently intends (see "## Findings") |
| Analytics.GroupProviderStats | api/insights.ts:26-46 | the statistics loop: one entry per provider summarising exactly its events; successes <= calls; the calls add up to the events with a provider (names `Object.prototype` defines excepted: see "## Left out") |
| Analytics.GroupOnPlainObject | api/providers.ts:27-57 | the loop as written, on a plain `{}`: until it throws, what it has built is the grouping of the events so far |
| Analytics.PlainObjectThrows | api/providers.ts:29-57 | as written, the loop throws iff some counted event names a provider that `Object.prototype` defines |
| Analytics.ConstructorProviderThrows | api/providers.ts:29-57 | one event with provider "constructor" makes the loop as written throw, while the corrected grouping gives it an entry |
| Analytics.RoundedMean | api/providers.ts:67-70 | `Math.round(total / calls)`, 0 when there is no call: the result lies within half a unit of the mean, halves rounding up |
| Analytics.RoundedMeanUnique | api/providers.ts:67-70 | only one integer lies within half a unit of the mean |
| Analytics.RoundedMeanBounds | api/insights.ts:54-57 | when every value lies in `[lo, hi]`, so does the rounded average |
| Analytics.FormatProviderData | api/providers.ts:59-73 | the formatted rows are the grouped entries, one per provider, in order |
| Analytics.DataRowsFacts | api/providers.ts:27-73 | each provider appears in one row; exactly the named providers appear; each row's counts agree with its events; its timestamps are its events' in input order; its average is the rounded mean; the rows' calls add up to the events with a provider (names `Object.prototype` defines excepted: see "## Left out") |
| Analytics.FormatProviderStats | api/insights.ts:49-59 | the formatted statistics rows are the grouped entries, one per provider, in order |
| Analytics.StatsRowsFacts | api/insights.ts:26-59 | each provider appears in one row; exactly the named providers appear; each row counts its events (at least one); its average is the rounded mean; the calls add up (names `Object.prototype` defines excepted: see "## Left out") |
| ProvidersEndpoint.ApiCallsOf | api/providers.ts:13-30 | a provider's counted calls are exactly its `api_call` events with a non-empty provider |
| ProvidersEndpoint.Handle | api/providers.ts:6-80 | 405 iff the method is not GET; 500 iff the database fails, with the grouping corrected as in "## Findings"; otherwise one row per provider of the `api_call` events, as `DataRows` describes |
| InsightsEndpoint.Handle | api/insights.ts:6-93 | 405 iff not GET; 500 iff the database fails; otherwise statistics rows over every event with a provider, and per-day counts of the last seven days that add up to the number of those events (names `Object.prototype` defines excepted: see "## Left out") |
| Dashboard.SessionSpans | api/dashboard.ts:201-221 | one span per session; `first`/`last` are the earliest and latest timestamps of that session's events; both occur; every event lies between them (names `Object.prototype` defines excepted: see "## Left out") |
| Dashboard.MinMaxOf | api/dashboard.ts:207-221 | the running minimum and maximum are the least and greatest timestamps and both occur |
| Dashboard.SpanSum | api/dashboard.ts:223-228 | the summed spans are the summed spreads of the sessions |
| Dashboard.SortAscending | api/dashboard.ts:240-243 | `sort((a, b) => a - b)` yields an ascending permutation of the durations |
| Dashboard.BucketsPartition | api/dashboard.ts:246-248 | fast, normal and slow requests add up to the number of durations |
| Dashboard.PerformanceFacts | api/dashboard.ts:240-254 | buckets partition the durations; min <= median <= max, all three occurring, and every duration lies between min and max; all 0 when there is none |
| Dashboard.PeakScanFacts | api/dashboard.ts:272-273 | the reduce keeps the latest hour of maximal count among the hours scanned |
| Dashboard.PeakHourFacts | api/dashboard.ts:272-273 | `peakHour` is 0 with no event today; otherwise an hour of maximal count, with every later hour strictly smaller (ties go to the later hour) |
| Dashboard.NamedLength | api/dashboard.ts:233-237 | events without a (non-empty) provider are not tallied; with none such, all are |
| Dashboard.UsageOf | api/dashboard.ts:12-44 | total events; the tally of event types; events and distinct sessions of the last 24 hours |
| Dashboard.EngagementOf | api/dashboard.ts:189-228 | number of sessions with events; events per session as a rounded mean; mean session spread in minutes, rounded (names `Object.prototype` defines excepted: see "## Left out") |
| Dashboard.ErrorsOf | api/dashboard.ts:230-237 | total errors = failed provider events; per-provider tally of them, adding up to at most that total, and exactly to it when no provider is "" (names `Object.prototype` defines excepted: see "## Left out") |
| Dashboard.Handle | api/dashboard.ts:6-290 | 405 iff not GET; 500 iff the database fails, with the grouping corrected as in "## Findings"; otherwise every field of the report as its loop or query computes it: total events, the session count, the type tally, the recent events and sessions; statistics and data rows over the week's provider events; the day and hour tallies, each adding up to its events; the peak hour; sessions with events, events per session and mean session spread; total errors and their per-provider tally, adding up to at most the total and exactly when no provider is ""; the performance profile (names `Object.prototype` defines excepted: see "## Left out") |
| EventsEndpoint.Ingest | api/events.ts:6-37 | 405 iff not POST; 400 iff a destructurable body lacks a truthy `sessionId` or `eventType`; a stored record keeps those two; a falsy provider or duration becomes null, truthy ones are kept; `success` defaults to true only when undefined; metadata is stored as its JSON text iff truthy |
| EventsEndpoint.DefaultsIdempotent | api/events.ts:25-28 | posting a stored record's fields again stores the same session, type, provider, success and duration |

## Left out

- Network I/O, `fetch`, JSON parsing of provider responses and `console` logging. Each backend's reply is a parameter, and each Hugging Face model's reply is fixed for the request.
- `window.location.origin` in the OpenRouter headers: it does not affect any outcome.
- The wording of the runtime `TypeError` on a missing response field: it is one constant message.
- One clock reading `now` per request. The source calls `Date.now()` separately in each check and mark.
- Concurrent `getChatResponse` calls interleaving on the shared map: each call is one sequential run.
- The `Unknown provider` branch of explicit mode: the provider type is an enumeration, so the branch cannot happen.
- Adapters.OpenAI429: does not prove that the 255-character OpenAI quota text contains neither "rate limit" nor "429", so it does not state that an OpenAI 429 reads as a rate limit exactly when the error body's message does. Only the exact message is stated. The fact needs character-by-character reasoning over that literal, and the solver cannot do that within the resource bound every proof here meets.
- Floating point:
  - the `successRate` percentages of every endpoint;
  - the error-monitoring `successRate`;
  - JSON numbers beyond integers (fractions, NaN) in event bodies.
- Dashboard.EngagementOf: the session-duration average is stated over exact rational arithmetic. Its float rounding of `(last - first) / 1000 / 60` is not modelled.
- Prisma queries are filters over one sequence of rows:
  - `groupBy` result order is not modelled; `eventsByType` is a tally in first-occurrence order;
  - the `Session` table count is a parameter;
  - Prisma's own validation of field types on insert is folded into the `create` parameter.
- `orderBy: { timestamp: "asc" }` on the session query: only the spans are reported, and spans do not depend on the order.
- Dates: timestamps are integers in milliseconds, and `toISOString()` is not modelled, so the data rows hold the integers. `toISOString().split("T")[0]` and `getHours()` are functions passed in, and `peakHour` is reported as a number rather than its decimal string.
- Object enumeration: JavaScript lists integer-like keys (such as a provider named "42") first, in ascending order. The model keeps insertion order for provider, day, type and hour keys. The peak-hour scan goes through the hours in ascending order, as JavaScript does. The key order of the reported `hourlyActivity` object is not modelled: `Tally` lists the hours in first-occurrence order, while JavaScript serializes them in ascending order.
- Names inherited from `Object.prototype`. The handlers index plain `{}` objects with client-supplied strings, and `api/events.ts` stores any truthy string as the provider. `Analytics.Inherited` lists the twelve names a plain object inherits: "constructor", "__proto__", "toString" and the rest. Looking one of them up yields a truthy function or object. Every grouping below treats such a name as an ordinary key. Only the `providerData` loop is also modelled as written (`Analytics.GroupOnPlainObject`, see "## Findings").
- Analytics.GroupProviderData: for an inherited name the source never creates an entry, and `.timestamps.push` on `undefined` throws a `TypeError`. The model groups the name like any other.
- Analytics.GroupProviderStats: for an inherited name the source increments counters on the inherited function or on `Object.prototype`, and `Object.entries` then omits the name. The model keeps a row for it.
- Analytics.NamedMembers: a provider named by an inherited name gets no entry of its own in the source.
- Analytics.DataRowsFacts: for an inherited name the source answers 500 rather than returning rows.
- Analytics.StatsRowsFacts: "exactly the named providers appear" does not hold in the source for inherited names, which it drops.
- ProvidersEndpoint.Handle: a counted `api_call` event with an inherited provider name makes the source answer 500 even though the database is up. The model answers 200 with its row, which is the corrected grouping of "## Findings".
- InsightsEndpoint.Handle: the source silently drops the statistics row of an inherited provider name. The model reports it.
- Dashboard.SessionSpans: a session whose id is an inherited name always takes the `else` branch of the span loop. It never becomes an own key, so the source has no span for it. The model gives it one.
- Dashboard.EngagementOf: the source averages the spans over the sessions that have an own key, which leaves out inherited session ids. The model averages over every session with events.
- Dashboard.ErrorsOf: for an inherited provider name other than "__proto__", `(errorsByProvider[p] || 0) + 1` concatenates the inherited function's source text with 1, and stores that string as the count. For "__proto__" the assignment is ignored. The model counts 1 in both cases.
- Dashboard.Handle: inherits the differences above. The source answers 500 for a week's provider event with an inherited provider name, and the model does not.
- `api/usage.ts` (counts only) and the React components (`src/App.tsx`, `src/Components/*`): user interface and client state are not part of this model.

## Findings

| source | as written | input that shows it | evidently intended | confidence | as-written member | corrected member |
|---|---|---|---|---|---|---|
| api/providers.ts:29-57 | `if (!providerData[p])` tests a plain `{}`, so a provider name that `Object.prototype` defines counts as present; no entry is created, and `providerData[p].timestamps.push` throws, which the handler turns into 500 (the same loop is at api/dashboard.ts:125-153) | one `api_call` event with provider "constructor" (`Analytics.ConstructorProviderThrows`); `Analytics.PlainObjectThrows` shows this happens exactly for the inherited names | every provider name gets its own entry, for example in an object created with `Object.create(null)` or in a `Map` | high; not executed | Analytics.GroupOnPlainObject | Analytics.GroupProviderData |
