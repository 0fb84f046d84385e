# Plausible analytics proxy: a verified model

The repository is an Express back end that sits between a dashboard and the
Plausible analytics API. Every route under `/api/plausible` runs the same chain:

1. an authentication middleware checks the `Authorization: Bearer <key>` header;
2. a validation middleware applies the route's Joi schema;
3. the route's handler looks its key up in a process-wide TTL cache (a hit fails, see
   below); on a miss it calls Plausible, stores the payload and answers with an
   envelope `{success, data, params?, timestamp}`;
4. an error any handler passes to `next` reaches an error middleware, which picks
   the status and body from the error's name and message.

This project models that chain in Dafny, module by module:

| module | file | models |
|---|---|---|
| `Cache` | cache.dfy | `utils/cache.js`: a `CacheManager` class over a map of (value, expiry) with an explicit clock |
| `PlausibleService` | service.dfy | `services/plausibleService.js`: error classification, the request bodies, result shaping, the connection probe; the network is an `Upstream` oracle object that records each call |
| `PlausibleController` | controller.dfy | `controllers/plausibleController.js`: parameter defaults, cache keys, the cache-aside rule and the envelopes, as methods over the cache and the oracle |
| `Auth` | auth.dfy | `middleware/auth.js`: the guard chain on the header and the token it stores |
| `ErrorHandler` | error_handler.dfy | `middleware/errorHandler.js`: the classification chain and the answer of each class |
| `Schemas` | schemas.dfy | `validators/plausibleSchemas.js` and the part of Joi's object validation those rules use |
| `Validate` | validate.dfy | `middleware/validate.js`: params, then query, then body, reassigned in place on the request |
| `Pipeline` | pipeline.dfy | `routes/plausible.js` wiring: authentication, validation, handler, error middleware, plus the end-to-end status codes |
| `JsValues`, `Strings`, `Http`, `Wrappers` | js_values.dfy, strings.dfy, http.dfy, wrappers.dfy | JavaScript values, their `String()` text, `includes`, `replace`, `split`, `parseInt`, and the request/response shapes |

The state-changing parts are imperative Dafny:

- `CacheManager.Get`, `Set` and `Del` update the cache's `entries` map.
- `Upstream.Send` appends to the oracle's `log`.
- `ValidateApiKey` and `ValidateRequest` assign fields of the `Request` object.
- The handlers and `Dispatch` do all of these.

Each of these methods is tied by its `ensures` to a pure function, for example
`Peek`/`AfterGet`/`Stored`, `Serve`, `Run` or `Handled`. The lemmas state the
source's promises about those functions.

Environment variables (`CACHE_TTL`, `PLAUSIBLE_BASE_URL`, `PLAUSIBLE_API_VERSION`,
`NODE_ENV`), the clock readings and the ISO timestamps are parameters.

### Where the code differs from its documentation

The model follows the code in each case.

- **Errors with status 402, 404, 422 and 429.** Their messages contain neither
  "API invalide" nor "Plausible". The error middleware therefore answers them
  with 500, not 502 (`Pipeline.UpstreamFailureStatus`).
- **Cache keys can collide.** A key is the parameters joined with ':'. A parameter
  that itself holds ':' can produce another request's key
  (`PlausibleController.TimeseriesKeyCollision`). A key is built from each
  parameter's text, so a repeated query parameter, which arrives as an array, shares
  the key of the comma-joined string (`PlausibleController.RepeatedParameterCollision`),
  although the two send different bodies upstream. Keys are injective on the parameter
  texts only, and only when no part contains ':'.
- **A cache hit never answers with the cached data.** The controller binds `logger`
  to the logging middleware function (controllers/plausibleController.js:3), which has
  no `info` property (middleware/logger.js:61-66). So the log call on each hit
  (controllers/plausibleController.js:19, 52, 91, 130) throws the `TypeError`
  "logger.info is not a function" before `res.json` runs. The handler passes it
  to `next`, and the error middleware answers 500. A hit still makes no upstream
  call and leaves the store as it was (`PlausibleController.ServeHit`,
  `Pipeline.ServeHitStatus`). A request repeated within the TTL of a stored payload
  therefore fails (`Pipeline.RepeatedRealtimeFails`).
- **Validation checks nothing.** The routes hand `validate` bare `Joi.object`
  schemas, and those have no `params`, `query` or `body` property. So the
  middleware lets every request through unchanged
  (`Validate.BareSchemaPassesThrough`). The schemas' rules are still modelled and
  proved, as they would apply under `query` (`Validate.TimeseriesRulesOnlyApplyUnderQuery`).
- **`/breakdown` has no `:property` segment.** The handler still reads
  `req.params.property`. The model takes `property` from the request's params as
  given.

## Model

| member | source | states |
|---|---|---|
| Cache.DefaultTtl | utils/cache.js:7 | the default TTL is never 0 |
| Cache.DefaultTtlRule | utils/cache.js:7 | the default TTL is the configured integer when nonzero; it is 300 when the variable is unset, not a number, or 0 |
| Cache.EffectiveTtl | utils/cache.js:36-40 | a truthy ttl is used as given; an omitted or 0 ttl falls back to the default |
| Cache.CacheManager.constructor | utils/cache.js:5-10 | the store starts empty, with the default TTL fixed from the environment |
| Cache.CacheManager.Get | utils/cache.js:29-31 | returns the entry's value while it is live; an expired entry is deleted on read |
| Cache.CacheManager.Set | utils/cache.js:36-41 | stores the value with expiry now + effective TTL, and returns true |
| Cache.CacheManager.Del | utils/cache.js:46-48 | removes the key and counts the entries removed (0 or 1) |
| Cache.CacheManager.Flush | utils/cache.js:53-55 | empties the store |
| Cache.CacheManager.Keys | utils/cache.js:67-69 | lists exactly the stored keys, expired ones not yet read included |
| Cache.SetThenGet | utils/cache.js:29-41 | after set, get returns the value until the TTL has elapsed, and nothing afterwards |
| Cache.SetOverwrites | utils/cache.js:36-41 | a second set on a key replaces both its value and its expiry |
| Cache.SetKeepsOthers | utils/cache.js:6-10 | with no size bound, set never evicts or changes another key |
| Cache.DelOnlyRemovesKey | utils/cache.js:46-48 | del removes its key and leaves every other entry readable as before |
| Cache.FlushEmpties | utils/cache.js:53-55 | after flush nothing is served and no key is listed |
| Cache.GetSweepInvisible | utils/cache.js:29-31 | deleting an expired entry on read changes nothing a later read observes |
| PlausibleService.EnvOr | services/plausibleService.js:6-7 | an unset or empty variable gives the default, any other value is used |
| PlausibleService.Upstream.Send | services/plausibleService.js:61-63 | the n-th request is answered by the oracle and recorded at the end of the log |
| PlausibleService.HandlePlausibleError | services/plausibleService.js:29-52 | every branch throws a plain Error whose message is the failure's message |
| PlausibleService.KnownStatusMessages | services/plausibleService.js:33-43 | 401, 402, 404, 422 and 429 give five fixed, pairwise distinct messages |
| PlausibleService.OtherStatusMessage | services/plausibleService.js:44-45 | any other status gives the payload's truthy `error`, else "Erreur API Plausible: <status>" |
| PlausibleService.NoAnswerMessages | services/plausibleService.js:47-50 | no answer gives the unreachable message; a local error gives "Erreur de configuration: " + its message |
| PlausibleService.TimeseriesBody | services/plausibleService.js:87-94 | the body holds site_id, metrics and date_range = period, and interval only when it is given |
| PlausibleService.TimeseriesBodyKeys | services/plausibleService.js:87-94 | the body has exactly those keys, in order, interval last and only when it is given |
| PlausibleService.BreakdownBody | services/plausibleService.js:120-129 | the body holds site_id, property, metrics and date_range, and limit only when it is given |
| PlausibleService.BreakdownBodyKeys | services/plausibleService.js:120-129 | the body has exactly those keys, in order, limit last and only when it is given |
| PlausibleService.AggregateBody | services/plausibleService.js:154-158 | the body has exactly site_id, metrics and date_range |
| PlausibleService.ReadProp | services/plausibleService.js:101-103 | a property read throws exactly on null or undefined and reads the object's property otherwise |
| PlausibleService.RealtimeOutcome | services/plausibleService.js:67-75 | success gives {visitors, site_id, timestamp}; failure throws the classified error |
| PlausibleService.QueryOutcome | services/plausibleService.js:100-108 | the result exists exactly when the request succeeds with a payload that is neither null nor undefined; a failure throws the classified error |
| PlausibleService.QueryEchoesBody | services/plausibleService.js:100-104 | a successful result is {results, query, meta}, with query the exact body sent |
| PlausibleService.QueryOfMissingPayload | services/plausibleService.js:100-108 | a null or undefined payload throws a TypeError, which is rethrown as a configuration error |
| PlausibleService.GetRealtime | services/plausibleService.js:57-77 | one GET to the realtime endpoint is made and its reply is shaped |
| PlausibleService.GetTimeseries | services/plausibleService.js:82-110 | the body is built and interval added in place when given; one POST to /<version>/query is made |
| PlausibleService.GetBreakdown | services/plausibleService.js:115-145 | the body is built and limit added in place when given; one POST to /<version>/breakdown is made |
| PlausibleService.GetAggregate | services/plausibleService.js:150-174 | one POST of the three-key body to /<version>/query is made |
| PlausibleService.TestConnection | services/plausibleService.js:179-195 | one probe is made; the result is true exactly when it succeeds, and it never throws |
| PlausibleController.OrDefault | controllers/plausibleController.js:45 | a destructuring default applies only to an undefined value |
| PlausibleController.SplitMetrics | controllers/plausibleController.js:59 | split succeeds exactly on a string, giving its ','-pieces; anything else throws a TypeError |
| PlausibleController.SplitMetricsParts | controllers/plausibleController.js:59 | the pieces hold no ',' and join back to the string |
| PlausibleController.ParseIntValue | controllers/plausibleController.js:100 | parseInt gives a number exactly when the text starts with an integer, else NaN |
| PlausibleController.Envelope | controllers/plausibleController.js:29-33 | the envelope has success true, the payload as data, params when there are any, and the timestamp |
| PlausibleController.ServeHit | controllers/plausibleController.js:16-21 | on a truthy live entry the log call's TypeError is passed to next, with no upstream call and the store unchanged |
| PlausibleController.ServeStores | controllers/plausibleController.js:24-33 | a successful miss makes one call, stores the payload (not the envelope) for its TTL, answers with the envelope, and leaves other keys alone |
| PlausibleController.ServeFailureNotCached | controllers/plausibleController.js:35-37 | a failing miss passes the error on and stores nothing under the key |
| PlausibleController.ServeAnswered | controllers/plausibleController.js:24-37 | a miss whose call settles makes exactly that call, then either stores and answers or passes the error on |
| PlausibleController.RepeatWithinTtl | controllers/plausibleController.js:48-64 | two identical requests within the TTL make one upstream call; the second, a hit, passes the log call's TypeError on and leaves the store as it was |
| PlausibleController.RetryAfterFailure | controllers/plausibleController.js:56-75 | after a failure, the same request calls the upstream again |
| PlausibleController.TimeseriesRepeatOneCall | controllers/plausibleController.js:48-64 | two timeseries requests within 300 s of the store make exactly one upstream call, and the second passes the log call's TypeError on |
| PlausibleController.RealtimeRepeatOneCall | controllers/plausibleController.js:15-27 | two realtime requests within 30 s of the store make exactly one upstream call, and the second passes the log call's TypeError on |
| PlausibleController.GetRealtime | controllers/plausibleController.js:9-38 | the cache-aside rule under key realtime:<site>, with a 30 s TTL and no params echo: a hit passes the log call's TypeError on, a miss calls the upstream and caches its payload |
| PlausibleController.GetTimeseries | controllers/plausibleController.js:43-76 | the cache-aside rule under the timeseries key of the defaulted query, with a 300 s TTL: a hit passes the log call's TypeError on, a miss calls the upstream and caches its payload |
| PlausibleController.GetBreakdown | controllers/plausibleController.js:81-116 | the cache-aside rule under the breakdown key, with a 600 s TTL and property from the path parameters: a hit passes the log call's TypeError on, a miss calls the upstream and caches its payload |
| PlausibleController.GetAggregate | controllers/plausibleController.js:121-153 | the cache-aside rule under the aggregate key, with a 300 s TTL: a hit passes the log call's TypeError on, a miss calls the upstream and caches its payload |
| PlausibleController.ConnectionResponse | controllers/plausibleController.js:164-176 | true answers 200 with success and site_id; false answers 401 with success false |
| PlausibleController.TestConnection | controllers/plausibleController.js:158-181 | an undefined body (no parser ran) throws a TypeError before any call; otherwise reads api_key and site_id from the body and makes one probe; never touches the cache |
| PlausibleController.TimeseriesKeyJoin | controllers/plausibleController.js:48 | the key is "timeseries:" followed by site, period, metrics and interval joined with ':' |
| PlausibleController.BreakdownKeyJoin | controllers/plausibleController.js:87 | the key is "breakdown:" followed by site, property, period, metrics and limit joined with ':' |
| PlausibleController.AggregateKeyJoin | controllers/plausibleController.js:126 | the key is "aggregate:" followed by site, period and metrics joined with ':' |
| PlausibleController.KeyKindsDiffer | controllers/plausibleController.js:15-126 | keys of different handlers never coincide |
| PlausibleController.TimeseriesKeyInjective | controllers/plausibleController.js:48 | without ':' in any part, equal keys mean equal parameter texts |
| PlausibleController.BreakdownKeyInjective | controllers/plausibleController.js:87 | without ':' in any part, equal keys mean equal parameter texts |
| PlausibleController.AggregateKeyInjective | controllers/plausibleController.js:126 | without ':' in any part, equal keys mean equal parameter texts |
| PlausibleController.RepeatedParameterCollision | controllers/plausibleController.js:15 | a repeated parameter (an array) and its comma-joined string give the same key |
| PlausibleController.TimeseriesKeyCollision | controllers/plausibleController.js:48 | two queries about different sites can share a key |
| PlausibleController.TimeseriesDefaultQuery | controllers/plausibleController.js:45 | a query with only site_id reads as period 7d, metrics visitors, interval date |
| PlausibleController.TimeseriesDefaultKey | controllers/plausibleController.js:45-48 | defaults are applied before the key: timeseries:<site>:7d:visitors:date |
| PlausibleController.BreakdownDefaultQuery | controllers/plausibleController.js:83-84 | a query with only site_id reads as period 7d, metrics visitors, limit 10 |
| PlausibleController.BreakdownDefaultKey | controllers/plausibleController.js:84-87 | defaults are applied before the key: breakdown:<site>:<property>:7d:visitors:10 |
| PlausibleController.AggregateDefaultQuery | controllers/plausibleController.js:123 | a query with only site_id reads as period 7d and the four-metric list |
| PlausibleController.AggregateDefaultKey | controllers/plausibleController.js:123-126 | defaults are applied before the key: aggregate:<site>:7d:<four metrics> |
| PlausibleController.DefaultPeriodMatchesExplicit | controllers/plausibleController.js:45 | omitting period and sending "7d" is the same request |
| PlausibleController.DefaultIntervalMatchesExplicit | controllers/plausibleController.js:45 | omitting interval and sending "date" is the same request |
| PlausibleController.DefaultLimitMatchesExplicit | controllers/plausibleController.js:84-100 | omitting limit and sending "10" give the same key and the same parsed limit |
| PlausibleController.OtherFieldsIgnored | controllers/plausibleController.js:45-123 | a parameter the handler does not read changes neither the key nor the request |
| PlausibleController.TimeseriesRequest | controllers/plausibleController.js:56-71 | a non-string metrics throws a TypeError before any call; otherwise one POST with the split metrics and the interval only when given, plus the un-split echo |
| PlausibleController.TimeseriesIntervalRule | controllers/plausibleController.js:45 | an empty interval is not defaulted and is left out of the body; an absent one is sent as "date" |
| PlausibleController.BreakdownRequest | controllers/plausibleController.js:95-104 | the breakdown request always carries limit, as the parsed number or NaN, with a 600 s TTL |
| PlausibleController.BreakdownEchoesLimit | controllers/plausibleController.js:100-109 | the envelope echoes limit as received; the default is sent as the number 10 |
| PlausibleController.AggregateRequest | controllers/plausibleController.js:134-141 | the aggregate request posts exactly site_id, the split metrics and date_range, with a 300 s TTL |
| Auth.Rejection | middleware/auth.js:14-18 | every rejection is a 401 with success false |
| Auth.CheckBearer | middleware/auth.js:13-37 | accepted exactly when the header starts with "Bearer " and is followed by at least 10 characters; the token is the rest of the header |
| Auth.ValidateApiKey | middleware/auth.js:9-43 | exactly one of next-with-token-stored or the first guard's 401 happens |
| Auth.RejectionsDistinct | middleware/auth.js:13-37 | the three rejections differ in their error field |
| Auth.GuardOrder | middleware/auth.js:13-37 | missing, then prefix, then length: each guard answers only after the earlier ones pass |
| Auth.FirstGuardWins | middleware/auth.js:13-37 | worked examples: a wrong prefix wins over shortness, a lower-case scheme is a format error, a bare prefix is a token error |
| Auth.LowerCaseSchemeRejected | middleware/auth.js:21-27 | the prefix test is case-sensitive: `bearer ` followed by any token is a format error |
| Auth.ReplaceYieldsToken | middleware/auth.js:29 | for an accepted header, replace('Bearer ', '') yields the same token as substring(7) |
| ErrorHandler.Classify | middleware/errorHandler.js:13-41 | the first matching test decides: ValidationError, then UnauthorizedError or "API invalide", then "Plausible", then the rest |
| ErrorHandler.InternalStatus | middleware/errorHandler.js:41 | the error's own nonzero status, else 500 |
| ErrorHandler.ValidationAnswer | middleware/errorHandler.js:13-20 | 400 with the error's message and details |
| ErrorHandler.UnauthorizedAnswer | middleware/errorHandler.js:23-29 | 401 with a fixed message |
| ErrorHandler.ExternalAnswer | middleware/errorHandler.js:32-38 | 502 with the error's message |
| ErrorHandler.InternalAnswer | middleware/errorHandler.js:41-51 | the error's status or 500; the message is hidden in production; the stack appears only in development |
| ErrorHandler.HandleError | middleware/errorHandler.js:13-51 | every answer has success false; status and message follow the error's class |
| ErrorHandler.StackOnlyInDevelopment | middleware/errorHandler.js:50 | the stack appears exactly for an internal error in development |
| ErrorHandler.ProductionHidesMessage | middleware/errorHandler.js:42-44 | in production an internal error shows the fixed message and no stack |
| Schemas.CheckKind | validators/plausibleSchemas.js:4-52 | a value that passes has the rule's type and lies in its range |
| Schemas.CheckField | validators/plausibleSchemas.js:4-52 | absent and required fails, absent and optional takes the default, present and passing is kept, listed values only |
| Schemas.ValidateFields | validators/plausibleSchemas.js:4-52 | validation only adds defaults: every key stays and every present value is kept |
| Schemas.PeriodField | validators/plausibleSchemas.js:13 | period is one of the seven periods, "7d" when absent |
| Schemas.IntervalField | validators/plausibleSchemas.js:15 | interval is "date" or "month", "date" when absent |
| Schemas.DateField | validators/plausibleSchemas.js:16-20 | date is required when the period is "custom" and optional otherwise |
| Schemas.TimeseriesDateRequiredIffCustom | validators/plausibleSchemas.js:11-21 | an otherwise valid timeseries query without date fails exactly when the period is "custom" |
| Schemas.TimeseriesFirstFourRules | validators/plausibleSchemas.js:12-15 | valid site_id, period, metrics and interval pass, with their defaults filled in |
| Schemas.PropertyField | validators/plausibleSchemas.js:25-29 | property is required and one of the twelve properties |
| Schemas.LimitField | validators/plausibleSchemas.js:32 | limit is an integer from 1 to 100, 10 when absent, with Joi's bound messages |
| Schemas.CompareAndFiltersFields | validators/plausibleSchemas.js:39-40 | compare is a boolean, false when absent; filters is optional |
| Schemas.SiteIdRequiredEverywhere | validators/plausibleSchemas.js:4-52 | a missing site_id fails every schema, with the custom French text where one is set |
| Schemas.ApiKeyRequiredForTest | validators/plausibleSchemas.js:44-47 | the connection test refuses a missing or empty api_key with its own text |
| Schemas.EmptySiteId | validators/plausibleSchemas.js:4-12 | an empty site_id is refused, with the custom text or with Joi's 'string.empty' text |
| Schemas.TimeseriesDefaults | validators/plausibleSchemas.js:11-21 | a query with only site_id gets the three defaults |
| Schemas.BreakdownDefaults | validators/plausibleSchemas.js:23-33 | a query with only site_id and property gets the period, metrics and limit defaults |
| Schemas.AggregateDefaults | validators/plausibleSchemas.js:35-41 | a query with only site_id gets the period, the four metrics and compare false, and no filters |
| Validate.OfJoiObject | middleware/validate.js:6-30 | a bare Joi object has no params, query or body property |
| Validate.Failure | middleware/validate.js:9-13 | 400 with success false, the part's label and the first error's message |
| Validate.ValidateRequest | middleware/validate.js:1-44 | the step and the three parts are those of the pure run; passing parts are reassigned in place |
| Validate.NextIffAllPartsValid | middleware/validate.js:42 | next is called exactly when every named part validates; otherwise 400 with success false |
| Validate.FirstFailingPartAnswers | middleware/validate.js:6-40 | params, then query, then body: the first failing part answers with its own label and first error |
| Validate.LabelsDistinct | middleware/validate.js:11-35 | the three labels differ |
| Validate.PartsReplaced | middleware/validate.js:6-39 | an unnamed part is untouched; on next, each named part holds its validated value |
| Validate.BareSchemaPassesThrough | middleware/validate.js:6-42 | with a bare Joi object the request passes through unchanged |
| Validate.TimeseriesRulesOnlyApplyUnderQuery | middleware/validate.js:18-27 | the timeseries rules under query would refuse a missing site_id; handed over bare, the request passes |
| Pipeline.RunHandler | routes/plausible.js:17-63 | each route's handler, tied to the handler function of that route, hits included |
| Pipeline.ValidateAndHandle | routes/plausible.js:17-63 | validation leaves the parts unchanged, then the handler runs on them |
| Pipeline.Dispatch | routes/plausible.js:9 | a rejected header is answered with the request, the cache and the upstream log unchanged; otherwise the token is stored and the handler's outcome goes through the error middleware |
| Pipeline.PlainErrorStatus | middleware/errorHandler.js:23-41 | a plain Error answers 401, 502 or 500 according to the two phrases in its message |
| Pipeline.UnnamedMessageStatus | middleware/errorHandler.js:41 | an error matching no earlier test and without a status code answers 500 |
| Pipeline.UnauthorizedNamesKey | services/plausibleService.js:35 | the rejected-key message contains "API invalide" |
| Pipeline.UnreachableNamesProvider | services/plausibleService.js:48 | the unreachable message names the provider but not the key |
| Pipeline.StatusMessageNamesProvider | services/plausibleService.js:45 | the generic status message names the provider but not the key |
| Pipeline.ClassifiedMessageNamesNeither | services/plausibleService.js:36-43 | the 402, 404, 422 and 429 messages contain neither phrase |
| Pipeline.UpstreamFailureStatus | services/plausibleService.js:33-48 | an upstream 401 gives 401; 402/404/422/429 give 500; no answer or an unclassified status without error text gives 502 |
| Pipeline.NullPayloadStatus | services/plausibleService.js:100-108 | a null payload ends as a configuration error answered 500 |
| Pipeline.MissedFailureAnswer | controllers/plausibleController.js:56-75 | an upstream failure on a miss reaches the client as the error middleware's answer, and nothing is cached |
| Pipeline.TimeseriesRejectedKey | controllers/plausibleController.js:43-76 | a timeseries miss whose key the upstream rejects answers 401 after exactly one call |
| Pipeline.SplitErrorNamesNeither | controllers/plausibleController.js:59 | the texts of the errors that split throws contain neither phrase |
| Pipeline.UnsplittableMetricsStatus | controllers/plausibleController.js:59 | a metrics value that is not a string ends as a 500 |
| Pipeline.ServeHitStatus | controllers/plausibleController.js:18-21 | a cache hit on a data route ends as a 500, with no upstream call and the store unchanged |
| Pipeline.RepeatedRealtimeFails | controllers/plausibleController.js:9-38 | two identical realtime requests within 30 s: the first answers 200, the second 500, after one upstream call |
| Pipeline.UnparsedBodyStatus | controllers/plausibleController.js:160 | a connection test whose body no parser set makes no call, stores nothing and ends as a 500 |
| Strings.ContainsIff | controllers/plausibleController.js:12 | includes agrees with indexOf |
| Strings.ReplaceFirst | controllers/plausibleController.js:12 | replace with a string pattern changes only the first occurrence |
| Strings.JoinSplit | controllers/plausibleController.js:59 | joining the pieces of a split gives back the string, and no piece holds the separator |
| Strings.SplitJoin | controllers/plausibleController.js:59 | splitting the join of separator-free parts gives back the parts |
| Strings.ParseIntOfString | utils/cache.js:7 | parseInt(String(n)) == n |

## Left out

- Floating-point numbers: a number is an integer (or NaN), so `parseInt` of a fraction's text and float limits are not modelled.
- Joi's type coercion (for example "10" to 10 for `limit`), its rejection of unknown keys, `abortEarly` and its error objects beyond the first message.
- node-cache's `checkperiod` background purge, the `set`/`del`/`expired` event logging, `useClones` and `getStats()`. Expiry is lazy, against an explicit clock.
- Cache.CacheManager.Keys: returns a set, so the listing order of node-cache is not modelled.
- Cache.EffectiveTtl: node-cache treats a TTL of 0 passed to the library as unlimited; this never happens here, because a 0 ttl falls back to the default and the default is never 0.
- All logging (middleware/logger.js) and every other I/O. The one log call that changes control flow, the controller's `logger.info` on a hit, which throws, is modelled.
- The axios client's 10 s timeout, its Content-Type and User-Agent headers, URL normalisation and JSON serialisation on the wire. A request is modelled by its verb, URL, Authorization header and payload.
- Concurrency: parallel identical requests and the missing in-flight deduplication.
- The `validateJWT` middleware, which relies on the jsonwebtoken library (not part of this model).
- `validateApiKey`'s catch branch (401 "Erreur d'authentification"): the only statement in its try block that can throw on a header that is a string or absent is the log call, which throws only when writing the production log file fails; that I/O is left out with logging.
- Validate.ValidateRequest: assigns `req.query` as the code does; under Express 5 `req.query` is a read-only getter and the assignment has no effect. Validation never reaches that assignment here, because the routes' schemas have no `query` property.
- Validate.ValidateRequest: a `body` rule checked against an undefined `req.body` (Joi passes undefined through) is not modelled; no route's schema has a `body` property.
- Strings.ReplaceFirst: the `$` replacement patterns of `String.prototype.replace` are not modelled; the replacement text here is empty or literal.
- Strings.ParseInt: precision loss on integers beyond 2^53 is not modelled.
- `new Date().toISOString()` and `Date.now()`: the timestamps and the two clock readings of a request are parameters.
- The JWT secret, helmet, CORS, rate limiting, static files and process handlers in server.js, and the documentation route (routes/docs.js).
