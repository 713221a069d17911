# Kore Wireless SDK request core in Dafny

This project models the request-execution core of the Kore Wireless
TypeScript SDK and proves properties of it. The core covers:

- the OAuth token cache of `KoreClient` and the token call of `TokenApi`;
- the shared request pipeline of `BaseApi`: URL, headers, form body, status
  check, and the normalisation of every failure into an `ApiError`;
- the programmable-wireless and webhook API groups built on that pipeline;
- the rate limiter that queues wireless calls;
- the retry utility that re-invokes them with exponential backoff;
- the parameter validators and the string sanitiser;
- the request and response interceptors;
- the masking logger;
- the `paginate` helper.

One Dafny module models each source file:

| module | models |
|---|---|
| `Js` | the JavaScript values the SDK handles (`undefined`, `null`, numbers, strings, arrays, objects), thrown values, truthiness, property reads that throw on `null`, `String(...)`, and the string methods used |
| `Http` | what `fetch` yields, `response.json()`, `response.headers.get`, and `URLSearchParams` and header records as ordered pairs |
| `Client` | `KoreClient` |
| `TokenApi` | `TokenApi` |
| `BaseApi` | `BaseApi` |
| `WirelessApi` | `WirelessApi` |
| `WebhookApi` | `WebhookApi` |
| `Limiter` | `RateLimiter` |
| `Retry` | `retry` |
| `Validation` | `ValidationUtils` |
| `Interceptors` | the interceptors |
| `Logging` | `Logger` |
| `Responses` | the paginated response type and `paginate` |

The model keeps the source's form:

- Objects whose fields change become classes:
  - `KoreClient`, which holds the token and its expiry;
  - `RateLimiter`, which holds the queue, the `processing` flag, the last start time and a clock;
  - `Logger`, which holds the configuration;
  - `WirelessApi`;
  - `WebhookApi`.
- The loops become methods with invariants:
  - the retry loop;
  - the dispatcher loop;
  - the `paginate` do-while;
  - the header `forEach`;
  - the `append` sequences that build query strings.
- The decisions around those loops become functions.
- Each method is proved against a reference function of its inputs and old state. For example:
  - `Retry.RetryRun` is the reference for the retry loop;
  - `BaseApi.Exchange` is the reference for one request;
  - `Http.Keep` is the reference for a run of truthy-guarded `append`s.

What the outside world does is an explicit input:

- `BaseApi.Env` holds:
  - the clock reading when the token is checked;
  - the clock reading when a new token's expiry is stamped;
  - the token endpoint's answer;
  - what `fetch` yields;
  - the call's latency.
- A retried request sees `env(k)` on its k-th attempt.
- The rate limiter keeps an abstract millisecond clock. Waiting and running a task advance it.

The model follows the code, including where it lacks behaviour a caller
might expect:

- Concurrent callers get no single-flight token refresh. Each call that finds the token missing or expired calls the token endpoint itself.
- A failed refresh does not clear the cached token. Instead, the body of a successful token response is stored before its `expires_in` is read.
- A 401 from the token endpoint is not turned into an authentication error. The server's body itself is thrown (`TokenApi.UnauthorizedThrowsBody`).
- The code sets no request deadline and no body size limit.
- The interceptors are defined but no request goes through them.
- A token endpoint that answers with an error status loses that status: its body is thrown, and the catch block of `request` turns it into a status-0 `ApiError` that the default retry predicate never retries (`BaseApi.TokenRejectionLosesStatus`).
- The response body is parsed before the status is checked. An unparsable error response therefore becomes a status-0 `ApiError`, not an error carrying the HTTP status.
- The body is parsed even when the status says there is none, so an expected 204 fails (see "## Findings").
- A URL with a disallowed protocol is reported as an invalid URL (see "## Findings").
- The webhook API builds a rate limiter but never queues on it, and never retries.

## Model

| member | source | states |
|---|---|---|
| `Js.Lower` | src/utils/logger.ts:60 | lower-casing keeps the length and maps every character by the ASCII case mapping |
| `Js.LowerKeepsLowercase` | src/utils/logger.ts:60 | a string with no upper-case letter is its own lower-case form |
| `Js.Length` | src/utils/validation.ts:23-28 | a string's `length` counts UTF-16 code units: it equals the character count exactly when every character is in the Basic Multilingual Plane, and is more otherwise, never more than twice the count |
| `Js.Trim` | src/utils/validation.ts:97 | `trim` yields a contiguous slice of its input that neither starts nor ends with white space, and everything cut off on either side is white space |
| `Http.ReadJson` | src/api/baseApi.ts:49 | `response.json()` yields the parsed body exactly when the body parses and the status is not a null-body status (such as 204); it rejects with a SyntaxError otherwise, with the empty-text message for a null-body status |
| `Http.HeaderValues` | src/utils/interceptors.ts:37 | a header read collects no more values than there are headers |
| `Http.HeaderValuesMatch` | src/utils/interceptors.ts:37 | the values collected are exactly those of the headers whose name matches case-insensitively, and there are none exactly when no name matches |
| `Http.HeaderGet` | src/utils/interceptors.ts:37 | a header read is null exactly when it collects no value; otherwise it is the collected values joined with ", " |
| `Http.HeaderGetNone` | src/utils/interceptors.ts:37 | a header read is null exactly when no header name matches case-insensitively |
| `Http.HeaderGetJoins` | src/utils/interceptors.ts:37 | a header sent once reads back as its value; one sent twice reads back as both values joined with ", " |
| `Http.Keep` | src/api/baseApi.ts:78-84 | a run of truthy-guarded `append`s keeps at most as many pairs as there were candidates |
| `Http.KeepAppend` | src/api/baseApi.ts:78-84 | two runs of `append`s one after the other build the concatenation of their queries |
| `Http.KeepPosition` | src/api/baseApi.ts:78-84 | a truthy candidate lands in the query right after the pairs kept before it, with its value as a string |
| `Http.KeepMembership` | src/api/baseApi.ts:78-84 | a pair is in the query exactly when some candidate with that key has a truthy value whose string form is that value |
| `Http.KeepGet` | src/api/baseApi.ts:78-84 | a key only one candidate uses reads back as that candidate's string value when it is truthy and as absent otherwise |
| `Http.KeepReadsBack` | src/api/baseApi.ts:78-84 | when no two candidates share a key, every candidate reads back from the built query in that way |
| `Http.AppendIfTruthy` | src/api/baseApi.ts:80-82 | one guarded `append` on the query built so far gives the query of the candidates with this one added |
| `Http.KeepStep` | src/api/baseApi.ts:78-84 | one more guarded `append` adds its pair exactly when the value is truthy |
| `Http.Serialize` | src/api/baseApi.ts:31 | `URLSearchParams.toString()` writes at least a `=` per pair and a `&` between pairs |
| `Http.SerializeEmptyIff` | src/api/baseApi.ts:31 | the serialised query is empty exactly when the query has no pair, so the `?` is added exactly for a non-empty query |
| `TokenApi.Attempt` | src/api/tokenApi.ts:26-46 | the `try` block returns exactly when the body parses and the status is ok, and then returns the body. A parsed body under a non-ok status is thrown itself, a network failure is thrown as its Error, and an unreadable body throws a SyntaxError |
| `TokenApi.Rewrap` | src/api/tokenApi.ts:47-52 | the `catch` block rethrows a non-Error value unchanged and turns every Error into an Error whose message starts with "Failed to get token: " |
| `TokenApi.CredentialsForm` | src/api/tokenApi.ts:22-25 | the form carries `client_id`, `client_secret` and `grant_type` in this order, each reading back as its argument |
| `TokenApi.Outcome` | src/api/tokenApi.ts:26-52 | a token call returns exactly when the response has a body that parsed and its status is ok, and then returns the body. Otherwise it throws the body itself on a non-ok status, or an `Error` prefixed "Failed to get token: " on a network failure or an unparsable body |
| `TokenApi.TokenClient.constructor` | src/api/tokenApi.ts:6-8 | the base URL defaults to the production API-services URL |
| `TokenApi.TokenClient.GetToken` | src/api/tokenApi.ts:17-53 | one form-encoded POST to `<baseURL>/v1/auth/token` with the two fixed headers and a form of exactly the three credential fields in the order `client_id`, `client_secret`, `grant_type`; the grant type defaults to `client_credentials`; it settles as `Outcome` of the transport |
| `TokenApi.UnauthorizedThrowsBody` | src/api/tokenApi.ts:38-44 | a 401 is thrown as the server's parsed body, not wrapped in an `Error` |
| `TokenApi.FailureMessageKept` | src/api/tokenApi.ts:47-50 | a network error keeps its message after the "Failed to get token: " prefix |
| `TokenApi.UnparsableBodyFails` | src/api/tokenApi.ts:36 | a body that is not JSON fails even with an ok status, and a 204 or 205 with the empty-text message |
| `Client.ExpiryAfter` | src/api/koreClient.ts:48 | the expiry lies exactly 300 s before `stamp + expires_in` seconds; it is an Invalid Date when `expires_in` is not a number or the time value is out of the `Date` range |
| `Client.Refresh` | src/api/koreClient.ts:44-49 | a failed token call changes nothing. A successful one stores the body even when it is `null`; a non-null body then gets its new expiry, while a null one throws a TypeError with the old expiry kept |
| `Client.TokenStep` | src/api/koreClient.ts:33-42 | the token endpoint is called exactly when no truthy token is cached or the cached one expired. Otherwise the cache is untouched and the cached `access_token` is returned. Any successful result is the cached token's `access_token` |
| `Client.IsTokenExpired` | src/api/koreClient.ts:40-42 | a missing expiry counts as expired, and an Invalid Date never does |
| `Client.NeedsRefresh` | src/api/koreClient.ts:34 | the cached token is reused exactly when it is truthy and its expiry is an Invalid Date or lies after `now` |
| `Client.RefreshStaysNeeded` | src/api/koreClient.ts:34-42 | once a refresh is needed, it stays needed as time passes |
| `Client.KoreClient.constructor` | src/api/koreClient.ts:21-24 | a new client keeps its credentials, has a token API on the default URL, and has no token and no expiry |
| `Client.KoreClient.RefreshToken` | src/api/koreClient.ts:44-49 | the method's completion and new state are `Refresh` of the old state; the token endpoint is called once |
| `Client.KoreClient.GetValidToken` | src/api/koreClient.ts:33-38 | the token returned and the new state are `TokenStep` of the old state; the token endpoint is called once or not at all, as `TokenStep` says |
| `Client.ExpiryInstantIsExpired` | src/api/koreClient.ts:40-42 | a token counts as expired at its expiry instant but not one millisecond earlier |
| `Client.FirstCallRefreshes` | src/api/koreClient.ts:34 | a fresh client always calls the token endpoint first |
| `Client.CachedTokenReused` | src/api/koreClient.ts:33-38 | after a truthy token is obtained, a later call before its expiry returns the same token without calling the endpoint, whatever the endpoint would answer |
| `Client.ShortLivedTokenRefreshedAgain` | src/api/koreClient.ts:48 | a token granted for at most the 300-second buffer is stored already expired, so the next call refreshes again |
| `Client.MissingExpiryNeverRefreshed` | src/api/koreClient.ts:48 | a token answered without a numeric `expires_in` gets an Invalid Date and is never refreshed again |
| `BaseApi.ExpectedOf` | src/api/baseApi.ts:28 | the expected statuses default to `[200]` |
| `BaseApi.GetOptions` | src/api/baseApi.ts:16-18 | `get` is a GET with the given query, no body, expecting 200 |
| `BaseApi.PostOptions` | src/api/baseApi.ts:20-22 | `post` is a POST with the given body and no query, expecting 200 |
| `BaseApi.PatchOptions` | src/api/baseApi.ts:24-26 | `patch` is a PATCH with the given body and no query, expecting 200 |
| `BaseApi.BuildUrl` | src/api/baseApi.ts:31 | the URL is base URL, base path and path; `?` and the serialised query follow exactly when the query is non-empty |
| `BaseApi.FormOf` | src/api/baseApi.ts:46 | the form holds every body field in order, each value as its string form |
| `BaseApi.RequestHeaders` | src/api/baseApi.ts:34-41 | the headers are the bearer token and JSON accept, plus the form content type exactly when there is a body |
| `BaseApi.CreateApiError` | src/api/baseApi.ts:64-71 | it throws a TypeError exactly for a null or undefined body. Otherwise the error carries the given status and the body's `more_info`. Its message is the body's message, or "API request failed" when that is falsy. Its code is the body's code, or the status when that is falsy |
| `BaseApi.Attempt` | src/api/baseApi.ts:43-55 | the try block returns exactly when `response.json()` succeeds and the status is expected, and then returns the parsed body |
| `BaseApi.AttemptIntended` | src/api/baseApi.ts:43-55 | the try block as intended returns exactly for an expected status whose response either has no body by its status or has a body that parses; an expected null-body status resolves with undefined |
| `BaseApi.AttemptVersionsDiffer` | src/api/baseApi.ts:43-55 | the two try blocks differ exactly on an expected null-body status, where the one as written throws the empty-text SyntaxError |
| `BaseApi.Normalise` | src/api/baseApi.ts:56-61 | an `ApiError` passes unchanged. Any other `Error` becomes a status-0, code-0 `ApiError` keeping its message, or the generic message when that is empty. Any other thrown value, such as the token endpoint's error body, passes unchanged when its `name` is "ApiError" and otherwise becomes a status-0, code-0 `ApiError` with its `message` or the generic one. A thrown null or undefined escapes as a TypeError |
| `BaseApi.Settle` | src/api/baseApi.ts:43-61 | a value the `try` block returns is returned as is; anything it throws is thrown as the catch block leaves it |
| `BaseApi.ZeroStatusError` | src/api/baseApi.ts:60 | the catch block's error has status 0, code 0, no details, and the thrown message or the generic one |
| `BaseApi.Pipeline` | src/api/baseApi.ts:28-62 | `request` returns exactly when a token was obtained, the response body parsed and the status is expected. With a token, every failure is an `ApiError`; an unexpected status carries that status; a network failure, an unparsable body or a null-body status carries status 0. When obtaining the token threw, `request` throws that error as the catch block leaves it |
| `BaseApi.Exchange` | src/api/baseApi.ts:28-62 | the client's token state afterwards is the one the token step alone leaves, whatever the request did; once a token was obtained, the request sent has the options' verb and built URL, and a form exactly when there is a body; a successful call was sent and answered with an expected status |
| `BaseApi.Request` | src/api/baseApi.ts:28-62 | the request sent, the result and the client's new token state are `Exchange` of the old state; the token endpoint is called exactly when the cached token needed a refresh |
| `BaseApi.BuildPaginationParams` | src/api/baseApi.ts:78-84 | the query is the truthy ones of `PageSize`, `Page` and `PageToken`, in this order |
| `BaseApi.PaginationQueryReadsBack` | src/api/baseApi.ts:78-84 | a page size or page number of 0, and an empty page token, are left out like absent ones; others are sent as decimal strings or as is |
| `BaseApi.TransportFailuresHaveStatusZero` | src/api/baseApi.ts:56-61 | a network failure reaches the caller as an `ApiError` with status 0 and the failure's message |
| `BaseApi.NullErrorBodyLosesStatus` | src/api/baseApi.ts:51-53 | a `null` body on an unexpected status becomes a status-0 `ApiError` (about reading `message` of null, or the empty-text message for a null-body status): the HTTP status is lost |
| `BaseApi.NullTokenRejectionEscapes` | src/api/baseApi.ts:57 | a token endpoint that rejects with a `null` body makes the catch block itself throw a TypeError, which escapes un-normalised |
| `BaseApi.TokenRejectionLosesStatus` | src/api/baseApi.ts:56-61 | a token endpoint answering an error status with an object body makes `request` send nothing and throw a status-0, code-0 `ApiError` with the body's `message` or the generic one: the token endpoint's status is lost. A body whose `name` is "ApiError" is thrown unchanged |
| `WirelessApi.UsageQuery` | src/api/wirelessApi.ts:57-63 | the usage query is the truthy ones of `Start`, `End`, `Granularity`, `PageSize`, `Page`, `PageToken`, in this order |
| `WirelessApi.UsageQueryReadsBack` | src/api/wirelessApi.ts:57-63 | each usage filter is sent under its own name exactly when it is a non-empty string or a non-zero number |
| `WirelessApi.SimsQuery` | src/api/wirelessApi.ts:153-161 | the SIM query is the truthy ones of `Status`, `Iccid`, `RatePlan`, `EId`, `SimRegistrationCode` and the pagination fields, in this order |
| `WirelessApi.SimsQueryReadsBack` | src/api/wirelessApi.ts:153-161 | each SIM filter is sent under its own name exactly when it is non-empty or non-zero |
| `WirelessApi.CommandQuery` | src/api/wirelessApi.ts:210-217 | the command query is the truthy ones of `Sim`, `Status`, `Direction`, `Transport` and the pagination fields, in this order |
| `WirelessApi.CommandQueryReadsBack` | src/api/wirelessApi.ts:210-217 | each command filter is sent under its own name exactly when it is non-empty or non-zero |
| `WirelessApi.ExpectedFor` | src/api/wirelessApi.ts:52-260 | the expected statuses, stated as table-wide properties: deletes accept 204 but never 200; only `createCommand` accepts 201; 202 is accepted exactly by `createRatePlan`, `updateSim`, `createCommand` and `deleteCommand`; no other status is ever expected |
| `WirelessApi.EndpointOptions` | src/api/wirelessApi.ts:52-260 | every API method's path, verb, body and expected statuses, stated as table-wide properties: deletes use DELETE; every call with a body is a POST, updates included; the listings and only they send a query, the one their `append`s build; the statuses are those of `ExpectedFor` |
| `WirelessApi.QueryFor` | src/api/wirelessApi.ts:52-260 | only the listing methods build a query, and it is their `append` sequence |
| `WirelessApi.AttemptOnce` | src/api/wirelessApi.ts:47 | attempt `k` settles as the reference attempt `k` and leaves the token state that the first `k + 1` attempts leave |
| `WirelessApi.RetriedRequest` | src/api/wirelessApi.ts:45-49 | the retry loop around `super.request` settles, calls and waits exactly as the `retry` utility's reference run on the attempts it makes; the client's token state afterwards is the one its attempts left |
| `WirelessApi.WirelessApi.constructor` | src/api/wirelessApi.ts:35-43 | the API keeps its client and retry options and gets a fresh, idle rate limiter for the given rate |
| `WirelessApi.NewWirelessApi` | src/api/wirelessApi.ts:35-43 | the rate defaults to 10 per second; construction throws the limiter's error exactly when the rate is not positive |
| `WirelessApi.WirelessApi.Request` | src/api/wirelessApi.ts:45-49 | the call is queued as one task on the rate limiter and dispatched after every earlier task; the task settles as the retried request; the limiter is idle and valid afterwards |
| `WirelessApi.WirelessApi.Call` | src/api/wirelessApi.ts:52-260 | every API method settles as the retried, rate-limited request of its options |
| `WirelessApi.NetworkFailureReportedAtOnce` | src/api/wirelessApi.ts:45-49 | under the default retry options a network failure is reported after one attempt, as a status-0 `ApiError` with no wait |
| `WirelessApi.ClientErrorReportedAtOnce` | src/api/wirelessApi.ts:45-49 | under the default retry options an unexpected status below 500, other than 429, is reported after one attempt, carrying that status |
| `WirelessApi.DeleteOn204Fails` | src/api/wirelessApi.ts:137-245 | a delete answered 204 is reported after one attempt as a status-0 `ApiError` with the empty-text message, although 204 is its expected status |
| `WirelessApi.DeleteOn204ResolvesIntended` | src/api/wirelessApi.ts:137-245 | with the intended try block, a 204 resolves every delete with undefined |
| `WirelessApi.CachedTokenKept` | src/api/wirelessApi.ts:45-49 | while the cached token stays valid, no attempt changes the client's token state |
| `WirelessApi.PersistentServerErrorRetried` | src/api/wirelessApi.ts:45-49 | under the default retry options a server that keeps answering 5xx is tried three times, waiting 1000 ms and then 2000 ms; the last error is reported and a valid cached token is reused throughout |
| `WebhookApi.CreateSecretOptions` | src/api/webhookApi.ts:18-29 | `createSecret` POSTs `/secrets` with the name as the only field, expecting 201 |
| `WebhookApi.SecretFieldsReadBack` | src/api/webhookApi.ts:35-37 | the body of `modifySecret` holds each argument that is not undefined, an empty string included, and nothing else |
| `WebhookApi.ModifySecretBody` | src/api/webhookApi.ts:35-37 | the body is built field by field, Name before Status |
| `WebhookApi.ModifySecretOptions` | src/api/webhookApi.ts:39-44 | `modifySecret` PATCHes `/secrets/<id>`, expecting 200 |
| `WebhookApi.ListSecretsQuery` | src/api/webhookApi.ts:51-53 | the query is the truthy ones of `page_size` and `page_number`, in this order |
| `WebhookApi.ListSecretsQueryReadsBack` | src/api/webhookApi.ts:51-53 | a zero or absent page size or page number is left out of the query |
| `WebhookApi.ListSecretsOptions` | src/api/webhookApi.ts:55-60 | `listSecrets` GETs `/secrets` with the query, expecting 200 |
| `WebhookApi.WebhookApi.constructor` | src/api/webhookApi.ts:10-13 | the API gets a fresh rate limiter of 10 requests per second |
| `WebhookApi.WebhookApi.CreateSecret` | src/api/webhookApi.ts:18-29 | one exchange through the base pipeline, with no queueing and no retry |
| `WebhookApi.WebhookApi.ModifySecret` | src/api/webhookApi.ts:34-45 | one exchange with the body of the fields given |
| `WebhookApi.WebhookApi.ListSecrets` | src/api/webhookApi.ts:50-61 | one exchange with the query built from the truthy arguments |
| `Retry.DefaultShouldRetry` | src/utils/retry.ts:14-16 | the default predicate never retries an Error without a status, and retries an `ApiError` exactly when its status is at least 500 or is 429 |
| `Retry.RetryRun` | src/utils/retry.ts:21-37 | the reference run: with no attempt left it throws undefined without a call; otherwise it makes between one call and the number of attempts left, with one wait fewer than calls |
| `Retry.Pow2` | src/utils/retry.ts:32 | powers of two are at least 1 |
| `Retry.Retry` | src/utils/retry.ts:7-38 | the loop settles, calls the operation and waits exactly as the reference run from attempt 0 with the defaulted options |
| `Retry.RunStep` | src/utils/retry.ts:21-35 | an attempt either ends the run with its own completion, because it returned, its error is not retryable or it was the last one, or it defers to the next attempt after one delay |
| `Retry.NoAttemptsThrowsUndefined` | src/utils/retry.ts:21-37 | with `maxRetries <= 0` nothing is called and `undefined` is thrown |
| `Retry.CallsBounded` | src/utils/retry.ts:21-35 | a run makes at least one call and at most `maxRetries` calls, and waits once fewer than it calls |
| `Retry.DelaySchedule` | src/utils/retry.ts:31-33 | the j-th wait is `retryDelay * 2^j`: exponential backoff |
| `Retry.EarlierCallsFailedRetryably` | src/utils/retry.ts:24-29 | every call but the last threw an error the predicate accepted |
| `Retry.LastCallDecides` | src/utils/retry.ts:21-35 | the run settles exactly as its last call did, returning the value or rethrowing the error unchanged; it stopped there because the call returned, its error was not retryable, or it was the last one allowed |
| `Retry.FirstSuccessReturned` | src/utils/retry.ts:23 | a first call that returns ends the run at once, with no wait |
| `Retry.RejectedErrorRethrownAtOnce` | src/utils/retry.ts:27-29 | an error the predicate rejects is rethrown after one call, with no wait |
| `Retry.DefaultsAlwaysRetryable` | src/utils/retry.ts:11-17 | with the defaults, an operation that always fails with status >= 500 or 429 is called three times, with waits of 1000 ms then 2000 ms |
| `Limiter.MinIntervalFor` | src/utils/rateLimiter.ts:15-20 | a non-positive rate throws "requestsPerSecond must be greater than 0"; otherwise the interval is the whole part of `1000 / rate` |
| `Limiter.Tasks` | src/utils/rateLimiter.ts:55-58 | one task per start, in order |
| `Limiter.SpacedExtend` | src/utils/rateLimiter.ts:47-59 | a start at least one interval after the previous start, and not before the previous task settled, keeps the dispatch discipline |
| `Limiter.TasksExtend` | src/utils/rateLimiter.ts:55-58 | one more start adds its task at the end |
| `Limiter.RateLimiter.constructor` | src/utils/rateLimiter.ts:6-20 | a new limiter has an empty queue, is not processing, has last start time 0, and has the derived interval |
| `Limiter.RateLimiter.Add` | src/utils/rateLimiter.ts:27-42 | the task joins the back of the queue; a dispatcher starts exactly when none was running; the limiter's invariant is kept |
| `Limiter.RateLimiter.Elapse` | src/utils/rateLimiter.ts:48 | time passing keeps the limiter's invariant |
| `Limiter.RateLimiter.DispatchNext` | src/utils/rateLimiter.ts:47-59 | the front task starts once a full interval has passed since the previous start, and at once if one already has; it runs to completion, its outcome goes to its own caller, and the limiter's invariant is kept |
| `Limiter.RateLimiter.ProcessQueue` | src/utils/rateLimiter.ts:44-63 | the dispatcher starts every queued task in queue order, a throwing task included, then stops processing; all starts keep the dispatch discipline |
| `Limiter.NewRateLimiter` | src/utils/rateLimiter.ts:15-20 | construction throws exactly for a non-positive rate |
| `Limiter.StartsSpreadOut` | src/utils/rateLimiter.ts:47-57 | starts n positions apart are at least n intervals apart |
| `Limiter.AtMostOneStartPerInterval` | src/utils/rateLimiter.ts:47-57 | any two starts are at least one interval apart |
| `Limiter.NoOverlap` | src/utils/rateLimiter.ts:55-58 | no task starts before every earlier task settled |
| `Limiter.FifoOrder` | src/utils/rateLimiter.ts:29-55 | tasks start in the order they were added |
| `Validation.ValidateString` | src/utils/validation.ts:10-33 | the value is accepted exactly when it passes every check. Those checks are: truthy if required; undefined or a string; at least `minLength` and at most `maxLength` UTF-16 code units, where a zero bound imposes nothing; the pattern matches. The first failing check decides the error: "is required", "must be a string", "must be at least N characters", "must not exceed N characters" or "has invalid format", each after the parameter name |
| `Validation.AstralCharacterCountsTwice` | src/utils/validation.ts:26-28 | a single character outside the Basic Multilingual Plane already exceeds a `maxLength` of 1 |
| `Validation.ValidateNumber` | src/utils/validation.ts:39-62 | the value is accepted exactly when it is undefined and not required, or a number within the bounds, where 0 is a real bound. Every error names the parameter; the first failing check decides it: "is required" for a required undefined, "must be a number" for a non-number, then "must be at least" and "must not exceed" with the bound |
| `Validation.RemoveFirstColon` | src/utils/validation.ts:78 | a text with a colon loses exactly one character, and a text without a colon is unchanged |
| `Validation.RemoveFirstColonAt` | src/utils/validation.ts:78 | only the first colon is removed: the result is the text before it followed by the text after it |
| `Validation.ValidateUrl` | src/utils/validation.ts:68-85 | the URL is accepted exactly when it is present if required, parses, and has a listed protocol; a required falsy value reports "is required", and every other rejection reads "must be a valid URL" |
| `Validation.ValidateUrlIntended` | src/utils/validation.ts:68-85 | it accepts the same URLs, and a parsed URL with an unlisted protocol gets the protocol message |
| `Validation.UrlVersionsAgreeOnVerdict` | src/utils/validation.ts:68-85 | the as-written and intended checks accept the same values and differ only in the protocol message |
| `Validation.ProtocolMessageSwallowed` | src/utils/validation.ts:76-83 | for a parsed URL with an unlisted protocol, the as-written check reports "must be a valid URL", a message different from the protocol message |
| `Validation.RemoveAngles` | src/utils/validation.ts:92 | no `<` or `>` is left, and the text gets no longer |
| `Validation.RemoveAnglesCounts` | src/utils/validation.ts:92 | every character other than `<` and `>` is kept as often as it occurred |
| `Validation.RemoveAnglesAppend` | src/utils/validation.ts:92 | removal works piece by piece, so the kept characters stay in their order |
| `Validation.RemoveAnglesKeeps` | src/utils/validation.ts:92 | a text without angle brackets is unchanged |
| `Validation.PassesEscapeOnce` | src/utils/validation.ts:93-96 | the four `replace` passes, `&` first, entity-escape every character exactly once |
| `Validation.UnescapeEscape` | src/utils/validation.ts:93-96 | decoding the entities gives the text back: escaping loses nothing |
| `Validation.EscapeSafe` | src/utils/validation.ts:92-96 | escaped bracket-free text holds no `<`, `>`, quote, apostrophe or slash |
| `Validation.Escape` | src/utils/validation.ts:93-96 | escaping never shortens the text and leaves no quote, apostrophe or slash |
| `Validation.SanitizeString` | src/utils/validation.ts:90-98 | the four `replace` passes after bracket removal amount to escaping each character once, followed by `trim` |
| `Validation.SanitizeStringGuarantees` | src/utils/validation.ts:90-98 | `sanitizeString` drops angle brackets, escapes the other markup characters once and trims; its result holds no markup character |
| `Interceptors.MapStrings` | src/utils/interceptors.ts:17-22 | only string-valued headers are kept, so the result is no longer than the record |
| `Interceptors.MapStringsMembership` | src/utils/interceptors.ts:17-22 | a header survives exactly when its value was a string, and then it carries the mapped value |
| `Interceptors.MapStringsDistinct` | src/utils/interceptors.ts:17-22 | distinct header names stay distinct |
| `Interceptors.SanitizeHeaders` | src/utils/interceptors.ts:17-22 | the `forEach` builds the sanitised string-valued headers in record order |
| `Interceptors.SanitizedSafe` | src/utils/interceptors.ts:17-22 | sanitised headers keep distinct names and hold no markup character |
| `Interceptors.Lift` | src/utils/interceptors.ts:24-27 | the sanitised headers become a header record with the same entries |
| `Interceptors.RequestUrl` | src/utils/interceptors.ts:11 | the checked URL is the base URL followed by the path, with an absent base URL read as "undefined"; it is empty exactly when both are empty |
| `Interceptors.DefaultRequestInterceptor` | src/utils/interceptors.ts:8-28 | the request passes exactly when `baseURL + path` is an https URL. It then keeps the options and base URL and carries only the sanitised string headers. Otherwise it throws "Request URL is required" for an empty URL and "Request URL must be a valid URL" for every other rejection, a non-https URL included |
| `Interceptors.RateLimited` | src/utils/interceptors.ts:36-41 | only a 429 that carries a `Retry-After` header is rejected as rate-limited |
| `Interceptors.JsonOrUntyped` | src/utils/interceptors.ts:47-50 | a response without a `Content-Type` header passes the content-type check |
| `Interceptors.DefaultResponseInterceptor` | src/utils/interceptors.ts:34-53 | a response passes unchanged exactly when it is not a 429 with a non-empty `Retry-After` and its content type is absent, empty or JSON; each rejection carries its own message |
| `Interceptors.RateLimitWithoutRetryAfterPasses` | src/utils/interceptors.ts:36-41 | a 429 whose `Retry-After` is absent or empty gets the same verdict as a 200 with the same headers |
| `Interceptors.MissingHeaders` | src/utils/interceptors.ts:64-69 | at most one name per required header |
| `Interceptors.CheckSecurityHeaders` | src/utils/interceptors.ts:64-69 | one warning per required header that is missing, empty or different, in table order |
| `Interceptors.SecurityResponseInterceptor` | src/utils/interceptors.ts:59-72 | the response passes unchanged, and with the empty table no warning is ever issued |
| `Logging.LevelIndex` | src/utils/logger.ts:5-10 | the four levels have positions 0 to 3 in declaration order |
| `Logging.Merge` | src/utils/logger.ts:41-43 | `configure` overrides exactly the settings given, an explicit undefined included |
| `Logging.ConfigureComposes` | src/utils/logger.ts:41-43 | configuring twice is configuring once with the later settings winning; configuring with nothing changes nothing |
| `Logging.ThresholdProperties` | src/utils/logger.ts:122-127 | the threshold is monotone, errors always pass, an undefined level passes everything, and the default configuration drops only debug |
| `Logging.Mask` | src/utils/logger.ts:48-71 | masking leaves non-objects unchanged; it masks array items one by one; it keeps an object's keys in order, replaces a sensitive key's value by "***MASKED***", masks the other object values recursively and keeps the other values as they are |
| `Logging.MaskRedacts` | src/utils/logger.ts:48-71 | after masking, every sensitive key at any depth holds only "***MASKED***" |
| `Logging.MaskIdempotent` | src/utils/logger.ts:48-71 | masking twice is masking once |
| `Logging.NoFieldsNoMasking` | src/utils/logger.ts:59 | with no mask fields, undefined or empty, every value is logged as is |
| `Logging.SecretKeysMaskedByDefault` | src/utils/logger.ts:26-61 | any key containing "secret" in any case is masked by default |
| `Logging.MaskAll` | src/utils/logger.ts:80 | each argument is masked, in order |
| `Logging.Logger.constructor` | src/utils/logger.ts:26-36 | the configuration starts at INFO with the six default mask fields |
| `Logging.Logger.Configure` | src/utils/logger.ts:41-43 | the new configuration is the old one merged with the partial one |
| `Logging.Logger.Emit` | src/utils/logger.ts:76-120 | a line is logged exactly when the level passes the threshold; it is the prefixed message followed by the masked arguments |
| `Logging.Logger.Debug` | src/utils/logger.ts:76-83 | debug logs "[DEBUG] message" and the masked arguments exactly when debug passes the threshold |
| `Logging.Logger.Info` | src/utils/logger.ts:88-95 | info logs "[INFO] message" and the masked arguments exactly when info passes the threshold |
| `Logging.Logger.Warn` | src/utils/logger.ts:100-107 | warn logs "[WARN] message" and the masked arguments exactly when warn passes the threshold |
| `Logging.Logger.Error` | src/utils/logger.ts:112-120 | error always logs "[ERROR] message", then the error's message or the empty string, then the masked arguments |
| `Responses.FirstFinal` | src/types/responses.ts:79-88 | the last fetch made is the first one that rejects or whose page has no next link |
| `Responses.FlattenAppend` | src/types/responses.ts:83-85 | the items of two runs of pages are the items of each, concatenated |
| `Responses.FlattenPlacesPage` | src/types/responses.ts:83-85 | every page's items appear in full, at their page's place; a rejected fetch contributes nothing |
| `Responses.FlattenStep` | src/types/responses.ts:83-85 | one more fetch adds exactly its page's items, or nothing for a rejected fetch |
| `Responses.YieldAll` | src/types/responses.ts:83-85 | the inner loop yields every item of the page, in order, after those yielded before |
| `Responses.Paginate` | src/types/responses.ts:75-89 | the first page is fetched with no token and each later one with the previous page's next link. Fetching stops after the first page without a next link or the first rejected fetch. Every item of the fetched pages is yielded in order, and a rejected fetch then ends the generator with its error |
| `Responses.SinglePage` | src/types/responses.ts:75-89 | a first page without a next link is the only page fetched, and its items are all that is yielded |
| `Responses.FirstFetchRejects` | src/types/responses.ts:75-89 | a first fetch that rejects is the only one made, and nothing is yielded |

## Left out

- Floating point: numbers are integers. `NaN`, fractional values and string-to-number coercion are not modelled.
- Limiter.MinIntervalFor: keeps the integer part of `1000 / requestsPerSecond`; the source's interval is fractional for rates that do not divide 1000.
- Validation.ValidateNumber: the `integer` option and the `NaN` rejection are not modelled, because every model number is an integer.
- Validation.ValidateString: a `RegExp` pattern is an abstract predicate on strings.
- Parsing by `new URL(...)` is an abstract parser that yields the protocol or fails.
- Percent-encoding in `URLSearchParams.toString()` is not modelled. Serialisation joins `key=value` pairs with `&`.
- Js.Lower and Js.Trim: only ASCII case mapping and ASCII white space, not Unicode.
- Console output is not modelled. The logger's methods return the line they would print, the rate limiter and pipeline `console.log` calls are dropped, and the security warnings are returned as a list.
- Concurrency:
  - Calls are modelled one at a time.
  - `WirelessApi.WirelessApi.Request` requires an idle rate limiter and runs the retried request before queuing its task. For one call this gives the same result and the same token state as running it inside the dispatcher.
  - Interleavings of concurrent callers, and tasks added while the dispatcher runs, are not modelled.
- Timer accuracy and scheduler jitter are not modelled. Waiting advances the limiter's clock by exactly the requested time, and the clock readings each request attempt sees are independent inputs.
- Responses.Paginate: the generator is drained. Laziness and stopping early are not modelled, and the page source is a finite script that eventually rejects or answers a page without a next link; a source that never does would make the generator run forever.
- The `KoreClient` constructor's creation of the wireless, client, webhook and super-SIM API objects is not modelled. src/api/clientApi.ts and src/api/supersimApi.ts are not part of this model.
- The explicit `headers` passed by `createRatePlan`, `updateSim` and `createCommand` are dropped, as in the source: the base `request` never reads them.
- Retry.RetryRun: a `shouldRetry` that itself throws is not modelled. This includes the default predicate reading `status` of a thrown `null`, which throws a TypeError.
- The listings' last three `append`s are modelled by calling `buildPaginationParams`. Those appends are the same as its body.
- Type assertions (`as TokenResponse`, `as T`) do not check anything and are not modelled; values keep their JSON shape.

## Findings

| source | as written | input that shows it | evidently intended | confidence | as-written member | corrected member |
|---|---|---|---|---|---|---|
| src/utils/validation.ts:76-83 | the protocol error is thrown inside the `try` whose `catch` replaces every error with "must be a valid URL" | `validateUrl('http://example.com', 'Request URL', { protocols: ['https'] })` reports "Request URL must be a valid URL" | report "Request URL must use one of these protocols: https" | high (not executed) | `Validation.ProtocolMessageSwallowed` | `Validation.ValidateUrlIntended` |
| src/api/baseApi.ts:49 | `response.json()` is called on every response, and a 204 has no body to parse | `deleteSim('HS1')` answered 204 No Content rejects with a status-0 `ApiError` "Unexpected end of JSON input" | resolve with no value when the expected status carries no body | high (not executed) | `WirelessApi.DeleteOn204Fails` | `BaseApi.AttemptIntended` |
