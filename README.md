# OpenLigaDB reverse proxy: a Dafny model of the request-execution core

The proxy accepts `POST /proxy/execute` with an `operationType` (`ListLeagues`,
`GetLeagueMatches`, `GetTeam`, `GetMatch`), an optional `requestId` and a `payload`. It validates
the operation name and the payload, routes the operation to an OpenLigaDB adapter method, fetches
the upstream URL behind a sliding-window rate limiter with exponential-backoff retries, and
normalizes the upstream JSON into a stable schema. With the payload verdict read as intended (see
Findings), every answer the route builds is either a success envelope or an error envelope that
carries the request id. An audit middleware settles a request id for every
request and logs it with the sensitive headers redacted.

The model has one module per source file:

- `Backoff` (backoff.dfy): `exponential_backoff`, with the random draw as a parameter.
- `RateLimit` (rate_limiter.dfy): `RateLimiter` as a class over a `seq<real>` queue, and `check_rate_limit`.
- `OpenLigaDb` (openligadb.dfy): the URL builders and `_fetch`; `FetchFrom` is the specification and `OpenLigaDbAdapter.Fetch` is the loop proved against it.
- `Requests` (requests.dfy): the operation table, the payload schemas, pydantic's per-field check and `ProxyRequest`.
- `Validators` (validators.dfy): `validate_operation_type`, and `validate_payload` with its error-dict loop.
- `DecisionMapping` (decision_mapper.dfy): the routing table and `execute`.
- `Normalizers` (normalizers.dfy): the four normalizers and the dispatch.
- `AdapterManager` (manager.dfy): the adapter registry and the instance cache.
- `Proxy` (proxy.dfy): `_error_response`, the branching of `execute_proxy`, and `get_mapper`.
- `Audit` (audit.dfy): request-id precedence, header redaction, body preview and size, and `dispatch`.

`foundation.dfy` holds the shared vocabulary:

- `Option` and `Result`;
- decimal rendering of integers;
- ASCII lower-casing and Python slicing;
- JSON values with Python truthiness, `or` and `dict.get`;
- dicts built by successive insertions.

Everything outside the program is a parameter. This covers the network, the clocks and the
random generator. An `Environment` gives, for each retry count `n`:

- the three monotonic times that attempt `n`'s rate-limit check reads (`is_allowed`, then, after a
  denial, `get_remaining` and `get_reset_time`);
- what the upstream does on that attempt;
- the `random.random()` value its backoff would use.

A raised exception is an explicit `None` or error constructor.

Where the code falls short of the behaviour the service means to have, the model follows the code:

- `normalize_response` is documented as mapping an upstream answer to a stable output schema
  (app/normalizers.py:5-14), but the normalizers raise in several cases: a list element that is not
  an object, a truthy `Team1`/`Team2` that is not an object, and a truthy `MatchResults` that is not
  a list ending in an object. So the normalizers return `Option`, and the proxy turns `None` into
  its 500 answer.
- The normalized schema is meant to be stable, so normalizing already-normalized output should not
  corrupt it. That holds for leagues and teams, but not for `normalize_matches`: its own records
  lose their team names and goals when read again (`Normalizers.MatchesNotIdempotent`).
- `execute_proxy`'s docstring says the route validates, invokes the decision mapper and returns the
  normalized response, and app/models/responses.py gives every answer a success or an error
  envelope. As written, the route unpacks three values from a four-value tuple for every known
  operation and raises a `ValueError` outside its `try` block (see Findings). The model keeps this
  as-written reading and also gives the corrected route `Proxy.ExecuteProxy`, about which the
  envelope properties are proved.
- `_fetch` is documented as fetching "with exponential backoff retry logic", which a reader takes to
  cover timeouts and connection failures. The code retries only on `asyncio.TimeoutError`, and any
  other client exception propagates (`Raised`). The client is an `httpx.AsyncClient`, whose own
  timeouts raise `httpx.TimeoutException`, which that handler does not catch. So the
  retry-on-timeout and synthetic-504 path (`TimedOut`, `AlwaysTimingOut`) is reached only when an
  `asyncio.TimeoutError` reaches the handler. An httpx timeout is `TransportFailed` in the model.
- `requestId` is described as the "Unique request ID" of the request (app/models/requests.py:46-49),
  and the audit middleware derives one too. In the code, the middleware's id (`X-Request-ID`
  header, then the body's `requestId`, then a fresh UUID) is used only for its own log records.
  The route takes the body's `requestId`, or the UUID that `ProxyRequest` draws for a missing one.
  So an id sent only as a header never reaches the envelope, and with no id at all the log records
  and the envelope carry two different UUIDs. The model keeps the two ids separate, as the code
  does.

## Model

| member | source | states |
|---|---|---|
| `Backoff.CappedDelay` | app/utils/backoff.py:21 | the pre-jitter delay is `base * 2^n` or `max`, whichever is smaller |
| `Backoff.Uniform` | app/utils/backoff.py:24 | `random.uniform(a, b)` lies between its bounds, in either order |
| `Backoff.ExponentialBackoff` | app/utils/backoff.py:3-26 | without jitter the delay is the capped delay; with jitter it lies in `[0, capped]` |
| `Backoff.BackoffWithinBounds` | app/utils/backoff.py:21-24 | for non-negative settings every delay lies in `[0, max_delay]` |
| `Backoff.FirstRetryDelay` | app/utils/backoff.py:21 | retry 0 waits `min(base, max)` before jitter |
| `Backoff.DelayMonotone` | app/utils/backoff.py:21 | without jitter, later retries never wait less |
| `RateLimit.Prune` | app/utils/rate_limiter.py:33-34 | the queue left once every time older than the cutoff has been popped from the front; it is never longer than the input, and `PruneKeepsSuffix`, `PruneDropsExpired`, `PruneRemovesExactlyExpired` and `PruneIdempotent` state what it keeps |
| `RateLimit.PruneKeepsSuffix` | app/utils/rate_limiter.py:33-34 | pruning only removes entries from the front of the queue |
| `RateLimit.PruneDropsExpired` | app/utils/rate_limiter.py:33-34 | every dropped entry is older than the cutoff, and the first kept one is not |
| `RateLimit.PruneRemovesExactlyExpired` | app/utils/rate_limiter.py:33-34 | on an ascending queue, pruning the front equals filtering out every expired timestamp |
| `RateLimit.PruneIdempotent` | app/utils/rate_limiter.py:33-34 | pruning twice at the same cutoff is pruning once |
| `RateLimit.Admit` | app/utils/rate_limiter.py:24-41 | `is_allowed` at one instant: prune, then admit and record the instant iff fewer than `limit` times remain; no ensures of its own, `AdmitBounded`, `AdmitKeepsSorted` and `ThreePerMinute` state its properties |
| `RateLimit.AdmitBounded` | app/utils/rate_limiter.py:37-41 | the queue never exceeds `limit`; a denial happens only at a full queue |
| `RateLimit.AdmitKeepsSorted` | app/utils/rate_limiter.py:31-39 | with a clock that does not go back, the queue stays ascending |
| `RateLimit.ThreePerMinute` | app/utils/rate_limiter.py:24-41 | limit 3 per 60 s: three admitted, a fourth denied inside the window (inclusive edge), admitted after it |
| `RateLimit.ResetTime` | app/utils/rate_limiter.py:53-62 | reset time is 0 for an empty queue, never negative, and at least `oldest + window - now` |
| `RateLimit.ResetTimeFreesOldest` | app/utils/rate_limiter.py:53-62 | after the reported reset time the oldest entry has expired |
| `RateLimit.OldestKeptAtResetTime` | app/utils/rate_limiter.py:33-60 | at exactly the reported reset time the oldest entry still counts (strict `<` in the prune) |
| `RateLimit.RateLimiter.constructor` | app/utils/rate_limiter.py:13-22 | a new limiter has the given limit and window and an empty queue |
| `RateLimit.RateLimiter.DropExpired` | app/utils/rate_limiter.py:33-34 | the `popleft` loop leaves exactly `Prune` of the old queue |
| `RateLimit.RateLimiter.IsAllowed` | app/utils/rate_limiter.py:24-41 | answer and new queue are those of `Admit`; the bound `|requests| <= limit` is kept |
| `RateLimit.RateLimiter.GetRemaining` | app/utils/rate_limiter.py:43-51 | prunes, then returns `max(0, limit - len)` |
| `RateLimit.RateLimiter.GetResetTime` | app/utils/rate_limiter.py:53-62 | returns `ResetTime` of the queue, which it does not change |
| `RateLimit.RateCheck` | app/utils/rate_limiter.py:65-83 | `check_rate_limit` on the queue and the three clock reads: admitted with the grown queue, or a 429 `RATE_LIMIT_EXCEEDED` whose reset time is read from the queue pruned at the second read; no ensures of its own, `DenialRecordsNothing` and `SameInstantDenial` state its properties and `CheckRateLimit` is proved against it |
| `RateLimit.CheckRateLimit` | app/utils/rate_limiter.py:65-83 | admission at the first clock read, or a second prune at the second read and a 429 `RATE_LIMIT_EXCEEDED` whose reset time is taken at the third, as `RateCheck` says |
| `RateLimit.DenialRecordsNothing` | app/utils/rate_limiter.py:24-62 | with reads in clock order, a denial leaves the queue pruned at the second read, records nothing, and reports the time from the third read until the oldest remaining entry leaves the window |
| `RateLimit.PruneTwice` | app/utils/rate_limiter.py:33-49 | pruning at a cutoff and then at a later one is pruning at the later one |
| `RateLimit.SameInstantDenial` | app/utils/rate_limiter.py:65-83 | when the three reads coincide, the denial reports the queue `is_allowed` left and its reset time at that instant |
| `OpenLigaDb.AttemptStep` | app/adapters/openligadb.py:45-101 | what one admitted attempt makes of the upstream's outcome: the 200 body, a retry of a 429/5xx or of a timeout while retries are left, the API-error body, the synthetic 504, or a raise; no ensures of its own, `FetchedResponse` and `OpenLigaDbAdapter.Handle` state its cases |
| `OpenLigaDb.FetchFrom` | app/adapters/openligadb.py:33-101 | `_fetch(url, retry_count)` as a recursive function of the limiter queue and the environment: its result, the final queue, the upstream calls and the sleeps; no ensures of its own, `FetchBounded`, `FetchedResponse`, the `TransientFailures*` lemmas, `AlwaysUnavailable`, `AlwaysTimingOut`, `FirstAnswerOk`, `NonRetryableAnswerEndsAtOnce` and `RetryNeedsAdmission` state its properties and `OpenLigaDbAdapter.Fetch` is proved equal to it |
| `OpenLigaDb.FetchBounded` | app/adapters/openligadb.py:33-101 | at most `BACKOFF_MAX_RETRIES + 1` upstream calls; one backoff sleep between calls; the i-th sleep is the backoff for retry i |
| `OpenLigaDb.FetchedResponse` | app/adapters/openligadb.py:45-101 | a returned response carries the fetched URL; a 200 carries the last answer's body and latency; any other status gives `{"error": "API error: <status>"}` with the last answer's status and latency; a final timeout gives the synthetic 504 with latency `timeout * 1000`; a retryable status comes back only once retries are exhausted |
| `OpenLigaDb.TransientFailuresExhaustRetries` | app/adapters/openligadb.py:54-94 | while the limiter admits, 429/5xx and timeouts are retried until `BACKOFF_MAX_RETRIES` |
| `OpenLigaDb.TransientFailuresLastAnswerDecides` | app/adapters/openligadb.py:54-101 | after only transient failures, the last attempt's answer decides the result |
| `OpenLigaDb.AlwaysUnavailable` | app/adapters/openligadb.py:54-77 | a steady 503 costs `max_retries + 1` calls and returns `{"error": "API error: 503"}` with status 503 |
| `OpenLigaDb.AlwaysTimingOut` | app/adapters/openligadb.py:79-101 | steady timeouts return the synthetic 504 `{"error": "Request timeout"}` with latency `timeout * 1000` |
| `OpenLigaDb.FirstAnswerOk` | app/adapters/openligadb.py:37-51 | an admitted first 200 returns at once: one call, no sleep, `now` recorded in the queue |
| `OpenLigaDb.NonRetryableAnswerEndsAtOnce` | app/adapters/openligadb.py:45-77 | an admitted answer that is neither 200 nor retryable (a 404) ends the fetch: one call, no sleep, the API-error body with its status and latency |
| `OpenLigaDb.RetryNeedsAdmission` | app/adapters/openligadb.py:37-69 | each retry passes the limiter again: with room for two calls, the third check raises the 429 |
| `OpenLigaDb.LeaguesUrl` | app/adapters/openligadb.py:103-106 | the base URL followed by `/api/getavailableleagues`; no ensures of its own, `OpenLigaDbAdapter.ListLeagues` states that this is the URL fetched |
| `OpenLigaDb.LeagueMatchesUrl` | app/adapters/openligadb.py:108-112 | `/api/getmatchdata/<league>/<season>`, a missing season written `None`; no ensures of its own, `LeagueMatchesUrlInjective` and `LeagueSeasonAndTeamPairShareUrl` state its properties |
| `OpenLigaDb.TeamUrl` | app/adapters/openligadb.py:114-117 | `/api/getteam/<team>`; no ensures of its own, `TeamUrlInjective` and `TeamAndStandingsUrlsDiffer` state its properties |
| `OpenLigaDb.StandingsUrl` | app/adapters/openligadb.py:119-122 | `/api/getbltable/<league>`; no ensures of its own, `StandingsUrlInjective` and `TeamAndStandingsUrlsDiffer` state its properties |
| `OpenLigaDb.MatchesBetweenUrl` | app/adapters/openligadb.py:124-127 | `/api/getmatchdata/<team1>/<team2>`; no ensures of its own, `MatchesBetweenUrlInjective` and `LeagueSeasonAndTeamPairShareUrl` state its properties |
| `OpenLigaDb.TeamUrlInjective` | app/adapters/openligadb.py:114-117 | different team ids give different URLs |
| `OpenLigaDb.StandingsUrlInjective` | app/adapters/openligadb.py:119-122 | different league ids give different standings URLs |
| `OpenLigaDb.OptIntToStringInjective` | app/adapters/openligadb.py:110 | rendering an optional season (`None` as "None") is injective |
| `OpenLigaDb.LeagueMatchesUrlInjective` | app/adapters/openligadb.py:108-112 | different league/season pairs give different URLs |
| `OpenLigaDb.MatchesBetweenUrlInjective` | app/adapters/openligadb.py:124-127 | different team pairs give different URLs |
| `OpenLigaDb.LeagueSeasonAndTeamPairShareUrl` | app/adapters/openligadb.py:108-127 | league x, season y and teams x, y fetch the same URL; a missing season gives `<base>/api/getmatchdata/<league>/None`, which no team pair fetches |
| `OpenLigaDb.TeamAndStandingsUrlsDiffer` | app/adapters/openligadb.py:114-122 | team and standings URLs never coincide |
| `OpenLigaDb.HttpClient.constructor` | app/adapters/openligadb.py:30 | the client is built with the adapter's timeout |
| `OpenLigaDb.OpenLigaDbAdapter.constructor` | app/adapters/openligadb.py:18-25 | limiter from the configured limit and window, base URL and timeout from settings, no client |
| `OpenLigaDb.OpenLigaDbAdapter.GetClient` | app/adapters/openligadb.py:27-31 | the client is created on first use only and reused afterwards |
| `OpenLigaDb.OpenLigaDbAdapter.Handle` | app/adapters/openligadb.py:41-101 | one admitted attempt returns or retries exactly as `AttemptStep` says |
| `OpenLigaDb.OpenLigaDbAdapter.Attempt` | app/adapters/openligadb.py:33-101 | one call of `_fetch` up to its recursive call: a denial ends the fetch with no upstream call and leaves the client alone; an admitted attempt has a client and ends with one call or continues as `FetchFrom` at the next retry count |
| `OpenLigaDb.OpenLigaDbAdapter.Fetch` | app/adapters/openligadb.py:33-101 | the retry loop ends with the result, calls, sleeps and limiter queue of `FetchFrom`; after an upstream call the client exists; a fetch without a call, or with a client already there, leaves the client as it was |
| `OpenLigaDb.OpenLigaDbAdapter.ListLeagues` | app/adapters/openligadb.py:103-106 | fetches `<base>/api/getavailableleagues` |
| `OpenLigaDb.OpenLigaDbAdapter.GetLeagueMatches` | app/adapters/openligadb.py:108-112 | fetches `<base>/api/getmatchdata/<league>/<season>` |
| `OpenLigaDb.OpenLigaDbAdapter.GetTeam` | app/adapters/openligadb.py:114-117 | fetches `<base>/api/getteam/<team>` |
| `OpenLigaDb.OpenLigaDbAdapter.GetLeagueStandings` | app/adapters/openligadb.py:119-122 | fetches `<base>/api/getbltable/<league>` |
| `OpenLigaDb.OpenLigaDbAdapter.GetMatchesBetweenTeams` | app/adapters/openligadb.py:124-127 | fetches `<base>/api/getmatchdata/<team1>/<team2>` |
| `Requests.OperationTable` | app/models/requests.py:28-35 | four operations, four distinct names, and `VALID_OPERATIONS` is exactly those names |
| `Requests.OperationNamed` | app/models/requests.py:28-33 | a map lookup succeeds exactly for the four names and returns the operation of that name |
| `Requests.NameRoundTrip` | app/models/requests.py:28-33 | looking up an operation's name gives the operation back |
| `Requests.Attr` | app/models/requests.py:6-25 | a payload model has exactly its schema's fields |
| `Requests.CheckField` | app/models/requests.py:13-25 | one `int = Field(..., gt=0)` field passes iff it is a present positive integer |
| `Requests.FailingExactly` | app/models/requests.py:6-25 | the failing fields are exactly the schema fields that are not positive integers |
| `Requests.FieldErrors` | app/models/requests.py:6-25 | one error per failing field, in schema order, located at that field |
| `Requests.ParsePayload` | app/models/requests.py:6-25 | validation succeeds iff every required field is a positive int; the model carries those values; a failure has errors |
| `Requests.ValidatedIdsPositive` | app/models/requests.py:13-25 | every id in a validated payload is positive |
| `Requests.OperationTypeErrors` | app/models/requests.py:39-44 | the `operationType` errors: `missing`, or `literal_error` for a value that is not one of the four names; no ensures of its own; `ParseProxyRequest` gathers the errors of this and the next two and states outright when the body is accepted |
| `Requests.RequestIdErrors` | app/models/requests.py:46-49 | the `requestId` error: `string_type` for a present value that is neither a string nor null; no ensures of its own; `ParseProxyRequest` states the acceptance condition it contributes to |
| `Requests.PayloadErrors` | app/models/requests.py:51-54 | the `payload` errors: `missing`, or `dict_type` for a value that is not an object; no ensures of its own; `ParseProxyRequest` states the acceptance condition it contributes to |
| `Requests.ParseProxyRequest` | app/models/requests.py:38-54 | a body is accepted iff it names one of the four operations, has a string or null `requestId` if any, and an object `payload`; a missing id becomes the fresh UUID |
| `Validators.ValidListInMapOrder` | app/utils/validators.py:14 | the listed names are the map's keys joined by ", " in insertion order |
| `Validators.ValidateOperationType` | app/utils/validators.py:6-17 | valid iff the name is a key; otherwise the message "Unknown operationType '<name>'. Valid: ..." |
| `Validators.PayloadVerdict` | app/utils/validators.py:20-48 | `validate_payload` as a function: an unknown operation, a pass with the validated model, or a failure with the message and the error dict; no ensures of its own, `PayloadVerdictCases`, `FailedNamesFailingFields` and `MissingTeamId` state its properties and `ValidatePayload` is proved against it |
| `Validators.ErrorDict` | app/utils/validators.py:40-45 | the dict with one entry per error under its dot-joined location, inserted in order; no ensures of its own, `ErrorDictKeys` and `ErrorDictLastWins` state its properties and `BuildErrorDict` is proved against it |
| `Validators.ValidatePayload` | app/utils/validators.py:20-48 | the result is the verdict `PayloadVerdict` describes |
| `Validators.BuildErrorDict` | app/utils/validators.py:40-45 | the error-dict loop builds the dict of the dot-joined locations, later errors overwriting earlier ones |
| `Validators.PayloadVerdictCases` | app/utils/validators.py:27-48 | unknown iff not a key; passes iff all required fields are positive ints; the failure message names the operation |
| `Validators.ErrorDictKeys` | app/utils/validators.py:40-45 | the dict's keys are the dot-joined error locations |
| `Validators.ErrorDictLastWins` | app/utils/validators.py:40-45 | for a repeated location the later error is kept |
| `Validators.FailedNamesFailingFields` | app/utils/validators.py:36-48 | a failure's dict names exactly the schema fields that fail |
| `Validators.MissingTeamId` | app/utils/validators.py:36-48 | `GetTeam` with `{}` fails with `{"teamId": {"type": "missing", "message": "Field required"}}` |
| `DecisionMapping.Kwargs` | app/decision_mapper.py:36-39 | kwargs exist iff every mapped attribute exists, and their keys are the mapped parameter names |
| `DecisionMapping.KwargsValues` | app/decision_mapper.py:36-39 | each parameter gets the attribute of its mapped field |
| `DecisionMapping.RoutesCoverOperations` | app/decision_mapper.py:9-26 | the routing table has exactly the four operations |
| `DecisionMapping.RoutesMapSchemaFields` | app/decision_mapper.py:9-26 | each route maps its schema's fields, in order |
| `DecisionMapping.Bind` | app/decision_mapper.py:36-41 | `method(**kwargs)`: the adapter call the keyword arguments make, or `None` (the `TypeError`) for a missing or unexpected keyword; no ensures of its own, `ValidatedPayloadMakesIntendedCall` and `MismatchedPayloadFails` state its properties |
| `DecisionMapping.Decide` | app/decision_mapper.py:28-41 | `execute`: the route lookup (`KeyError` when absent), the keyword arguments read from the payload, and the binding; no ensures of its own, `ValidatedPayloadMakesIntendedCall`, `MismatchedPayloadFails` and `DecisionMapper.Execute` state its properties |
| `DecisionMapping.ValidatedPayloadMakesIntendedCall` | app/decision_mapper.py:34-41 | a validated payload calls its adapter method with exactly its values (league matches with `Some(season)`) |
| `DecisionMapping.MismatchedPayloadFails` | app/decision_mapper.py:36-39 | a payload of another operation fails at `getattr`, except for `ListLeagues` |
| `DecisionMapping.DecisionMapper.constructor` | app/decision_mapper.py:6-26 | the mapper keeps the adapter and the routing table |
| `DecisionMapping.DecisionMapper.Invoke` | app/decision_mapper.py:41 | the bound adapter method fetches the call's URL as `FetchFrom` says |
| `DecisionMapping.DecisionMapper.Execute` | app/decision_mapper.py:28-41 | an unknown name is a `KeyError`; a failed binding raises without touching the limiter or the client; otherwise the result is the adapter's fetch of the call's URL; an existing client is kept and an upstream call leaves one |
| `Normalizers.Field` | app/normalizers.py:39-42 | `d.get(U) or d.get(l, default)`: the upstream value when truthy, else the fallback |
| `Normalizers.LeagueRecord` | app/normalizers.py:38-43 | a league record has the keys id, name, country, season |
| `Normalizers.NormalizedLeagues` | app/normalizers.py:31-45 | `normalize_leagues` as a function: `[]` for a non-list, a raise for a non-object element, otherwise one league record per element in order; no ensures of its own, `LeaguesShape` and `LeaguesIdempotent` state its properties and `NormalizeLeagues` is proved against it |
| `Normalizers.NormalizeLeagues` | app/normalizers.py:31-45 | the append loop returns what `NormalizedLeagues` describes |
| `Normalizers.LeaguesShape` | app/normalizers.py:31-45 | `[]` for a non-list; a list raises iff some element is not an object; one record per league, in order |
| `Normalizers.LeagueRecordIdempotent` | app/normalizers.py:38-43 | a league record normalizes to itself |
| `Normalizers.LeaguesIdempotent` | app/normalizers.py:31-45 | normalizing leagues twice is normalizing once |
| `Normalizers.LeagueFalsyFallsThrough` | app/normalizers.py:39-42 | a falsy upstream value falls through to the lower-case key or default |
| `Normalizers.FinalScore` | app/normalizers.py:57-69 | no results give no score; results give a result object |
| `Normalizers.TeamOf` | app/normalizers.py:55-56 | `match.get(key) or {}`, usable only when that value is an object; no ensures of its own, `MatchRecord` and `MatchRecordRaises` state when it fails |
| `Normalizers.Status` | app/normalizers.py:76-78 | a truthy `MatchStatus`, otherwise `completed` when there is a result and `scheduled` when not; no ensures of its own, `MatchScoreRule` and `MatchRecord` state it |
| `Normalizers.MatchRecord` | app/normalizers.py:55-82 | a match raises iff a team or the results cannot be read |
| `Normalizers.MatchRecordKeys` | app/normalizers.py:71-82 | a match record has exactly the eight normalized keys |
| `Normalizers.NormalizedMatches` | app/normalizers.py:48-84 | `normalize_matches` as a function: `[]` for a non-list, a raise for an unreadable element, otherwise one match record per element in order; no ensures of its own, `RecordsAreNormalized` and `MatchesNotIdempotent` state its properties and `NormalizeMatches` is proved against it |
| `Normalizers.NormalizeMatches` | app/normalizers.py:48-84 | the append loop returns what `NormalizedMatches` describes |
| `Normalizers.MatchScoreRule` | app/normalizers.py:57-81 | goals and result come from the last `MatchResults` entry or are null; the status falls back to completed/scheduled |
| `Normalizers.MatchRecordRaises` | app/normalizers.py:55-65 | which match shapes raise and which do not |
| `Normalizers.RenormalizedMatchLosesTeamsAndGoals` | app/normalizers.py:55-82 | a normalized match read again has empty team names and null goals |
| `Normalizers.MatchesNotIdempotent` | app/normalizers.py:48-84 | `normalize_matches` is not idempotent on its own output |
| `Normalizers.NormalizeTeam` | app/normalizers.py:87-98 | `{}` for a non-object; otherwise the five keys |
| `Normalizers.TeamIdempotent` | app/normalizers.py:87-98 | idempotent on objects; not on non-objects, since `{}` becomes a record of defaults |
| `Normalizers.NormalizeMatch` | app/normalizers.py:101-136 | `{}` for a non-object; an object raises iff a team or the results cannot be read |
| `Normalizers.NormalizeMatchKeys` | app/normalizers.py:122-135 | a single-match record has the eight list keys plus both team ids and the location |
| `Normalizers.SingleMatchAgreesWithListRecord` | app/normalizers.py:55-135 | the single-match record agrees with the list record on every shared key |
| `Normalizers.NormalizeResponse` | app/normalizers.py:4-28 | `normalize_response`: the normalizer of the operation, and the data unchanged for any other name; no ensures of its own, `NormalizeResponseDispatch` states its dispatch |
| `Normalizers.NormalizeResponseDispatch` | app/normalizers.py:4-28 | GetMatch on a list gives `{}`; list operations on a non-list give `[]`; GetTeam never raises; other names pass through |
| `AdapterManager.Manager.constructor` | app/adapters/manager.py:5-6 | both dicts start empty |
| `AdapterManager.Manager.RegisterAdapter` | app/adapters/manager.py:9-11 | the class is stored under the name, replacing an earlier one; other names are untouched |
| `AdapterManager.Manager.GetAdapter` | app/adapters/manager.py:14-18 | a cached instance is returned as is, whatever the settings; otherwise a fresh instance of the registered class is built from these settings and cached; neither gives `KeyError` |
| `Proxy.ErrorResponse` | app/routes/proxy.py:152-177 | `_error_response`: the mapped HTTP status and the envelope of request id, `success: false`, code, message and details; no ensures of its own, `HttpStatus`, `DetailJson`, `DetailRoundTrip` and `StatusMatchesCode` state its properties |
| `Proxy.DetailJson` | app/routes/proxy.py:168-176 | the detail has keys requestId, success, error; success is false; error has code, message, details |
| `Proxy.DetailRoundTrip` | app/routes/proxy.py:168-176 | request id, code, message and details read back from the detail |
| `Proxy.HttpStatus` | app/routes/proxy.py:160-164 | 400, 502 and 500 map to themselves and everything else to 500 |
| `Proxy.ExecuteProxy` | app/routes/proxy.py:31-149 | the route with its payload verdict read by shape: the operation check, the payload check, then the `try` block; no ensures of its own, `UnknownOperationRefused`, `InvalidPayloadRefused`, `ValidationComesFirst`, `RequestIdThreaded` and `StatusMatchesCode` state its properties |
| `Proxy.TryBlock` | app/routes/proxy.py:80-149 | the `try` block and its `except` clauses: the success envelope, the upstream error as a 502, or the 500 answer; no ensures of its own, `ExceptionsInTryBlock`, `UpstreamFailureIs502` and `SuccessConditions` state its cases |
| `Proxy.UnknownOperationRefused` | app/routes/proxy.py:47-58 | an unknown operation is a 400 UNKNOWN_OPERATION with the validator's message, whatever the try block would do |
| `Proxy.InvalidPayloadRefused` | app/routes/proxy.py:60-72 | a failing payload is a 400 VALIDATION_ERROR whose details name exactly the failing fields |
| `Proxy.ValidationComesFirst` | app/routes/proxy.py:47-80 | an invalid request gets a 400 that does not depend on the upstream at all |
| `Proxy.ExceptionsInTryBlock` | app/routes/proxy.py:84-149 | a missing decision or any exception is a 500 "Internal server error" without details; the limiter's 429 is re-raised unchanged |
| `Proxy.UpstreamFailureIs502` | app/routes/proxy.py:100-112 | a non-200 is a 502 UPSTREAM_ERROR "Upstream API failed after retries" with the adapter data as details |
| `Proxy.SuccessConditions` | app/routes/proxy.py:114-134 | a 200 succeeds iff the data normalizes, the id is present and the latency is not negative; the envelope carries id, normalized data, "openliga" and the latency |
| `Proxy.RequestIdThreaded` | app/routes/proxy.py:31-177 | every envelope the route builds carries the request's id unchanged |
| `Proxy.StatusMatchesCode` | app/routes/proxy.py:47-149 | 400 for the validation codes, 502 for UPSTREAM_ERROR, 500 for INTERNAL_ERROR |
| `Proxy.UnpackVerdict` | app/routes/proxy.py:60 | three-name unpacking succeeds iff the tuple has three values |
| `Proxy.ExecuteProxyAsWritten` | app/routes/proxy.py:47-80 | the route as written, `None` being the `ValueError` the three-name unpacking of `validate_payload`'s result raises before the `try` block; no ensures of its own, `KnownOperationFailsToUnpack` and `GetTeamUnpacking` state its behaviour |
| `Proxy.KnownOperationFailsToUnpack` | app/routes/proxy.py:60 | as written, every known operation fails in the unpacking |
| `Proxy.GetTeamUnpacking` | app/routes/proxy.py:60-80 | a well-formed GetTeam request fails as written and reaches the try block in `ExecuteProxy` |
| `Proxy.TryOutcomeOf` | app/routes/proxy.py:87-149 | a fetched response is the adapter's answer, the limiter's 429 stays a 429, anything else is an exception |
| `Proxy.UnavailableUpstreamIs502` | app/routes/proxy.py:100-112 | end to end: a steadily failing upstream gives a 502 carrying the adapter's error body |
| `Proxy.TeamRequestSucceeds` | app/routes/proxy.py:114-134 | end to end: a valid GetTeam answered 200 succeeds with the normalized team and the upstream latency |
| `Proxy.Router.constructor` | app/routes/proxy.py:14 | the module global `_mapper` starts as `None` |
| `Proxy.Router.GetMapper` | app/routes/proxy.py:16-23 | the mapper is built around the "openliga" adapter only while none exists, then the same one is returned |
| `Audit.HeaderGet` | app/middleware/audit.py:92 | the header lookup finds a value iff some header has that name, whatever its case, and the value found is that of the first such header |
| `Audit.RequestIdOf` | app/middleware/audit.py:91-106 | the middleware's request id: a non-empty `X-Request-ID` header, else the body's `requestId`, else the fresh id; no ensures of its own, `RequestIdPrecedence`, `BodyConsultedOnlyAsFallback` and `FreshIdOnlyAsLastResort` state its properties |
| `Audit.RequestIdPrecedence` | app/middleware/audit.py:91-106 | a non-empty header first, then the body's `requestId` as is, then the fresh UUID |
| `Audit.BodyConsultedOnlyAsFallback` | app/middleware/audit.py:93-96 | with a non-empty header, or a method without a body, the body does not affect the id |
| `Audit.FreshIdOnlyAsLastResort` | app/middleware/audit.py:103-106 | the fresh UUID is used exactly when neither header nor body supplies an id |
| `Audit.SafePairs` | app/middleware/audit.py:48-50 | the kept insertions are exactly the received headers with a non-sensitive name |
| `Audit.SafeHeaders` | app/middleware/audit.py:45-50 | the dict of headers whose lower-cased name is not sensitive, a later duplicate winning; no ensures of its own, `SafeHeadersExact` and `RedactionExample` state its properties and `FilterHeaders` is proved against it |
| `Audit.FilterHeaders` | app/middleware/audit.py:45-50 | the header loop builds `SafeHeaders` |
| `Audit.SafeHeadersExact` | app/middleware/audit.py:45-50 | logged names are exactly the received non-sensitive ones, each with a value received under it |
| `Audit.RedactionExample` | app/middleware/audit.py:46-50 | Authorization and cookie are dropped, content-type is kept |
| `Audit.InboundBody` | app/middleware/audit.py:52-63 | the logged body size and preview: nothing for other methods or an unreadable body, otherwise the byte length and the decoded text cut at the limit; no ensures of its own, `InboundBodyRule` states it |
| `Audit.InboundBodyRule` | app/middleware/audit.py:52-63 | size is the byte length and preview the first `LOG_BODY_LIMIT` characters for POST/PUT/PATCH; 0 and none otherwise |
| `Audit.OutboundBodySize` | app/middleware/audit.py:76-81 | 0 for streaming, file, bodiless or empty responses, else the body length |
| `Audit.Dispatch` | app/middleware/audit.py:16-42 | the downstream outcome comes back unchanged (re-raised if an exception), with an inbound and an outbound or error record under one id |
| `Audit.DispatchRecords` | app/middleware/audit.py:23-42 | the records carry the settled id, the redacted headers, and the response's status and size or the error |

## Left out

- The network, the clocks, the random generator and `asyncio.sleep` are parameters:
  - upstream answers, the three monotonic reads of each rate-limit check, and draws are indexed by retry count;
  - sleeps are returned as the list of delays.
- Logging through structlog is not modelled. The audit log records are values, without timestamps or latencies, which are read from the wall clock.
- The `timestamp` field of `ResponseMetadata` (`datetime.now(timezone.utc)` at construction) is not modelled, because it is read from the wall clock.
- Python floats are modelled as exact `real` numbers. Their rounding is not modelled, and neither is the `OverflowError` of a huge `2 ** retry_count`.
- `OpenLigaDb.FetchedResponse`: the latency of every upstream answer, the 200 and the API-error responses alike, is given with the outcome as a `nat`. `int((time.time() - start_time) * 1000)` is not computed.
- `OpenLigaDb.FetchFrom` and `OpenLigaDb.OpenLigaDbAdapter.Fetch`: requests are modelled one at a time. One adapter, and so one `RateLimiter` deque, serves every request (app/adapters/manager.py:16-18, app/routes/proxy.py:14-23). While a fetch awaits `client.get` or `asyncio.sleep`, other requests may add entries to that deque. Those entries are not modelled: the queue each retry sees holds only this fetch's own admissions. So `AlwaysUnavailable`, `RetryNeedsAdmission` and `Proxy.UnavailableUpstreamIs502` describe a fetch with no other request in flight, and a retry that concurrent traffic would get denied with a 429 is admitted in the model.
- `RateLimit.CheckRateLimit`: the 429 message "Rate limit exceeded. Reset in {reset:.1f}s" is kept as the reset time. The one-decimal formatting is not modelled. The `remaining` value it reads is used only for logging.
- `OpenLigaDb.OpenLigaDbAdapter.constructor`: `RATE_LIMIT.get("openliga")` and `RATE_WINDOW.get(...)` may be `None` when the entry is missing. The model requires a natural limit and an integer window.
- Only `asyncio.TimeoutError` is retried. Any other client exception ends the fetch as an exception (`Raised`), and so does a 200 whose `response.json()` raises.
- The adapter's `close` and the abstract `SportsProvider` base class are not modelled: one releases a connection, the other declares methods only.
- `Requests.ParsePayload`: pydantic's lax coercion (numeric strings, integral floats, booleans) and its exact error order are not modelled. Only a JSON integer above 0 passes. Each failing field gets exactly one error, in schema order.
- `Requests.ParseProxyRequest`: only the field errors that decide acceptance are modelled, not pydantic's full error list. FastAPI rejects such a body before the route runs.
- The route's wiring is not reconciled with the modules it calls:
  - it calls `register_all`, `get_decision` and `decision.execute(adapter, payload)`, none of which `DecisionMapper` defines;
  - it imports `validate_operation_type` and `validate_payload` from the decision mapper's module (app/routes/proxy.py:6), which defines neither, so as written importing the route raises `ImportError` when the module loads;
  - its `_mapper.register_all()` (app/routes/proxy.py:22) raises `AttributeError` on the first request, after `_mapper` has been set.
  The Findings row assumes the import is corrected to the validators' own module. So what the `try` block does before the adapter's response is inspected is an input (`TryOutcome`). `TryOutcomeOf` relates it to the decision mapper's `execute`.
- `Proxy.Router.GetMapper`: the `register_all()` call after construction is not modelled. `DecisionMapper` has no such method.
- `Proxy.ExecuteProxy` reads the payload verdict by its shape. The three-name unpacking as written is `ExecuteProxyAsWritten` (see Findings).
- The FastAPI exception handlers, app start-up and the health route (main.py) are not part of this model.
- `Audit.InboundBodyRule`: UTF-8 decoding with `errors="ignore"` and `json.loads` are not computed. Their results are given with the body bytes (`BodyRead`).
- `Audit.HeaderGet` and `Audit.SafeHeaders`: header names are compared after ASCII lower-casing, both for the `X-Request-ID` lookup and for the `key.lower()` that decides redaction.
- The middleware's latency measurement is not modelled.

## Findings

| source | as written | input that shows it | evidently intended | confidence | as-written member | corrected member |
|---|---|---|---|---|---|---|
| app/routes/proxy.py:60 | `execute_proxy` unpacks three names from `validate_payload`. That function returns four values for every known operation, valid payload or not (app/utils/validators.py:34 and :48). The resulting `ValueError` is raised outside the `try` block. | `{"operationType": "GetTeam", "payload": {"teamId": 1}}` | a valid request reaches the adapter; an invalid one gets 400 VALIDATION_ERROR with the error dict | high (follows from the tuple lengths; not executed) | `Proxy.KnownOperationFailsToUnpack` | `Proxy.InvalidPayloadRefused` |
