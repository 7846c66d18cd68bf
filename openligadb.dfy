/** The OpenLigaDB adapter: URL builders and the rate-limited, retrying fetch.

    The network, the clock and the random generator are an `Environment`: `answer(n)` is what the
    upstream does on attempt `n` (the attempt whose `retry_count` is `n`), `clock(n)` holds the
    monotonic times that attempt's rate-limit check reads, and `draw(n)` is the value of
    `random.random()` used if the attempt is followed by a jittered sleep. */
module OpenLigaDb {
  import opened Wrappers
  import opened Text
  import opened JsonValue
  import opened Backoff
  import opened RateLimit

  const AdapterName: string := "openliga"

  /** The deployment settings the adapter reads. */
  datatype Settings = Settings(
    baseUrl: string,          // OPENLIGADB_BASE_URL
    timeout: int,             // OPENLIGADB_TIMEOUT, in seconds
    rateLimit: nat,           // RATE_LIMIT["openliga"]
    rateWindow: int,          // RATE_WINDOW["openliga"], in seconds
    backoffBaseDelay: real,
    backoffMaxDelay: real,
    backoffMaxRetries: int,
    backoffJitter: bool)

  datatype AdapterResponse = AdapterResponse(data: Json, statusCode: int, latencyMs: int, upstreamUrl: string)

  /** What one `client.get(url)` does. */
  datatype Outcome =
    | Responded(status: int, body: Option<Json>, latencyMs: nat)  // body None: `response.json()` raises
    | TimedOut                                                     // `asyncio.TimeoutError`
    | TransportFailed                                              // any other exception, `httpx.TimeoutException` included

  datatype Environment = Environment(clock: nat -> Reads, answer: nat -> Outcome, draw: nat -> UnitDraw)

  /** How `_fetch` ends: an `AdapterResponse`, the limiter's 429, or a propagated exception. */
  datatype FetchResult =
    | Fetched(response: AdapterResponse)
    | RateLimited(error: RateLimitError)
    | Raised

  const RetryableStatuses: set<int> := {429, 500, 502, 503, 504}

  function ApiErrorBody(status: int): Json {
    Obj1("error", JStr("API error: " + IntToString(status)))
  }

  const TimeoutBody: Json := Obj1("error", JStr("Request timeout"))

  datatype Step = Finish(result: FetchResult) | Retry

  /** What `_fetch` does with the outcome of the attempt whose retry count is `retryCount`,
      once the rate limiter has admitted it. */
  function AttemptStep(s: Settings, url: string, retryCount: nat, outcome: Outcome): Step {
    match outcome
    case Responded(status, body, latency) =>
      if status == 200 then
        (if body.Some? then Finish(Fetched(AdapterResponse(body.value, 200, latency, url))) else Finish(Raised))
      else if status in RetryableStatuses && retryCount < s.backoffMaxRetries then Retry
      else Finish(Fetched(AdapterResponse(ApiErrorBody(status), status, latency, url)))
    case TimedOut =>
      if retryCount < s.backoffMaxRetries then Retry
      else Finish(Fetched(AdapterResponse(TimeoutBody, 504, s.timeout * 1000, url)))
    case TransportFailed => Finish(Raised)
  }

  /** The sleep before retry number `retryCount + 1`. */
  function Delay(s: Settings, retryCount: nat, u: UnitDraw): real {
    ExponentialBackoff(retryCount, s.backoffBaseDelay, s.backoffMaxDelay, s.backoffJitter, u)
  }

  function RetriesLeft(s: Settings, retryCount: nat): nat {
    if retryCount < s.backoffMaxRetries then s.backoffMaxRetries - retryCount else 0
  }

  /** The retry count of the last attempt a fetch started at `retryCount` may make. */
  function LastAttempt(s: Settings, retryCount: nat): nat {
    retryCount + RetriesLeft(s, retryCount)
  }

  /** A whole fetch: its result, the limiter's queue afterwards, the number of upstream calls made
      and the sleeps taken between them. */
  datatype Run = Run(result: FetchResult, queue: seq<real>, calls: nat, sleeps: seq<real>)

  /** `_fetch(url, retry_count)` started with limiter queue `q`: check the rate limit, call the
      upstream, then return or sleep and recurse with `retry_count + 1`. */
  function FetchFrom(s: Settings, url: string, q: seq<real>, env: Environment, retryCount: nat): Run
    decreases RetriesLeft(s, retryCount)
  {
    var checked := RateCheck(q, env.clock(retryCount), s.rateLimit, s.rateWindow);
    match checked.result
    case Denied(e) => Run(RateLimited(e), checked.queue, 0, [])
    case Admitted =>
      match AttemptStep(s, url, retryCount, env.answer(retryCount))
      case Finish(r) => Run(r, checked.queue, 1, [])
      case Retry => Retried(Delay(s, retryCount, env.draw(retryCount)), FetchFrom(s, url, checked.queue, env, retryCount + 1))
  }

  /** A fetch that made one call, slept `delay` and then went on as `rest`. */
  function Retried(delay: real, rest: Run): Run {
    Run(rest.result, rest.queue, rest.calls + 1, [delay] + rest.sleeps)
  }

  /** Retrying is bounded: at most `BACKOFF_MAX_RETRIES + 1` calls; one sleep between consecutive
      calls (and one before a denied re-check); the i-th sleep is the backoff for retry count i. */
  lemma FetchBounded(s: Settings, url: string, q: seq<real>, env: Environment, k: nat)
    ensures var r := FetchFrom(s, url, q, env, k);
      && r.calls <= RetriesLeft(s, k) + 1
      && |r.sleeps| == (if r.result.RateLimited? then r.calls else r.calls - 1)
      && (forall i :: 0 <= i < |r.sleeps| ==> r.sleeps[i] == Delay(s, k + i, env.draw(k + i)))
  {
    FetchCounts(s, url, q, env, k);
    FetchSleeps(s, url, q, env, k);
    var r := FetchFrom(s, url, q, env, k);
    forall i | 0 <= i < |r.sleeps| ensures r.sleeps[i] == Delay(s, k + i, env.draw(k + i)) {
      BackoffsAt(s, env, k, |r.sleeps|, i);
    }
  }

  lemma {:induction false} FetchCounts(s: Settings, url: string, q: seq<real>, env: Environment, k: nat)
    ensures var r := FetchFrom(s, url, q, env, k);
      && r.calls <= RetriesLeft(s, k) + 1
      && |r.sleeps| == (if r.result.RateLimited? then r.calls else r.calls - 1)
    decreases RetriesLeft(s, k)
  {
    var checked := RateCheck(q, env.clock(k), s.rateLimit, s.rateWindow);
    if checked.result.Admitted? && AttemptStep(s, url, k, env.answer(k)).Retry? {
      FetchCounts(s, url, checked.queue, env, k + 1);
    }
  }

  /** The backoff sleeps for retry counts `k`, `k + 1`, ..., `k + n - 1`, in that order. */
  function Backoffs(s: Settings, env: Environment, k: nat, n: nat): (r: seq<real>)
    ensures |r| == n
    decreases n
  {
    if n == 0 then [] else [Delay(s, k, env.draw(k))] + Backoffs(s, env, k + 1, n - 1)
  }

  lemma {:induction false} BackoffsAt(s: Settings, env: Environment, k: nat, n: nat, i: nat)
    requires i < n
    ensures Backoffs(s, env, k, n)[i] == Delay(s, k + i, env.draw(k + i))
    decreases n
  {
    if i > 0 {
      BackoffsAt(s, env, k + 1, n - 1, i - 1);
    }
  }

  lemma {:induction false} FetchSleeps(s: Settings, url: string, q: seq<real>, env: Environment, k: nat)
    ensures var r := FetchFrom(s, url, q, env, k);
      r.sleeps == Backoffs(s, env, k, |r.sleeps|)
    decreases RetriesLeft(s, k)
  {
    var checked := RateCheck(q, env.clock(k), s.rateLimit, s.rateWindow);
    if checked.result.Admitted? && AttemptStep(s, url, k, env.answer(k)).Retry? {
      FetchSleeps(s, url, checked.queue, env, k + 1);
    }
  }

  /** The upstream answered 200 with the body and latency the response reports. */
  predicate LastAnswerOk(o: Outcome, resp: AdapterResponse) {
    o.Responded? && o.status == 200 && o.body == Some(resp.data) && o.latencyMs == resp.latencyMs
  }

  /** What a single admitted attempt can return. */
  lemma AttemptStepFacts(s: Settings, url: string, k: nat, o: Outcome)
    ensures var step := AttemptStep(s, url, k, o);
      step.Finish? && step.result.Fetched? ==>
        var resp := step.result.response;
        && resp.upstreamUrl == url
        && (resp.statusCode == 200 ==> LastAnswerOk(o, resp))
        && (resp.statusCode in RetryableStatuses ==> k >= s.backoffMaxRetries)
        && (o.Responded? && o.status != 200 ==> resp == AdapterResponse(ApiErrorBody(o.status), o.status, o.latencyMs, url))
        && (o.TimedOut? ==> resp == AdapterResponse(TimeoutBody, 504, s.timeout * 1000, url))
        && (s.timeout >= 0 ==> resp.latencyMs >= 0)
  {
  }

  /** Every response the adapter returns names the url it fetched; a 200 carries the body of the
      last call; any other status gives `{"error": "API error: <status>"}` with the status and
      latency of the last call; a final timeout gives the synthetic 504; and a retryable status
      comes back only once the retries are used up. */
  lemma {:induction false} FetchedResponse(s: Settings, url: string, q: seq<real>, env: Environment, k: nat)
    ensures var r := FetchFrom(s, url, q, env, k);
      r.result.Fetched? ==>
        r.calls >= 1 &&
        var resp := r.result.response;
        var last: nat := k + r.calls - 1;
        && resp.upstreamUrl == url
        && (resp.statusCode == 200 ==> LastAnswerOk(env.answer(last), resp))
        && (resp.statusCode in RetryableStatuses ==> last >= s.backoffMaxRetries)
        && (var o := env.answer(last);
            && (o.Responded? && o.status != 200 ==> resp == AdapterResponse(ApiErrorBody(o.status), o.status, o.latencyMs, url))
            && (o.TimedOut? ==> resp == AdapterResponse(TimeoutBody, 504, s.timeout * 1000, url)))
        && (s.timeout >= 0 ==> resp.latencyMs >= 0)
    decreases RetriesLeft(s, k)
  {
    var checked := RateCheck(q, env.clock(k), s.rateLimit, s.rateWindow);
    if checked.result.Admitted? {
      var step := AttemptStep(s, url, k, env.answer(k));
      if step.Retry? {
        FetchedResponse(s, url, checked.queue, env, k + 1);
        var rest := FetchFrom(s, url, checked.queue, env, k + 1);
        var r := FetchFrom(s, url, q, env, k);
        assert r.result == rest.result && r.calls == rest.calls + 1;
      } else {
        AttemptStepFacts(s, url, k, env.answer(k));
        assert FetchFrom(s, url, q, env, k) == Run(step.result, checked.queue, 1, []);
      }
    }
  }

  /** The upstream fails transiently: a retryable status or a timeout. */
  predicate Transient(o: Outcome) {
    o.TimedOut? || (o.Responded? && o.status in RetryableStatuses)
  }

  /** A transient failure is retried while retries are left, and ends the fetch otherwise. */
  lemma TransientStep(s: Settings, url: string, k: nat, o: Outcome)
    requires Transient(o)
    ensures (AttemptStep(s, url, k, o) == Retry) == (k < s.backoffMaxRetries)
  {
  }

  /** An upstream that only fails transiently, behind a limiter with room for every attempt, is
      called exactly once more than the retries left. */
  lemma {:induction false} TransientFailuresExhaustRetries(s: Settings, url: string, q: seq<real>, env: Environment, k: nat)
    requires forall n :: Transient(env.answer(n))
    requires |q| + RetriesLeft(s, k) + 1 <= s.rateLimit
    ensures FetchFrom(s, url, q, env, k).calls == RetriesLeft(s, k) + 1
    decreases RetriesLeft(s, k)
  {
    var now := env.clock(k).admit;
    var checked := RateCheck(q, env.clock(k), s.rateLimit, s.rateWindow);
    assert checked == Checked(Admitted, Prune(q, now - s.rateWindow as real) + [now]);
    TransientStep(s, url, k, env.answer(k));
    if k < s.backoffMaxRetries {
      TransientFailuresExhaustRetries(s, url, checked.queue, env, k + 1);
    }
  }

  /** Under the same conditions, the answer to the last attempt decides the result. */
  lemma {:induction false} TransientFailuresLastAnswerDecides(s: Settings, url: string, q: seq<real>, env: Environment, k: nat)
    requires forall n :: Transient(env.answer(n))
    requires |q| + RetriesLeft(s, k) + 1 <= s.rateLimit
    ensures Finish(FetchFrom(s, url, q, env, k).result) == AttemptStep(s, url, LastAttempt(s, k), env.answer(LastAttempt(s, k)))
    decreases RetriesLeft(s, k)
  {
    var now := env.clock(k).admit;
    var checked := RateCheck(q, env.clock(k), s.rateLimit, s.rateWindow);
    assert checked == Checked(Admitted, Prune(q, now - s.rateWindow as real) + [now]);
    TransientStep(s, url, k, env.answer(k));
    if k < s.backoffMaxRetries {
      TransientFailuresLastAnswerDecides(s, url, checked.queue, env, k + 1);
      assert LastAttempt(s, k + 1) == LastAttempt(s, k);
    } else {
      assert LastAttempt(s, k) == k;
    }
  }

  /** An upstream that always answers 503 gets `BACKOFF_MAX_RETRIES + 1` calls and the final 503. */
  lemma AlwaysUnavailable(s: Settings, url: string, env: Environment, latency: nat)
    requires s.backoffMaxRetries >= 0 && s.rateLimit >= s.backoffMaxRetries + 1
    requires forall n :: env.answer(n) == Responded(503, Some(JNull), latency)
    ensures var r := FetchFrom(s, url, [], env, 0);
      && r.calls == s.backoffMaxRetries + 1
      && r.result == Fetched(AdapterResponse(ApiErrorBody(503), 503, latency, url))
  {
    TransientFailuresExhaustRetries(s, url, [], env, 0);
    TransientFailuresLastAnswerDecides(s, url, [], env, 0);
  }

  /** An upstream that always times out gets `BACKOFF_MAX_RETRIES + 1` calls and the synthetic 504
      with latency `timeout * 1000`. */
  lemma AlwaysTimingOut(s: Settings, url: string, env: Environment)
    requires s.backoffMaxRetries >= 0 && s.rateLimit >= s.backoffMaxRetries + 1
    requires forall n :: env.answer(n) == TimedOut
    ensures var r := FetchFrom(s, url, [], env, 0);
      && r.calls == s.backoffMaxRetries + 1
      && r.result == Fetched(AdapterResponse(TimeoutBody, 504, s.timeout * 1000, url))
  {
    TransientFailuresExhaustRetries(s, url, [], env, 0);
    TransientFailuresLastAnswerDecides(s, url, [], env, 0);
  }

  /** A first answer of 200, once admitted, returns at once: one call, no sleep. */
  lemma FirstAnswerOk(s: Settings, url: string, q: seq<real>, env: Environment, body: Json, latency: nat)
    requires |q| < s.rateLimit
    requires env.answer(0) == Responded(200, Some(body), latency)
    ensures FetchFrom(s, url, q, env, 0) ==
      Run(Fetched(AdapterResponse(body, 200, latency, url)), Prune(q, env.clock(0).admit - s.rateWindow as real) + [env.clock(0).admit], 1, [])
  {
  }

  /** An admitted answer that is neither 200 nor retryable (a 404, say) is not retried: one call, no
      sleep, and the API-error body with that status and latency. */
  lemma NonRetryableAnswerEndsAtOnce(s: Settings, url: string, q: seq<real>, env: Environment, k: nat)
    requires RateCheck(q, env.clock(k), s.rateLimit, s.rateWindow).result.Admitted?
    requires env.answer(k).Responded? && env.answer(k).status != 200 && env.answer(k).status !in RetryableStatuses
    ensures var o := env.answer(k);
      FetchFrom(s, url, q, env, k)
      == Run(Fetched(AdapterResponse(ApiErrorBody(o.status), o.status, o.latencyMs, url)),
             RateCheck(q, env.clock(k), s.rateLimit, s.rateWindow).queue, 1, [])
  {
  }

  /** Each retry takes a fresh admission: with room for two calls in the window, an upstream that
      keeps answering 503 is called twice, and the third check's 429 ends the fetch. */
  lemma RetryNeedsAdmission(url: string, env: Environment)
    requires forall n :: env.clock(n) == Reads(0.0, 0.0, 0.0) && env.answer(n) == Responded(503, Some(JNull), 5)
    ensures var s := Settings("http://upstream", 10, 2, 60, 1.0, 32.0, 3, true);
      var r := FetchFrom(s, url, [], env, 0);
      && r.result == RateLimited(RateLimitError(429, "RATE_LIMIT_EXCEEDED", 60.0))
      && r.calls == 2 && |r.sleeps| == 2 && r.queue == [0.0, 0.0]
  {
    var s := Settings("http://upstream", 10, 2, 60, 1.0, 32.0, 3, true);
    assert Prune([0.0], -60.0) == [0.0];
    assert Prune([0.0, 0.0], -60.0) == [0.0, 0.0];
    var r2 := FetchFrom(s, url, [0.0, 0.0], env, 2);
    assert r2 == Run(RateLimited(RateLimitError(429, "RATE_LIMIT_EXCEEDED", 60.0)), [0.0, 0.0], 0, []);
    var r1 := FetchFrom(s, url, [0.0], env, 1);
    assert r1.calls == 1 && |r1.sleeps| == 1 && r1.result == r2.result;
  }

  /** `list_leagues` */
  function LeaguesUrl(base: string): string {
    base + "/api/getavailableleagues"
  }

  /** How an f-string renders an `Optional[int]`: `None` prints as the word None. */
  function OptIntToString(v: Option<int>): string {
    if v.Some? then IntToString(v.value) else "None"
  }

  /** `get_league_matches(league_id, season)` */
  function LeagueMatchesUrl(base: string, leagueId: int, season: Option<int>): string {
    base + "/api/getmatchdata/" + IntToString(leagueId) + "/" + OptIntToString(season)
  }

  /** `get_team(team_id)` */
  function TeamUrl(base: string, teamId: int): string {
    base + "/api/getteam/" + IntToString(teamId)
  }

  /** `get_league_standings(league_id)` */
  function StandingsUrl(base: string, leagueId: int): string {
    base + "/api/getbltable/" + IntToString(leagueId)
  }

  /** `get_matches_between_teams(team_id1, team_id2)` */
  function MatchesBetweenUrl(base: string, teamId1: int, teamId2: int): string {
    base + "/api/getmatchdata/" + IntToString(teamId1) + "/" + IntToString(teamId2)
  }

  predicate NoSlash(s: string) {
    forall i :: 0 <= i < |s| ==> s[i] != '/'
  }

  lemma SamePrefixSameRest(p: string, x: string, y: string)
    requires p + x == p + y
    ensures x == y
  {
    assert x == (p + x)[|p|..];
  }

  /** The first slash of `a + "/" + x` is the one after `a`. */
  lemma FirstSlash(a: string, x: string)
    requires NoSlash(a)
    ensures (a + "/" + x)[|a|] == '/'
    ensures forall i :: 0 <= i < |a| ==> (a + "/" + x)[i] != '/'
  {
  }

  /** Two slash-free heads followed by a slash split a string at the same place. */
  lemma SplitAtSlash(a: string, x: string, c: string, y: string)
    requires NoSlash(a) && NoSlash(c)
    requires a + "/" + x == c + "/" + y
    ensures a == c && x == y
  {
    var w := a + "/" + x;
    FirstSlash(a, x);
    FirstSlash(c, y);
    assert |a| == |c|;
    assert a == w[..|a|] == c;
    assert x == w[|a| + 1..] == y;
  }

  lemma IntToStringNoSlash(i: int)
    ensures NoSlash(IntToString(i))
  {
  }

  /** Distinct team ids give distinct team URLs. */
  lemma TeamUrlInjective(base: string, a: int, b: int)
    requires TeamUrl(base, a) == TeamUrl(base, b)
    ensures a == b
  {
    SamePrefixSameRest(base + "/api/getteam/", IntToString(a), IntToString(b));
    IntToStringInjective(a, b);
  }

  /** Distinct league ids give distinct standings URLs. */
  lemma StandingsUrlInjective(base: string, a: int, b: int)
    requires StandingsUrl(base, a) == StandingsUrl(base, b)
    ensures a == b
  {
    SamePrefixSameRest(base + "/api/getbltable/", IntToString(a), IntToString(b));
    IntToStringInjective(a, b);
  }

  /** The word None is not the rendering of any number. */
  lemma OptIntToStringInjective(a: Option<int>, b: Option<int>)
    requires OptIntToString(a) == OptIntToString(b)
    ensures a == b
  {
    assert (OptIntToString(a)[0] == 'N') == a.None?;
    assert (OptIntToString(b)[0] == 'N') == b.None?;
    if a.Some? {
      IntToStringInjective(a.value, b.value);
    }
  }

  lemma LeagueMatchesUrlParts(base: string, leagueId: int, season: Option<int>)
    ensures LeagueMatchesUrl(base, leagueId, season)
            == (base + "/api/getmatchdata/") + (IntToString(leagueId) + "/" + OptIntToString(season))
  {
  }

  /** Distinct (league, season) requests give distinct URLs, and a missing season never collides
      with a given one. */
  lemma LeagueMatchesUrlInjective(base: string, a: int, sa: Option<int>, b: int, sb: Option<int>)
    requires LeagueMatchesUrl(base, a, sa) == LeagueMatchesUrl(base, b, sb)
    ensures a == b && sa == sb
  {
    var ra, rb := IntToString(a) + "/" + OptIntToString(sa), IntToString(b) + "/" + OptIntToString(sb);
    LeagueMatchesUrlParts(base, a, sa);
    LeagueMatchesUrlParts(base, b, sb);
    SamePrefixSameRest(base + "/api/getmatchdata/", ra, rb);
    IntToStringNoSlash(a);
    IntToStringNoSlash(b);
    SplitAtSlash(IntToString(a), OptIntToString(sa), IntToString(b), OptIntToString(sb));
    IntToStringInjective(a, b);
    OptIntToStringInjective(sa, sb);
  }

  /** Distinct team pairs give distinct URLs; the order of the two ids matters. */
  lemma MatchesBetweenUrlInjective(base: string, a1: int, a2: int, b1: int, b2: int)
    requires MatchesBetweenUrl(base, a1, a2) == MatchesBetweenUrl(base, b1, b2)
    ensures a1 == b1 && a2 == b2
  {
    assert MatchesBetweenUrl(base, a1, a2) == LeagueMatchesUrl(base, a1, Some(a2));
    assert MatchesBetweenUrl(base, b1, b2) == LeagueMatchesUrl(base, b1, Some(b2));
    LeagueMatchesUrlInjective(base, a1, Some(a2), b1, Some(b2));
  }

  /** Both `get_league_matches` with a season and `get_matches_between_teams` use the
      `getmatchdata/{x}/{y}` endpoint: league 4441 in season 2024 and the pair of teams 4441 and
      2024 fetch the very same URL. */
  lemma LeagueSeasonAndTeamPairShareUrl(base: string, x: int, y: int)
    ensures LeagueMatchesUrl(base, x, Some(y)) == MatchesBetweenUrl(base, x, y)
    ensures LeagueMatchesUrl(base, x, None) == base + "/api/getmatchdata/" + IntToString(x) + "/None"
    ensures LeagueMatchesUrl(base, x, None) != MatchesBetweenUrl(base, x, y)
  {
    if LeagueMatchesUrl(base, x, None) == MatchesBetweenUrl(base, x, y) {
      LeagueMatchesUrlInjective(base, x, None, x, Some(y));
    }
  }

  /** The five endpoints: the team and standings URLs never coincide, whatever the ids. */
  lemma TeamAndStandingsUrlsDiffer(base: string, teamId: int, leagueId: int)
    ensures TeamUrl(base, teamId) != StandingsUrl(base, leagueId)
  {
    assert TeamUrl(base, teamId)[|base| + 8] == 't';
    assert StandingsUrl(base, leagueId)[|base| + 8] == 'b';
  }

  /** The finished rest of a fetch after the calls and sleeps made so far. */
  function After(calls: nat, sleeps: seq<real>, rest: Run): Run {
    Run(rest.result, rest.queue, calls + rest.calls, sleeps + rest.sleeps)
  }

  /** Counting the calls and sleeps of a retried attempt before the rest of the fetch. */
  lemma AfterRetried(calls: nat, sleeps: seq<real>, delay: real, rest: Run)
    ensures After(calls, sleeps, Retried(delay, rest)) == After(calls + 1, sleeps + [delay], rest)
  {
    assert sleeps + ([delay] + rest.sleeps) == (sleeps + [delay]) + rest.sleeps;
  }

  /** Stand-in for the `httpx.AsyncClient` the adapter creates lazily. */
  class HttpClient {
    const timeout: int

    constructor (timeout: int)
      ensures this.timeout == timeout
    {
      this.timeout := timeout;
    }
  }

  class OpenLigaDbAdapter {
    const settings: Settings
    const rateLimiter: RateLimiter
    const baseUrl: string
    const timeout: int
    var client: HttpClient?

    ghost predicate Valid()
      reads this, rateLimiter
    {
      && baseUrl == settings.baseUrl
      && timeout == settings.timeout
      && rateLimiter.Valid()
      && rateLimiter.limit == settings.rateLimit
      && rateLimiter.window == settings.rateWindow
    }

    /** A new adapter: a limiter with the configured limit and window, and no client yet. */
    constructor (settings: Settings)
      ensures this.settings == settings && baseUrl == settings.baseUrl && timeout == settings.timeout
      ensures fresh(rateLimiter) && rateLimiter.requests == [] && client == null
      ensures Valid()
    {
      this.settings := settings;
      rateLimiter := new RateLimiter(settings.rateLimit, settings.rateWindow);
      baseUrl := settings.baseUrl;
      timeout := settings.timeout;
      client := null;
    }

    /** `_get_client`: creates the client on first use only; afterwards returns the same one. */
    method GetClient() returns (c: HttpClient)
      modifies this`client
      ensures old(client) != null ==> c == old(client)
      ensures old(client) == null ==> fresh(c) && c.timeout == timeout
      ensures client == c
    {
      if client == null {
        client := new HttpClient(timeout);
      }
      c := client;
    }

    /** The body of `_fetch`'s `try` for one admitted attempt: return, or sleep and retry. */
    method Handle(url: string, retryCount: nat, outcome: Outcome) returns (retry: bool, result: FetchResult)
      requires timeout == settings.timeout
      ensures AttemptStep(settings, url, retryCount, outcome) == if retry then Retry else Finish(result)
    {
      retry, result := false, Raised;
      if outcome.Responded? {
        if outcome.status == 200 {
          if outcome.body.None? {
            result := Raised;
          } else {
            result := Fetched(AdapterResponse(outcome.body.value, outcome.status, outcome.latencyMs, url));
          }
        } else if outcome.status in RetryableStatuses && retryCount < settings.backoffMaxRetries {
          retry := true;
        } else {
          result := Fetched(AdapterResponse(ApiErrorBody(outcome.status), outcome.status, outcome.latencyMs, url));
        }
      } else if outcome.TimedOut? {
        if retryCount < settings.backoffMaxRetries {
          retry := true;
        } else {
          result := Fetched(AdapterResponse(TimeoutBody, 504, timeout * 1000, url));
        }
      } else {
        result := Raised;
      }
    }

    /** One call of `_fetch` up to its recursive call: the rate-limit check, then (if admitted)
        `_get_client` and the upstream call. */
    method Attempt(url: string, env: Environment, retryCount: nat) returns (admitted: bool, retry: bool, result: FetchResult)
      requires Valid()
      modifies this`client, rateLimiter
      ensures Valid()
      ensures var whole := FetchFrom(settings, url, old(rateLimiter.requests), env, retryCount);
        if admitted && retry then
          && retryCount < settings.backoffMaxRetries
          && whole == Retried(Delay(settings, retryCount, env.draw(retryCount)), FetchFrom(settings, url, rateLimiter.requests, env, retryCount + 1))
        else whole == Run(result, rateLimiter.requests, if admitted then 1 else 0, [])
      ensures if admitted then client != null && (old(client) != null ==> client == old(client)) else client == old(client)
    {
      var check := CheckRateLimit(rateLimiter, env.clock(retryCount));
      if check.Denied? {
        return false, false, RateLimited(check.error);
      }
      var c := GetClient();
      retry, result := Handle(url, retryCount, env.answer(retryCount));
      admitted := true;
    }

    /** `_fetch(url)`: the recursion on `retry_count` as a loop. Returns how the fetch ends, the
        number of upstream calls and the sleeps taken; the limiter's queue afterwards is the one
        the specification `FetchFrom` arrives at. */
    method Fetch(url: string, env: Environment) returns (result: FetchResult, calls: nat, sleeps: seq<real>)
      requires Valid()
      modifies this`client, rateLimiter
      ensures Valid()
      ensures Run(result, rateLimiter.requests, calls, sleeps) == FetchFrom(settings, url, old(rateLimiter.requests), env, 0)
      ensures calls > 0 ==> client != null
      ensures calls == 0 || old(client) != null ==> client == old(client)
    {
      ghost var whole := FetchFrom(settings, url, rateLimiter.requests, env, 0);
      var retryCount: nat := 0;
      calls, sleeps := 0, [];
      while true
        invariant Valid()
        invariant if calls == 0 then client == old(client) else client != null && (old(client) != null ==> client == old(client))
        invariant whole == After(calls, sleeps, FetchFrom(settings, url, rateLimiter.requests, env, retryCount))
        decreases RetriesLeft(settings, retryCount)
      {
        var admitted, retry;
        admitted, retry, result := Attempt(url, env, retryCount);
        if !(admitted && retry) {
          calls := calls + if admitted then 1 else 0;
          return;
        }
        AfterRetried(calls, sleeps, Delay(settings, retryCount, env.draw(retryCount)), FetchFrom(settings, url, rateLimiter.requests, env, retryCount + 1));
        calls := calls + 1;
        sleeps := sleeps + [Delay(settings, retryCount, env.draw(retryCount))];
        retryCount := retryCount + 1;
      }
    }

    method ListLeagues(env: Environment) returns (result: FetchResult, calls: nat, sleeps: seq<real>)
      requires Valid()
      modifies this`client, rateLimiter
      ensures Valid()
      ensures Run(result, rateLimiter.requests, calls, sleeps) == FetchFrom(settings, LeaguesUrl(settings.baseUrl), old(rateLimiter.requests), env, 0)
      ensures calls > 0 ==> client != null
      ensures calls == 0 || old(client) != null ==> client == old(client)
    {
      var url := LeaguesUrl(baseUrl);
      result, calls, sleeps := Fetch(url, env);
    }

    method GetLeagueMatches(leagueId: int, season: Option<int>, env: Environment) returns (result: FetchResult, calls: nat, sleeps: seq<real>)
      requires Valid()
      modifies this`client, rateLimiter
      ensures Valid()
      ensures Run(result, rateLimiter.requests, calls, sleeps)
              == FetchFrom(settings, LeagueMatchesUrl(settings.baseUrl, leagueId, season), old(rateLimiter.requests), env, 0)
      ensures calls > 0 ==> client != null
      ensures calls == 0 || old(client) != null ==> client == old(client)
    {
      var url := LeagueMatchesUrl(baseUrl, leagueId, season);
      result, calls, sleeps := Fetch(url, env);
    }

    method GetTeam(teamId: int, env: Environment) returns (result: FetchResult, calls: nat, sleeps: seq<real>)
      requires Valid()
      modifies this`client, rateLimiter
      ensures Valid()
      ensures Run(result, rateLimiter.requests, calls, sleeps) == FetchFrom(settings, TeamUrl(settings.baseUrl, teamId), old(rateLimiter.requests), env, 0)
      ensures calls > 0 ==> client != null
      ensures calls == 0 || old(client) != null ==> client == old(client)
    {
      var url := TeamUrl(baseUrl, teamId);
      result, calls, sleeps := Fetch(url, env);
    }

    method GetLeagueStandings(leagueId: int, env: Environment) returns (result: FetchResult, calls: nat, sleeps: seq<real>)
      requires Valid()
      modifies this`client, rateLimiter
      ensures Valid()
      ensures Run(result, rateLimiter.requests, calls, sleeps) == FetchFrom(settings, StandingsUrl(settings.baseUrl, leagueId), old(rateLimiter.requests), env, 0)
      ensures calls > 0 ==> client != null
      ensures calls == 0 || old(client) != null ==> client == old(client)
    {
      var url := StandingsUrl(baseUrl, leagueId);
      result, calls, sleeps := Fetch(url, env);
    }

    method GetMatchesBetweenTeams(teamId1: int, teamId2: int, env: Environment) returns (result: FetchResult, calls: nat, sleeps: seq<real>)
      requires Valid()
      modifies this`client, rateLimiter
      ensures Valid()
      ensures Run(result, rateLimiter.requests, calls, sleeps)
              == FetchFrom(settings, MatchesBetweenUrl(settings.baseUrl, teamId1, teamId2), old(rateLimiter.requests), env, 0)
      ensures calls > 0 ==> client != null
      ensures calls == 0 || old(client) != null ==> client == old(client)
    {
      var url := MatchesBetweenUrl(baseUrl, teamId1, teamId2);
      result, calls, sleeps := Fetch(url, env);
    }
  }
}
