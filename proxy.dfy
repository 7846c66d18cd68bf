/** The proxy route: `POST /proxy/execute` validates the operation name and the payload, runs the
    adapter call inside a `try` block, and answers with a success envelope or raises an HTTP error
    carrying a standard error envelope.

    What happens inside the `try` block before the adapter's response is inspected (obtaining the
    mapper, finding the decision, running it) is an input, `TryOutcome`. */
module Proxy {
  import opened Wrappers
  import opened JsonValue
  import opened RateLimit
  import opened OpenLigaDb
  import opened Requests
  import opened Validators
  import opened Normalizers
  import opened DecisionMapping
  import opened AdapterManager

  // ---- envelopes ----

  /** The `error` part of the detail and the request id it is raised for. */
  datatype ErrorEnvelope = ErrorEnvelope(requestId: Option<string>, code: string, message: string, details: Json)

  /** An `HTTPException(status_code, detail)`. */
  datatype HttpError = HttpError(status: int, detail: ErrorEnvelope)

  /** `ResponseMetadata`; `upstreamLatency` is declared `ge=0`. Its wall-clock `timestamp` is not
      part of the model. */
  datatype Metadata = Metadata(provider: string, upstreamLatency: nat)

  /** What `execute_proxy` ends with: a `SuccessResponse` (`success=True`), an `HTTPException`
      built by `_error_response`, or the rate limiter's own `HTTPException`, re-raised as it is. */
  datatype Answer =
    | Succeeded(requestId: string, data: Json, metadata: Metadata)
    | Refused(error: HttpError)
    | Throttled(limit: RateLimitError)

  function RequestIdJson(requestId: Option<string>): Json {
    if requestId.Some? then JStr(requestId.value) else JNull
  }

  /** The `detail` dict of an error envelope. */
  function DetailJson(e: ErrorEnvelope): (j: Json)
    ensures j.JObj? && j.fields.Keys == {"requestId", "success", "error"}
    ensures j.fields["success"] == JBool(false)
    ensures j.fields["error"].JObj? && j.fields["error"].fields.Keys == {"code", "message", "details"}
  {
    JObj(map[
      "requestId" := RequestIdJson(e.requestId),
      "success" := JBool(false),
      "error" := JObj(map["code" := JStr(e.code), "message" := JStr(e.message), "details" := e.details])
    ])
  }

  /** A client's reading of an error detail. */
  function ReadDetail(j: Json): Option<ErrorEnvelope> {
    if j.JObj? && "requestId" in j.fields && "error" in j.fields && j.fields["error"].JObj?
       && (j.fields["requestId"].JNull? || j.fields["requestId"].JStr?)
    then
      var err := j.fields["error"].fields;
      if "code" in err && err["code"].JStr? && "message" in err && err["message"].JStr? && "details" in err then
        var requestId := if j.fields["requestId"].JStr? then Some(j.fields["requestId"].s) else None;
        Some(ErrorEnvelope(requestId, err["code"].s, err["message"].s, err["details"]))
      else None
    else None
  }

  /** The detail loses nothing: the request id, code, message and details read back. */
  lemma DetailRoundTrip(e: ErrorEnvelope)
    ensures ReadDetail(DetailJson(e)) == Some(e)
  {
    var j := DetailJson(e);
    assert j.fields["requestId"] == RequestIdJson(e.requestId);
    assert j.fields["error"].fields["code"] == JStr(e.code);
    assert j.fields["error"].fields["message"] == JStr(e.message);
    assert j.fields["error"].fields["details"] == e.details;
  }

  /** The status `_error_response` looks up: 400, 502 and 500 map to themselves, every other code
      to 500. */
  function HttpStatus(statusCode: int): (r: int)
    ensures r in {400, 500, 502}
    ensures statusCode in {400, 500, 502} ==> r == statusCode
  {
    if statusCode == 400 || statusCode == 502 || statusCode == 500 then statusCode else 500
  }

  /** `_error_response(request_id, status_code, error_code, message, details)`. */
  function ErrorResponse(requestId: Option<string>, statusCode: int, code: string, message: string, details: Json): HttpError {
    HttpError(HttpStatus(statusCode), ErrorEnvelope(requestId, code, message, details))
  }

  const InternalMessage: string := "Internal server error"
  const UpstreamMessage: string := "Upstream API failed after retries"

  function InternalError(requestId: Option<string>): Answer {
    Refused(ErrorResponse(requestId, 500, "INTERNAL_ERROR", InternalMessage, JNull))
  }

  // ---- execute_proxy ----

  /** How the `try` block gets on before the adapter's response is inspected. */
  datatype TryOutcome =
    | NoDecision                            // no decision for the operation: `ValueError`
    | TryRaised                             // any other non-HTTP exception
    | TryThrottled(error: RateLimitError)   // the limiter's `HTTPException(429)`
    | Answered(response: AdapterResponse)   // the adapter returned a response

  /** The `try` block once the adapter has answered, and its `except` clauses. */
  function TryBlock(req: ProxyRequest, outcome: TryOutcome): Answer {
    match outcome
    case NoDecision => InternalError(req.requestId)
    case TryRaised => InternalError(req.requestId)
    case TryThrottled(e) => Throttled(e)
    case Answered(resp) =>
      if resp.statusCode != 200 then
        Refused(ErrorResponse(req.requestId, 502, "UPSTREAM_ERROR", UpstreamMessage, resp.data))
      else
        match NormalizeResponse(req.operationType, resp.data)
        case None => InternalError(req.requestId)
        case Some(data) =>
          // `ResponseMetadata` rejects a negative latency and `SuccessResponse` a `None` id,
          // both with a `ValidationError`, which the `except Exception` clause turns into a 500.
          if resp.latencyMs < 0 || req.requestId.None? then InternalError(req.requestId)
          else Succeeded(req.requestId.value, data, Metadata(AdapterName, resp.latencyMs))
  }

  /** `execute_proxy(request)`: the operation check, the payload check (read as the three values
      `is_valid, validation_error, error_details`), then the `try` block. */
  function ExecuteProxy(req: ProxyRequest, outcome: TryOutcome): Answer {
    var opCheck := ValidateOperationType(req.operationType);
    if !opCheck.0 then
      Refused(ErrorResponse(req.requestId, 400, "UNKNOWN_OPERATION", opCheck.1.value, JNull))
    else
      match PayloadVerdict(req.operationType, req.payload)
      case UnknownOperation(message) => Refused(ErrorResponse(req.requestId, 400, "VALIDATION_ERROR", message, JNull))
      case Failed(message, errors) => Refused(ErrorResponse(req.requestId, 400, "VALIDATION_ERROR", message, JObj(errors)))
      case Passed(_) => TryBlock(req, outcome)
  }

  /** The request passes both validators. */
  predicate Validated(req: ProxyRequest) {
    PayloadVerdict(req.operationType, req.payload).Passed?
  }

  /** An unknown operation name is refused with 400 UNKNOWN_OPERATION and the validator's message,
      whatever the `try` block would have done. */
  lemma UnknownOperationRefused(req: ProxyRequest, outcome: TryOutcome)
    requires req.operationType !in ValidOperations()
    ensures ExecuteProxy(req, outcome) == Refused(HttpError(400, ErrorEnvelope(req.requestId, "UNKNOWN_OPERATION",
      "Unknown operationType '" + req.operationType + "'. Valid: " + ValidList, JNull)))
  {
  }

  /** A known operation with a failing payload is refused with 400 VALIDATION_ERROR, whatever the
      `try` block would have done; the details name exactly the failing fields. */
  lemma InvalidPayloadRefused(req: ProxyRequest, outcome: TryOutcome)
    requires req.operationType in ValidOperations()
    requires exists f :: f in RequiredFields(OperationNamed(req.operationType).value) && !PositiveInt(req.payload, f)
    ensures var a := ExecuteProxy(req, outcome);
      && a.Refused? && a.error.status == 400
      && a.error.detail.requestId == req.requestId
      && a.error.detail.code == "VALIDATION_ERROR"
      && a.error.detail.message == "Payload validation failed for " + req.operationType
      && a.error.detail.details.JObj?
      && forall f :: f in a.error.detail.details.fields <==>
           f in RequiredFields(OperationNamed(req.operationType).value) && !PositiveInt(req.payload, f)
  {
    PayloadVerdictCases(req.operationType, req.payload);
    FailedNamesFailingFields(req.operationType, req.payload);
  }

  /** Nothing of the `try` block matters unless the request is valid: the upstream is consulted
      only after both checks pass, and a refusal there is a 400. */
  lemma ValidationComesFirst(req: ProxyRequest, o1: TryOutcome, o2: TryOutcome)
    requires !Validated(req)
    ensures ExecuteProxy(req, o1) == ExecuteProxy(req, o2)
    ensures ExecuteProxy(req, o1).Refused? && ExecuteProxy(req, o1).error.status == 400
  {
  }

  /** The exception branches of the `try` block: a missing decision or any other exception is a
      500 INTERNAL_ERROR without details; the limiter's 429 passes through unchanged. */
  lemma ExceptionsInTryBlock(req: ProxyRequest, outcome: TryOutcome)
    requires Validated(req)
    ensures outcome.NoDecision? || outcome.TryRaised? ==>
      ExecuteProxy(req, outcome) == Refused(HttpError(500, ErrorEnvelope(req.requestId, "INTERNAL_ERROR", "Internal server error", JNull)))
    ensures outcome.TryThrottled? ==> ExecuteProxy(req, outcome) == Throttled(outcome.error)
  {
  }

  /** A non-200 adapter response is a 502 UPSTREAM_ERROR carrying the adapter's data; the
      normalizer is not consulted. */
  lemma UpstreamFailureIs502(req: ProxyRequest, resp: AdapterResponse)
    requires Validated(req) && resp.statusCode != 200
    ensures ExecuteProxy(req, Answered(resp)) ==
      Refused(HttpError(502, ErrorEnvelope(req.requestId, "UPSTREAM_ERROR", "Upstream API failed after retries", resp.data)))
  {
  }

  /** A 200 succeeds exactly when the data normalizes, the request has an id and the latency is
      not negative; the envelope then carries the id, the normalized data, the provider
      "openliga" and the adapter's latency. Otherwise it is a 500. */
  lemma SuccessConditions(req: ProxyRequest, resp: AdapterResponse)
    requires Validated(req) && resp.statusCode == 200
    ensures ExecuteProxy(req, Answered(resp)).Succeeded? <==>
      NormalizeResponse(req.operationType, resp.data).Some? && req.requestId.Some? && resp.latencyMs >= 0
    ensures ExecuteProxy(req, Answered(resp)).Succeeded? ==>
      ExecuteProxy(req, Answered(resp)) ==
        Succeeded(req.requestId.value, NormalizeResponse(req.operationType, resp.data).value, Metadata("openliga", resp.latencyMs))
    ensures !ExecuteProxy(req, Answered(resp)).Succeeded? ==>
      ExecuteProxy(req, Answered(resp)) == InternalError(req.requestId)
  {
  }

  /** The request id is threaded through unchanged into every envelope the route builds. */
  lemma RequestIdThreaded(req: ProxyRequest, outcome: TryOutcome)
    ensures ExecuteProxy(req, outcome).Refused? ==> ExecuteProxy(req, outcome).error.detail.requestId == req.requestId
    ensures ExecuteProxy(req, outcome).Succeeded? ==> Some(ExecuteProxy(req, outcome).requestId) == req.requestId
  {
  }

  /** The statuses the route raises: 400 for the two validation codes, 502 for the upstream and
      500 for internal errors. */
  lemma StatusMatchesCode(req: ProxyRequest, outcome: TryOutcome)
    requires ExecuteProxy(req, outcome).Refused?
    ensures var e := ExecuteProxy(req, outcome).error;
      && e.status in {400, 500, 502}
      && (e.status == 400 <==> e.detail.code in {"UNKNOWN_OPERATION", "VALIDATION_ERROR"})
      && (e.status == 502 <==> e.detail.code == "UPSTREAM_ERROR")
      && (e.status == 500 <==> e.detail.code == "INTERNAL_ERROR")
  {
    var e := ExecuteProxy(req, outcome).error;
    assert (e.status, e.detail.code) in ErrorKinds;
    ErrorKindsDetermineStatus(e.status, e.detail.code);
  }

  /** The (status, code) pairs the route's error responses use. */
  const ErrorKinds: set<(int, string)> :=
    {(400, "UNKNOWN_OPERATION"), (400, "VALIDATION_ERROR"), (502, "UPSTREAM_ERROR"), (500, "INTERNAL_ERROR")}

  lemma ErrorKindsDetermineStatus(status: int, code: string)
    requires (status, code) in ErrorKinds
    ensures status in {400, 500, 502}
    ensures status == 400 <==> code in {"UNKNOWN_OPERATION", "VALIDATION_ERROR"}
    ensures status == 502 <==> code == "UPSTREAM_ERROR"
    ensures status == 500 <==> code == "INTERNAL_ERROR"
  {
  }

  // ---- the same payload check, unpacked as written ----

  /** `is_valid, validation_error, error_details = validate_payload(...)`: unpacking the returned
      tuple into three names. `None` is the `ValueError` of a tuple of another length. */
  function UnpackVerdict(c: PayloadCheck): (r: Option<(bool, string, Json)>)
    ensures r.Some? <==> Arity(c) == 3
    ensures r.Some? ==> !r.value.0
  {
    match c
    case UnknownOperation(message) => Some((false, message, JNull))
    case _ => None
  }

  /** `execute_proxy` with the three-name unpacking; `None` is the `ValueError`, which is raised
      outside the `try` block and so escapes the route. */
  function ExecuteProxyAsWritten(req: ProxyRequest, outcome: TryOutcome): Option<Answer> {
    var opCheck := ValidateOperationType(req.operationType);
    if !opCheck.0 then
      Some(Refused(ErrorResponse(req.requestId, 400, "UNKNOWN_OPERATION", opCheck.1.value, JNull)))
    else
      match UnpackVerdict(PayloadVerdict(req.operationType, req.payload))
      case None => None
      case Some((isValid, message, details)) =>
        if !isValid then Some(Refused(ErrorResponse(req.requestId, 400, "VALIDATION_ERROR", message, details)))
        else Some(TryBlock(req, outcome))
  }

  /** As written, every request naming a known operation fails in the unpacking, valid or not:
      `validate_payload` answers a known name with four values. */
  lemma KnownOperationFailsToUnpack(req: ProxyRequest, outcome: TryOutcome)
    requires req.operationType in ValidOperations()
    ensures ExecuteProxyAsWritten(req, outcome).None?
  {
    PayloadVerdictCases(req.operationType, req.payload);
  }

  /** For instance a well-formed `GetTeam` request never reaches the adapter as written, and does
      with the verdict read by its shape. */
  lemma GetTeamUnpacking(outcome: TryOutcome)
    ensures ExecuteProxyAsWritten(ProxyRequest("GetTeam", Some("r1"), map["teamId" := JInt(1)]), outcome).None?
    ensures ExecuteProxy(ProxyRequest("GetTeam", Some("r1"), map["teamId" := JInt(1)]), outcome) ==
      TryBlock(ProxyRequest("GetTeam", Some("r1"), map["teamId" := JInt(1)]), outcome)
  {
    var req := ProxyRequest("GetTeam", Some("r1"), map["teamId" := JInt(1)]);
    assert OperationNamed("GetTeam") == Some(GetTeam);
    KnownOperationFailsToUnpack(req, outcome);
    assert PositiveInt(req.payload, "teamId");
    assert ParsePayload(GetTeam, req.payload).Success?;
    assert PayloadVerdict(req.operationType, req.payload).Passed?;
  }

  // ---- from the decision mapper's execution to the route ----

  /** What the decision mapper's `execute` makes of the `try` block: its `KeyError` and binding
      errors are exceptions, the limiter's 429 propagates, and a fetch that ends in a response is
      the adapter's answer. */
  function TryOutcomeOf(e: Execution): (o: TryOutcome)
    ensures e.Ran? && e.result.Fetched? ==> o == Answered(e.result.response)
    ensures e.Ran? && e.result.RateLimited? ==> o == TryThrottled(e.result.error)
    ensures !(e.Ran? && (e.result.Fetched? || e.result.RateLimited?)) ==> o == TryRaised
  {
    match e
    case Ran(Fetched(resp), _, _) => Answered(resp)
    case Ran(RateLimited(error), _, _) => TryThrottled(error)
    case _ => TryRaised
  }

  /** End to end: a valid request to an upstream that keeps answering 503 ends, after
      `BACKOFF_MAX_RETRIES + 1` calls, in a 502 whose details are the adapter's error body. */
  lemma UnavailableUpstreamIs502(req: ProxyRequest, s: Settings, url: string, env: Environment, latency: nat)
    requires Validated(req)
    requires s.backoffMaxRetries >= 0 && s.rateLimit >= s.backoffMaxRetries + 1
    requires forall n :: env.answer(n) == Responded(503, Some(JNull), latency)
    ensures var run := FetchFrom(s, url, [], env, 0);
      ExecuteProxy(req, TryOutcomeOf(Ran(run.result, run.calls, run.sleeps))) ==
        Refused(HttpError(502, ErrorEnvelope(req.requestId, "UPSTREAM_ERROR", "Upstream API failed after retries", ApiErrorBody(503))))
  {
    AlwaysUnavailable(s, url, env, latency);
  }

  lemma TeamRequestValidated(requestId: string, teamId: int)
    requires teamId > 0
    ensures Validated(ProxyRequest("GetTeam", Some(requestId), map["teamId" := JInt(teamId)]))
  {
    OperationTable();
    PayloadVerdictCases("GetTeam", map["teamId" := JInt(teamId)]);
  }

  /** A valid `GetTeam` request answered 200 succeeds with the normalized team. */
  lemma TeamAnswered(requestId: string, teamId: int, resp: AdapterResponse)
    requires teamId > 0 && resp.statusCode == 200 && resp.latencyMs >= 0
    ensures ExecuteProxy(ProxyRequest("GetTeam", Some(requestId), map["teamId" := JInt(teamId)]), Answered(resp)) ==
      Succeeded(requestId, NormalizeTeam(resp.data), Metadata("openliga", resp.latencyMs))
  {
    var req := ProxyRequest("GetTeam", Some(requestId), map["teamId" := JInt(teamId)]);
    TeamRequestValidated(requestId, teamId);
    assert NormalizeResponse("GetTeam", resp.data) == Some(NormalizeTeam(resp.data));
    SuccessConditions(req, resp);
  }

  /** End to end: a `GetTeam` request with a positive `teamId`, admitted by the limiter and answered
      200 at once, succeeds with the normalized team and the upstream latency. */
  lemma TeamRequestSucceeds(requestId: string, teamId: int, s: Settings, q: seq<real>, env: Environment, body: Json, latency: nat)
    requires teamId > 0 && |q| < s.rateLimit
    requires env.answer(0) == Responded(200, Some(body), latency)
    ensures var req := ProxyRequest("GetTeam", Some(requestId), map["teamId" := JInt(teamId)]);
      var run := FetchFrom(s, TeamUrl(s.baseUrl, teamId), q, env, 0);
      ExecuteProxy(req, TryOutcomeOf(Ran(run.result, run.calls, run.sleeps))) ==
        Succeeded(requestId, NormalizeTeam(body), Metadata("openliga", latency))
  {
    var url := TeamUrl(s.baseUrl, teamId);
    FirstAnswerOk(s, url, q, env, body, latency);
    var run := FetchFrom(s, url, q, env, 0);
    assert TryOutcomeOf(Ran(run.result, run.calls, run.sleeps)) == Answered(AdapterResponse(body, 200, latency, url));
    TeamAnswered(requestId, teamId, AdapterResponse(body, 200, latency, url));
  }

  // ---- get_mapper ----

  /** The route module's state: the adapter manager it asks, the settings it passes, and the
      module global `_mapper`. */
  class Router {
    const manager: Manager
    const settings: Settings
    var mapper: DecisionMapper?

    constructor (manager: Manager, settings: Settings)
      ensures this.manager == manager && this.settings == settings && mapper == null
    {
      this.manager := manager;
      this.settings := settings;
      mapper := null;
    }

    /** `get_mapper()`: builds the mapper around the "openliga" adapter only while `_mapper` is
        `None`, then returns that same mapper on every call. `None` is the `KeyError` of
        `get_adapter` when the adapter is neither cached nor registered. */
    method GetMapper() returns (m: Option<DecisionMapper>)
      modifies this`mapper, manager`adapters
      ensures old(mapper) != null ==> m == Some(old(mapper)) && manager.adapters == old(manager.adapters)
      ensures old(mapper) == null && (AdapterName in old(manager.adapters) || AdapterName in manager.registry) ==>
        && m.Some? && fresh(m.value) && m.value.routes == Routes
        && AdapterName in manager.adapters && m.value.adapter == manager.adapters[AdapterName]
      ensures old(mapper) == null && AdapterName !in old(manager.adapters) && AdapterName !in manager.registry ==>
        m.None? && manager.adapters == old(manager.adapters)
      ensures m.Some? <==> mapper != null
      ensures m.Some? ==> mapper == m.value
      ensures m.None? ==> mapper == null
    {
      if mapper == null {
        var adapter := manager.GetAdapter(AdapterName, settings);
        if adapter.None? {
          return None;
        }
        mapper := new DecisionMapper(adapter.value);
      }
      m := Some(mapper);
    }
  }
}
