/** The audit middleware: for every request it settles a request id, logs the inbound request
    with its sensitive headers removed and a preview of its body, passes the request on, and logs
    the outbound response or the exception, which it re-raises.

    Log records are values here; timestamps and latencies (read from the wall clock) are not part
    of this model. */
module Audit {
  import opened Wrappers
  import opened Text
  import opened JsonValue
  import opened Dicts

  /** What `await request.body()` gives: the bytes, together with what `decode("utf-8",
      errors="ignore")` and `json.loads` make of them (`parsed` is `None` when `json.loads`
      raises), or a failure to read. */
  datatype BodyRead =
    | ReadFailed
    | Body(bytes: seq<bv8>, text: string, parsed: Option<Json>)

  /** The parts of a request the middleware reads; header names as received. */
  datatype Request = Request(httpMethod: string, path: string, headers: seq<(string, string)>, body: BodyRead)

  /** A response as the middleware sees it: streaming and file responses, responses with a `body`
      attribute (possibly `None`), and responses without one. */
  datatype Response =
    | StreamingResponse(status: int)
    | FileResponse(status: int)
    | WithBody(status: int, body: Option<seq<bv8>>)
    | WithoutBody(status: int)

  const BodyMethods: set<string> := {"POST", "PUT", "PATCH"}
  const UnsafeHeaderKeys: set<string> := {"authorization", "x-api-key", "cookie", "x-token"}
  const RequestIdHeader: string := "x-request-id"

  // ---- request id ----

  /** `request.headers.get("X-Request-ID")`: the value of the first header whose name matches
      without regard to case. */
  function HeaderGet(headers: seq<(string, string)>, lowerName: string): (r: Option<string>)
    ensures r.None? <==> forall i :: 0 <= i < |headers| ==> Lower(headers[i].0) != lowerName
    ensures r.Some? ==>
      exists i :: 0 <= i < |headers| && Lower(headers[i].0) == lowerName && headers[i].1 == r.value
        && forall j :: 0 <= j < i ==> Lower(headers[j].0) != lowerName
  {
    if headers == [] then None
    else if Lower(headers[0].0) == lowerName then Some(headers[0].1)
    else
      var r := HeaderGet(headers[1..], lowerName);
      assert forall i :: 1 <= i < |headers| ==> headers[i] == headers[1..][i - 1];
      r
  }

  /** The body names a request id: a body method, a non-empty body that parses to an object with
      a `requestId` key. */
  predicate BodyHasRequestId(req: Request) {
    && req.httpMethod in BodyMethods
    && req.body.Body? && |req.body.bytes| > 0
    && req.body.parsed.Some? && req.body.parsed.value.JObj?
    && "requestId" in req.body.parsed.value.fields
  }

  /** `_get_or_generate_request_id(request)`; `freshId` is what `str(uuid.uuid4())` returns. The
      body's value is taken as it is, even when it is not a string. */
  function RequestIdOf(req: Request, freshId: string): Json {
    var header := HeaderGet(req.headers, RequestIdHeader);
    if header.Some? && header.value != "" then JStr(header.value)
    else if BodyHasRequestId(req) then req.body.parsed.value.fields["requestId"]
    else JStr(freshId)
  }

  /** Precedence of the request id: a non-empty header, then the body, then the fresh UUID. */
  lemma RequestIdPrecedence(req: Request, freshId: string)
    ensures var header := HeaderGet(req.headers, RequestIdHeader);
      && (header.Some? && header.value != "" ==> RequestIdOf(req, freshId) == JStr(header.value))
      && (!(header.Some? && header.value != "") && BodyHasRequestId(req) ==>
            RequestIdOf(req, freshId) == req.body.parsed.value.fields["requestId"])
      && (!(header.Some? && header.value != "") && !BodyHasRequestId(req) ==> RequestIdOf(req, freshId) == JStr(freshId))
  {
  }

  /** With a non-empty header the body is never consulted, and without a body method neither is
      it: requests differing only in their bodies get the same id. */
  lemma BodyConsultedOnlyAsFallback(req: Request, body: BodyRead, freshId: string)
    requires var header := HeaderGet(req.headers, RequestIdHeader);
      (header.Some? && header.value != "") || req.httpMethod !in BodyMethods
    ensures RequestIdOf(req.(body := body), freshId) == RequestIdOf(req, freshId)
  {
  }

  /** The fresh UUID is used exactly when neither the header nor the body supplies an id, and the
      id is a string unless the body supplies something else. */
  lemma FreshIdOnlyAsLastResort(req: Request, freshId: string, otherId: string)
    requires freshId != otherId
    ensures (RequestIdOf(req, freshId) == JStr(freshId) && RequestIdOf(req, otherId) == JStr(otherId)) <==>
      !((HeaderGet(req.headers, RequestIdHeader).Some? && HeaderGet(req.headers, RequestIdHeader).value != "")
        || BodyHasRequestId(req))
    ensures !BodyHasRequestId(req) ==> RequestIdOf(req, freshId).JStr?
  {
  }

  // ---- inbound headers ----

  predicate SafeHeader(h: (string, string)) {
    Lower(h.0) !in UnsafeHeaderKeys
  }

  /** The header insertions `_log_inbound` makes into `safe_headers`, in order. */
  function SafePairs(headers: seq<(string, string)>): (r: seq<(string, string)>)
    ensures forall h :: h in r <==> h in headers && SafeHeader(h)
  {
    if headers == [] then []
    else
      var last := headers[|headers| - 1];
      var init := headers[..|headers| - 1];
      assert headers == init + [last];
      SafePairs(init) + (if SafeHeader(last) then [last] else [])
  }

  /** `safe_headers` as a function of the headers. */
  function SafeHeaders(headers: seq<(string, string)>): map<string, string> {
    FromPairs(SafePairs(headers))
  }

  /** The `for key, value in request.headers.items()` loop of `_log_inbound`. */
  method FilterHeaders(headers: seq<(string, string)>) returns (safe: map<string, string>)
    ensures safe == SafeHeaders(headers)
  {
    safe := map[];
    for i := 0 to |headers|
      invariant safe == FromPairs(SafePairs(headers[..i]))
    {
      var (key, value) := headers[i];
      var before := SafePairs(headers[..i]);
      assert headers[..i + 1][..i] == headers[..i];
      assert SafePairs(headers[..i + 1]) == before + (if SafeHeader(headers[i]) then [headers[i]] else []);
      if Lower(key) !in UnsafeHeaderKeys {
        assert (before + [headers[i]])[..|before|] == before;
        safe := safe[key := value];
      } else {
        assert before + [] == before;
      }
    }
    assert headers[..|headers|] == headers;
  }

  /** Every entry of a dict built by insertions is one of the inserted pairs. */
  lemma {:induction false} FromPairsEntries<K, V>(ps: seq<(K, V)>, k: K)
    requires k in FromPairs(ps)
    ensures (k, FromPairs(ps)[k]) in ps
  {
    var init := ps[..|ps| - 1];
    if ps[|ps| - 1].0 != k {
      FromPairsEntries(init, k);
      assert (k, FromPairs(init)[k]) in init;
    }
  }

  /** The logged headers are exactly the received ones whose lower-cased name is not sensitive,
      each with a value received under that name. */
  lemma SafeHeadersExact(headers: seq<(string, string)>)
    ensures forall k :: k in SafeHeaders(headers) <==>
      Lower(k) !in UnsafeHeaderKeys && exists v :: (k, v) in headers
    ensures forall k :: k in SafeHeaders(headers) ==> (k, SafeHeaders(headers)[k]) in headers
  {
    var ps := SafePairs(headers);
    FromPairsKeys(ps);
    forall k ensures k in SafeHeaders(headers) <==> Lower(k) !in UnsafeHeaderKeys && exists v :: (k, v) in headers {
      if k in SafeHeaders(headers) {
        var i :| 0 <= i < |ps| && ps[i].0 == k;
        assert ps[i] in ps;
      }
      if Lower(k) !in UnsafeHeaderKeys && exists v :: (k, v) in headers {
        var v :| (k, v) in headers;
        assert (k, v) in ps;
        var i :| 0 <= i < |ps| && ps[i] == (k, v);
      }
    }
    forall k | k in SafeHeaders(headers) ensures (k, SafeHeaders(headers)[k]) in headers {
      FromPairsEntries(ps, k);
    }
  }

  lemma ExampleHeadersClassified()
    ensures !SafeHeader(("Authorization", "Bearer t"))
    ensures SafeHeader(("content-type", "application/json"))
    ensures !SafeHeader(("cookie", "s=1"))
  {
    assert Lower("Authorization") == "authorization";
    assert Lower("content-type") == "content-type";
    assert Lower("cookie") == "cookie";
  }

  /** For example, a bearer token and a cookie are dropped and the content type is kept. */
  lemma RedactionExample()
    ensures SafeHeaders([("Authorization", "Bearer t"), ("content-type", "application/json"), ("cookie", "s=1")]) ==
      map["content-type" := "application/json"]
  {
    var h: seq<(string, string)> := [("Authorization", "Bearer t"), ("content-type", "application/json"), ("cookie", "s=1")];
    ExampleHeadersClassified();
    assert h[..1][..0] == [];
    assert SafePairs(h[..1]) == [];
    assert h[..2][..1] == h[..1];
    assert SafePairs(h[..2]) == [h[1]];
    assert h[..2] == h[..|h| - 1];
    assert SafePairs(h) == [h[1]];
    assert [h[1]][..0] == [];
  }

  // ---- inbound body ----

  /** `body_size` and the logged `body_preview` of `_log_inbound` (`None` for an empty preview);
      `limit` is `LOG_BODY_LIMIT`. */
  function InboundBody(httpMethod: string, body: BodyRead, limit: int): (nat, Option<string>) {
    if httpMethod !in BodyMethods || body.ReadFailed? then (0, None)
    else
      var preview := SliceTo(body.text, limit);
      (|body.bytes|, if preview == "" then None else Some(preview))
  }

  /** For a body method the size is the byte length and the preview the first `limit` characters
      of the decoded text (all but the last `-limit` for a negative limit); other methods and a
      failed read log size 0 and no preview. */
  lemma InboundBodyRule(httpMethod: string, body: BodyRead, limit: int)
    ensures httpMethod !in BodyMethods || body.ReadFailed? ==> InboundBody(httpMethod, body, limit) == (0, None)
    ensures httpMethod in BodyMethods && body.Body? ==>
      && InboundBody(httpMethod, body, limit).0 == |body.bytes|
      && (InboundBody(httpMethod, body, limit).1.Some? ==> InboundBody(httpMethod, body, limit).1.value <= body.text)
      && (limit >= 0 ==>
            (InboundBody(httpMethod, body, limit).1.Some? <==> limit > 0 && body.text != "")
            && (InboundBody(httpMethod, body, limit).1.Some? ==>
                  |InboundBody(httpMethod, body, limit).1.value| == (if limit < |body.text| then limit else |body.text|)))
  {
  }

  // ---- outbound ----

  /** `body_size` of `_log_outbound`. */
  function OutboundBodySize(resp: Response): (n: nat)
    ensures resp.StreamingResponse? || resp.FileResponse? || resp.WithoutBody? ==> n == 0
    ensures resp.WithBody? ==> n == (if resp.body.Some? then |resp.body.value| else 0)
  {
    match resp
    case WithBody(_, body) => if body.Some? && body.value != [] then |body.value| else 0
    case _ => 0
  }

  // ---- dispatch ----

  datatype LogRecord =
    | InboundRequest(requestId: Json, httpMethod: string, path: string, headers: map<string, string>, bodySize: nat, bodyPreview: Option<string>)
    | OutboundResponse(requestId: Json, status: int, bodySize: nat)
    | RequestError(requestId: Json, httpMethod: string, path: string, error: string)

  /** `dispatch(request, call_next)`: `downstream` is what `call_next` returns or the message of
      the exception it raises. The same outcome comes back, with the records logged. */
  function Dispatch(req: Request, freshId: string, limit: int, downstream: Result<Response, string>): (r: (Result<Response, string>, seq<LogRecord>))
    ensures r.0 == downstream
    ensures |r.1| == 2 && r.1[0].InboundRequest?
    ensures downstream.Success? <==> r.1[1].OutboundResponse?
    ensures r.1[0].requestId == r.1[1].requestId
  {
    var requestId := RequestIdOf(req, freshId);
    var (size, preview) := InboundBody(req.httpMethod, req.body, limit);
    var inbound := InboundRequest(requestId, req.httpMethod, req.path, SafeHeaders(req.headers), size, preview);
    match downstream
    case Success(resp) => (downstream, [inbound, OutboundResponse(requestId, resp.status, OutboundBodySize(resp))])
    case Failure(message) => (downstream, [inbound, RequestError(requestId, req.httpMethod, req.path, message)])
  }

  /** What `dispatch` logs: the request's id in both records, the redacted headers, and the
      response's status and size or the exception's message. */
  lemma DispatchRecords(req: Request, freshId: string, limit: int, downstream: Result<Response, string>)
    ensures var log := Dispatch(req, freshId, limit, downstream).1;
      && log[0].requestId == RequestIdOf(req, freshId)
      && log[0].headers == SafeHeaders(req.headers)
      && (forall k :: k in log[0].headers ==> Lower(k) !in UnsafeHeaderKeys)
      && (downstream.Success? ==> log[1] == OutboundResponse(RequestIdOf(req, freshId), downstream.value.status, OutboundBodySize(downstream.value)))
      && (downstream.Failure? ==> log[1] == RequestError(RequestIdOf(req, freshId), req.httpMethod, req.path, downstream.error))
  {
    SafeHeadersExact(req.headers);
  }
}
