/** The request models: the closed set of operations, the payload schema of each, the table
    `OPERATION_PAYLOAD_MAP` and the body of a proxy request.

    pydantic's validation is abstracted: a payload field is accepted when it is present and a JSON
    integer greater than 0; every other value yields one error for that field. */
module Requests {
  import opened Wrappers
  import opened JsonValue

  datatype Operation = ListLeagues | GetLeagueMatches | GetTeam | GetMatch

  /** The keys of `OPERATION_PAYLOAD_MAP`, in insertion order. */
  const Operations: seq<Operation> := [ListLeagues, GetLeagueMatches, GetTeam, GetMatch]

  function Name(op: Operation): string {
    match op
    case ListLeagues => "ListLeagues"
    case GetLeagueMatches => "GetLeagueMatches"
    case GetTeam => "GetTeam"
    case GetMatch => "GetMatch"
  }

  /** The names of the operations in map order. */
  function OperationNames(): (names: seq<string>)
    ensures |names| == |Operations|
    ensures forall i :: 0 <= i < |names| ==> names[i] == Name(Operations[i])
  {
    seq(|Operations|, i requires 0 <= i < |Operations| => Name(Operations[i]))
  }

  /** `VALID_OPERATIONS`: the key set of the map. */
  function ValidOperations(): set<string> {
    set i | 0 <= i < |Operations| :: Name(Operations[i])
  }

  /** The four operations, each listed once, and their four distinct names. */
  lemma OperationTable()
    ensures forall op: Operation :: op in Operations
    ensures forall i, j :: 0 <= i < j < |Operations| ==> Name(Operations[i]) != Name(Operations[j])
    ensures ValidOperations() == {"ListLeagues", "GetLeagueMatches", "GetTeam", "GetMatch"}
  {
    forall op: Operation ensures op in Operations {
      match op
      case ListLeagues => assert Operations[0] == op;
      case GetLeagueMatches => assert Operations[1] == op;
      case GetTeam => assert Operations[2] == op;
      case GetMatch => assert Operations[3] == op;
    }
    assert Name(Operations[0]) == "ListLeagues";
    assert Name(Operations[1]) == "GetLeagueMatches";
    assert Name(Operations[2]) == "GetTeam";
    assert Name(Operations[3]) == "GetMatch";
  }

  /** `OPERATION_PAYLOAD_MAP.get(name)`: the operation of that name, if any. */
  function OperationNamed(name: string): (r: Option<Operation>)
    ensures r.Some? <==> name in ValidOperations()
    ensures r.Some? ==> Name(r.value) == name
  {
    OperationTable();
    if name == "ListLeagues" then Some(ListLeagues)
    else if name == "GetLeagueMatches" then Some(GetLeagueMatches)
    else if name == "GetTeam" then Some(GetTeam)
    else if name == "GetMatch" then Some(GetMatch)
    else None
  }

  lemma NameRoundTrip(op: Operation)
    ensures OperationNamed(Name(op)) == Some(op)
  {
    assert Name(op) in ValidOperations() by {
      OperationTable();
      var i :| 0 <= i < |Operations| && Operations[i] == op;
    }
  }

  /** The required fields of each payload schema, in declaration order. Every one of them is an
      `int` with `gt=0` and no default. */
  function RequiredFields(op: Operation): seq<string> {
    match op
    case ListLeagues => []
    case GetLeagueMatches => ["leagueId", "season"]
    case GetTeam => ["teamId"]
    case GetMatch => ["teamId1", "teamId2"]
  }

  /** A validated payload model instance. */
  datatype Payload =
    | ListLeaguesPayload
    | GetLeagueMatchesPayload(leagueId: int, season: int)
    | GetTeamPayload(teamId: int)
    | GetMatchPayload(teamId1: int, teamId2: int)

  function KindOf(p: Payload): Operation {
    match p
    case ListLeaguesPayload => ListLeagues
    case GetLeagueMatchesPayload(_, _) => GetLeagueMatches
    case GetTeamPayload(_) => GetTeam
    case GetMatchPayload(_, _) => GetMatch
  }

  /** `getattr(payload, field)`; `None` stands for the `AttributeError` of a field the model does
      not have. */
  function Attr(p: Payload, field: string): (r: Option<int>)
    ensures r.Some? <==> field in RequiredFields(KindOf(p))
  {
    match p
    case ListLeaguesPayload => None
    case GetLeagueMatchesPayload(leagueId, season) =>
      if field == "leagueId" then Some(leagueId) else if field == "season" then Some(season) else None
    case GetTeamPayload(teamId) =>
      if field == "teamId" then Some(teamId) else None
    case GetMatchPayload(teamId1, teamId2) =>
      if field == "teamId1" then Some(teamId1) else if field == "teamId2" then Some(teamId2) else None
  }

  /** One entry of pydantic's `ValidationError.errors()`: location, error type and message. */
  datatype FieldError = FieldError(loc: seq<string>, kind: string, msg: string)

  /** The field is present and a JSON integer greater than 0. */
  predicate PositiveInt(payload: map<string, Json>, field: string) {
    field in payload && payload[field].JInt? && payload[field].i > 0
  }

  /** The abstract check of one `int = Field(..., gt=0)` field. */
  function CheckField(payload: map<string, Json>, field: string): (r: Option<FieldError>)
    ensures r.None? <==> PositiveInt(payload, field)
    ensures r.Some? ==> r.value.loc == [field]
  {
    if field !in payload then Some(FieldError([field], "missing", "Field required"))
    else if !payload[field].JInt? then Some(FieldError([field], "int_type", "Input should be a valid integer"))
    else if payload[field].i <= 0 then Some(FieldError([field], "greater_than", "Input should be greater than 0"))
    else None
  }

  /** The fields among `fields` that fail the check, in order. */
  function Failing(payload: map<string, Json>, fields: seq<string>): seq<string> {
    if fields == [] then []
    else (if PositiveInt(payload, fields[0]) then [] else [fields[0]]) + Failing(payload, fields[1..])
  }

  /** The failing fields are exactly the listed fields that are not positive integers. */
  lemma {:induction false} FailingExactly(payload: map<string, Json>, fields: seq<string>)
    ensures forall f :: f in Failing(payload, fields) <==> f in fields && !PositiveInt(payload, f)
  {
    if fields != [] {
      FailingExactly(payload, fields[1..]);
      assert forall f :: f in fields <==> f == fields[0] || f in fields[1..];
    }
  }

  /** The errors pydantic reports for `fields`: one per failing field, in field order. */
  function FieldErrors(payload: map<string, Json>, fields: seq<string>): (r: seq<FieldError>)
    ensures |r| == |Failing(payload, fields)|
    ensures forall i :: 0 <= i < |r| ==> r[i].loc == [Failing(payload, fields)[i]]
  {
    if fields == [] then []
    else
      var rest := FieldErrors(payload, fields[1..]);
      var failing := Failing(payload, fields[1..]);
      var check := CheckField(payload, fields[0]);
      if check.None? then
        assert Failing(payload, fields) == failing;
        rest
      else
        assert Failing(payload, fields) == [fields[0]] + failing;
        [check.value] + rest
  }

  /** `payload_model(**payload)`: the validated model, or the list of errors. Keys that are not
      fields of the schema are ignored. */
  function ParsePayload(op: Operation, payload: map<string, Json>): (r: Result<Payload, seq<FieldError>>)
    ensures r.Success? <==> forall f :: f in RequiredFields(op) ==> PositiveInt(payload, f)
    ensures r.Success? ==> KindOf(r.value) == op
    ensures r.Success? ==> forall f :: f in RequiredFields(op) ==> Attr(r.value, f) == Some(payload[f].i)
    ensures r.Failure? ==> r.error != []
  {
    var errors := FieldErrors(payload, RequiredFields(op));
    FailingExactly(payload, RequiredFields(op));
    if errors != [] then
      var failing := Failing(payload, RequiredFields(op));
      assert failing[0] in failing;
      Failure(errors)
    else
      assert Failing(payload, RequiredFields(op)) == [];
      assert forall f :: f in RequiredFields(op) ==> f !in Failing(payload, RequiredFields(op));
      match op
      case ListLeagues => Success(ListLeaguesPayload)
      case GetLeagueMatches => Success(GetLeagueMatchesPayload(payload["leagueId"].i, payload["season"].i))
      case GetTeam => Success(GetTeamPayload(payload["teamId"].i))
      case GetMatch => Success(GetMatchPayload(payload["teamId1"].i, payload["teamId2"].i))
  }

  /** Every validated payload carries positive ids, whatever the operation. */
  lemma ValidatedIdsPositive(op: Operation, payload: map<string, Json>, f: string)
    requires ParsePayload(op, payload).Success? && f in RequiredFields(op)
    ensures Attr(ParsePayload(op, payload).value, f).value > 0
  {
  }

  /** `ProxyRequest`: the operation name (already one of the four literals), the request id and
      the payload dict. */
  datatype ProxyRequest = ProxyRequest(operationType: string, requestId: Option<string>, payload: map<string, Json>)

  const LiteralMessage: string := "Input should be 'ListLeagues', 'GetLeagueMatches', 'GetTeam' or 'GetMatch'"

  function OperationTypeErrors(body: map<string, Json>): seq<FieldError> {
    if "operationType" !in body then [FieldError(["operationType"], "missing", "Field required")]
    else if body["operationType"].JStr? && OperationNamed(body["operationType"].s).Some? then []
    else [FieldError(["operationType"], "literal_error", LiteralMessage)]
  }

  function RequestIdErrors(body: map<string, Json>): seq<FieldError> {
    if "requestId" !in body || body["requestId"].JNull? || body["requestId"].JStr? then []
    else [FieldError(["requestId"], "string_type", "Input should be a valid string")]
  }

  function PayloadErrors(body: map<string, Json>): seq<FieldError> {
    if "payload" !in body then [FieldError(["payload"], "missing", "Field required")]
    else if body["payload"].JObj? then []
    else [FieldError(["payload"], "dict_type", "Input should be a valid dictionary")]
  }

  /** Validation of the request body; `freshId` is what `str(uuid4())` returns when the body has no
      `requestId`. */
  function ParseProxyRequest(body: map<string, Json>, freshId: string): (r: Result<ProxyRequest, seq<FieldError>>)
    ensures r.Success? <==>
      && "operationType" in body && body["operationType"].JStr?
      && body["operationType"].s in ValidOperations()
      && ("requestId" in body ==> body["requestId"].JNull? || body["requestId"].JStr?)
      && "payload" in body && body["payload"].JObj?
    ensures r.Success? ==> r.value.operationType == body["operationType"].s && r.value.payload == body["payload"].fields
    ensures r.Success? && "requestId" !in body ==> r.value.requestId == Some(freshId)
    ensures r.Success? && "requestId" in body ==>
      r.value.requestId == (if body["requestId"].JStr? then Some(body["requestId"].s) else None)
  {
    var errors := OperationTypeErrors(body) + RequestIdErrors(body) + PayloadErrors(body);
    if errors != [] then Failure(errors)
    else
      var requestId :=
        if "requestId" !in body then Some(freshId)
        else if body["requestId"].JStr? then Some(body["requestId"].s)
        else None;
      Success(ProxyRequest(body["operationType"].s, requestId, body["payload"].fields))
  }
}
