/** The two validators: the operation name against `OPERATION_PAYLOAD_MAP`, and the payload
    against the schema of its operation, with pydantic's error list folded into a dict. */
module Validators {
  import opened Wrappers
  import opened Text
  import opened JsonValue
  import opened Dicts
  import opened Requests

  /** The operation names as the error message lists them. */
  const ValidList: string := "ListLeagues" + ", " + "GetLeagueMatches" + ", " + "GetTeam" + ", " + "GetMatch"

  /** The list in the message is the map's keys joined in insertion order. */
  lemma ValidListInMapOrder()
    ensures Join(OperationNames(), ", ") == ValidList
  {
    var names := OperationNames();
    var n4: seq<string> := ["GetMatch"];
    var n3: seq<string> := ["GetTeam"] + n4;
    var n2: seq<string> := ["GetLeagueMatches"] + n3;
    assert names == ["ListLeagues"] + n2;
    assert Join(n4, ", ") == "GetMatch";
    assert Join(n3, ", ") == "GetTeam" + ", " + "GetMatch";
    assert Join(n2, ", ") == "GetLeagueMatches" + ", " + ("GetTeam" + ", " + "GetMatch");
    assert Join(names, ", ") == "ListLeagues" + ", " + ("GetLeagueMatches" + ", " + ("GetTeam" + ", " + "GetMatch"));
  }

  /** `validate_operation_type(name)`: `(True, None)` for a key of the map, otherwise `False` with
      a message naming the operation and listing the valid ones in map order. */
  function ValidateOperationType(name: string): (r: (bool, Option<string>))
    ensures r.0 <==> name in ValidOperations()
    ensures r.0 ==> r.1.None?
    ensures !r.0 ==> r.1 == Some("Unknown operationType '" + name + "'. Valid: " + ValidList)
  {
    if OperationNamed(name).None? then
      ValidListInMapOrder();
      (false, Some("Unknown operationType '" + name + "'. Valid: " + Join(OperationNames(), ", ")))
    else (true, None)
  }

  /** The three shapes of `validate_payload`'s result. */
  datatype PayloadCheck =
    | UnknownOperation(message: string)                     // (False, message, None)
    | Passed(validated: Payload)                            // (True, None, None, validated)
    | Failed(message: string, errors: map<string, Json>)    // (False, message, error_dict, None)

  /** The number of values in the tuple `validate_payload` returns. */
  function Arity(c: PayloadCheck): nat {
    if c.UnknownOperation? then 3 else 4
  }

  /** `{"type": ..., "message": ...}` for one pydantic error. */
  function ErrorEntry(e: FieldError): Json {
    JObj(map["type" := JStr(e.kind), "message" := JStr(e.msg)])
  }

  /** The insertions the loop makes into `error_dict`: the dot-joined location and the entry. */
  function ErrorPairs(errors: seq<FieldError>): (ps: seq<(string, Json)>)
    ensures |ps| == |errors|
    ensures forall i :: 0 <= i < |ps| ==> ps[i] == (Join(errors[i].loc, "."), ErrorEntry(errors[i]))
  {
    seq(|errors|, i requires 0 <= i < |errors| => (Join(errors[i].loc, "."), ErrorEntry(errors[i])))
  }

  function ErrorDict(errors: seq<FieldError>): map<string, Json> {
    FromPairs(ErrorPairs(errors))
  }

  /** `validate_payload(name, payload)`, as a function of its inputs. */
  function PayloadVerdict(name: string, payload: map<string, Json>): PayloadCheck {
    match OperationNamed(name)
    case None => UnknownOperation("Unknown operation type")
    case Some(op) =>
      match ParsePayload(op, payload)
      case Success(validated) => Passed(validated)
      case Failure(errors) => Failed("Payload validation failed for " + name, ErrorDict(errors))
  }

  /** `validate_payload`, with the `for error in errors` loop that fills `error_dict`. */
  method ValidatePayload(name: string, payload: map<string, Json>) returns (c: PayloadCheck)
    ensures c == PayloadVerdict(name, payload)
  {
    var payloadModel := OperationNamed(name);
    if payloadModel.None? {
      return UnknownOperation("Unknown operation type");
    }
    var parsed := ParsePayload(payloadModel.value, payload);
    if parsed.Success? {
      return Passed(parsed.value);
    }
    var errorDict := BuildErrorDict(parsed.error);
    c := Failed("Payload validation failed for " + name, errorDict);
  }

  /** The `for error in errors` loop: each error inserts its entry under its dot-joined location. */
  method BuildErrorDict(errors: seq<FieldError>) returns (errorDict: map<string, Json>)
    ensures errorDict == ErrorDict(errors)
  {
    errorDict := map[];
    for i := 0 to |errors|
      invariant errorDict == FromPairs(ErrorPairs(errors)[..i])
    {
      var field := Join(errors[i].loc, ".");
      assert ErrorPairs(errors)[..i + 1][..i] == ErrorPairs(errors)[..i];
      errorDict := errorDict[field := ErrorEntry(errors[i])];
    }
    assert ErrorPairs(errors)[..|errors|] == ErrorPairs(errors);
  }

  /** The outcome of payload validation: unknown names, exactly the payloads whose required fields
      are all positive ints pass, and a failure carries the operation's name. */
  lemma PayloadVerdictCases(name: string, payload: map<string, Json>)
    ensures PayloadVerdict(name, payload).UnknownOperation? <==> name !in ValidOperations()
    ensures PayloadVerdict(name, payload).Passed? <==>
      name in ValidOperations() && forall f :: f in RequiredFields(OperationNamed(name).value) ==> PositiveInt(payload, f)
    ensures PayloadVerdict(name, payload).Failed? ==>
      PayloadVerdict(name, payload).message == "Payload validation failed for " + name
    ensures PayloadVerdict(name, payload).Passed? ==>
      KindOf(PayloadVerdict(name, payload).validated) == OperationNamed(name).value
  {
  }

  /** The keys of `error_dict` are the joined locations of the errors. */
  lemma ErrorDictKeys(errors: seq<FieldError>)
    ensures ErrorDict(errors).Keys == set i | 0 <= i < |errors| :: Join(errors[i].loc, ".")
  {
    var ps := ErrorPairs(errors);
    FromPairsKeys(ps);
    assert (set i | 0 <= i < |ps| :: ps[i].0) == (set i | 0 <= i < |errors| :: Join(errors[i].loc, "."));
  }

  /** When two errors share a location, the later one is what `error_dict` keeps. */
  lemma ErrorDictLastWins(errors: seq<FieldError>, i: nat)
    requires i < |errors|
    requires forall j :: i < j < |errors| ==> Join(errors[j].loc, ".") != Join(errors[i].loc, ".")
    ensures Join(errors[i].loc, ".") in ErrorDict(errors)
    ensures ErrorDict(errors)[Join(errors[i].loc, ".")] == ErrorEntry(errors[i])
  {
    FromPairsLastWins(ErrorPairs(errors), i);
  }

  /** For a known operation the details name exactly the failing fields of its schema. */
  lemma FailedNamesFailingFields(name: string, payload: map<string, Json>)
    requires PayloadVerdict(name, payload).Failed?
    ensures forall f :: f in PayloadVerdict(name, payload).errors <==>
      f in RequiredFields(OperationNamed(name).value) && !PositiveInt(payload, f)
  {
    var op := OperationNamed(name).value;
    var errors := FieldErrors(payload, RequiredFields(op));
    var failing := Failing(payload, RequiredFields(op));
    FailingExactly(payload, RequiredFields(op));
    ErrorDictKeys(errors);
    forall f ensures f in ErrorDict(errors) <==> f in failing {
      if f in failing {
        var i :| 0 <= i < |failing| && failing[i] == f;
        assert Join(errors[i].loc, ".") == f;
      }
      if f in ErrorDict(errors) {
        var i :| 0 <= i < |errors| && Join(errors[i].loc, ".") == f;
        assert errors[i].loc == [failing[i]];
      }
    }
  }

  /** A `GetTeam` request with an empty payload fails on `teamId` alone. */
  lemma MissingTeamId()
    ensures PayloadVerdict("GetTeam", map[]) ==
      Failed("Payload validation failed for GetTeam",
             map["teamId" := JObj(map["type" := JStr("missing"), "message" := JStr("Field required")])])
  {
    var missing := FieldError(["teamId"], "missing", "Field required");
    assert OperationNamed("GetTeam") == Some(GetTeam);
    assert CheckField(map[], "teamId") == Some(missing);
    var errors := FieldErrors(map[], ["teamId"]);
    assert errors == [missing];
    assert ParsePayload(GetTeam, map[]) == Failure(errors);
    var ps := ErrorPairs(errors);
    assert ps == [("teamId", ErrorEntry(missing))] by {
      assert Join(missing.loc, ".") == "teamId";
    }
    assert FromPairs(ps) == FromPairs(ps[..0])["teamId" := ErrorEntry(missing)];
  }
}
