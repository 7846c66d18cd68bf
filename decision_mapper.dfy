/** The decision mapper: a routing table from operation name to an adapter method and a mapping
    from payload field to keyword parameter, and `execute`, which builds the keyword arguments
    from the validated payload and calls the method. */
module DecisionMapping {
  import opened Wrappers
  import opened Dicts
  import opened Requests
  import opened OpenLigaDb

  datatype AdapterMethod = ListLeaguesMethod | GetLeagueMatchesMethod | GetTeamMethod | GetMatchesBetweenTeamsMethod

  /** An entry of `_routes`: the bound method and `{payload field: parameter name}`. */
  datatype Route = Route(target: AdapterMethod, fieldMapping: seq<(string, string)>)

  /** The table `__init__` assigns to `_routes`. */
  const Routes: map<string, Route> := map[
    "ListLeagues" := Route(ListLeaguesMethod, []),
    "GetLeagueMatches" := Route(GetLeagueMatchesMethod, [("leagueId", "league_id"), ("season", "season")]),
    "GetTeam" := Route(GetTeamMethod, [("teamId", "team_id")]),
    "GetMatch" := Route(GetMatchesBetweenTeamsMethod, [("teamId1", "team_id1"), ("teamId2", "team_id2")])
  ]

  /** A bound call of an adapter method. */
  datatype Call =
    | ListLeaguesCall
    | LeagueMatchesCall(leagueId: int, season: Option<int>)
    | TeamCall(teamId: int)
    | MatchesBetweenCall(teamId1: int, teamId2: int)

  /** `{param: getattr(payload, field) for field, param in mapping.items()}`; `None` is the
      `AttributeError` of a field the payload does not have. */
  function Kwargs(p: Payload, mapping: seq<(string, string)>): (r: Option<map<string, int>>)
    ensures r.Some? <==> forall i :: 0 <= i < |mapping| ==> Attr(p, mapping[i].0).Some?
    ensures r.Some? ==> r.value.Keys == set i | 0 <= i < |mapping| :: mapping[i].1
  {
    if forall i :: 0 <= i < |mapping| ==> Attr(p, mapping[i].0).Some? then
      var pairs := seq(|mapping|, i requires 0 <= i < |mapping| => (mapping[i].1, Attr(p, mapping[i].0).value));
      FromPairsKeys(pairs);
      assert forall i :: 0 <= i < |pairs| ==> pairs[i].0 == mapping[i].1;
      assert (set i | 0 <= i < |pairs| :: pairs[i].0) == (set i | 0 <= i < |mapping| :: mapping[i].1);
      Some(FromPairs(pairs))
    else None
  }

  /** Each parameter is bound to the attribute named by its field (parameter names being
      distinct, as in every route). */
  lemma KwargsValues(p: Payload, mapping: seq<(string, string)>, i: nat)
    requires Kwargs(p, mapping).Some? && i < |mapping|
    requires forall j :: i < j < |mapping| ==> mapping[j].1 != mapping[i].1
    ensures Kwargs(p, mapping).value[mapping[i].1] == Attr(p, mapping[i].0).value
  {
    var pairs := seq(|mapping|, k requires 0 <= k < |mapping| => (mapping[k].1, Attr(p, mapping[k].0).value));
    FromPairsLastWins(pairs, i);
  }

  /** Python's binding of `method(**kwargs)` to the method's parameters; `None` is the `TypeError`
      of a missing or unexpected keyword. `season` defaults to `None`. */
  function Bind(m: AdapterMethod, kwargs: map<string, int>): Option<Call> {
    match m
    case ListLeaguesMethod =>
      if kwargs.Keys == {} then Some(ListLeaguesCall) else None
    case GetLeagueMatchesMethod =>
      if "league_id" in kwargs && kwargs.Keys <= {"league_id", "season"} then
        Some(LeagueMatchesCall(kwargs["league_id"], if "season" in kwargs then Some(kwargs["season"]) else None))
      else None
    case GetTeamMethod =>
      if kwargs.Keys == {"team_id"} then Some(TeamCall(kwargs["team_id"])) else None
    case GetMatchesBetweenTeamsMethod =>
      if kwargs.Keys == {"team_id1", "team_id2"} then Some(MatchesBetweenCall(kwargs["team_id1"], kwargs["team_id2"])) else None
  }

  /** What `execute(name, payload)` decides before any upstream call. */
  datatype Decision = NoRoute | BadCall | Made(call: Call)

  function Decide(routes: map<string, Route>, name: string, p: Payload): Decision {
    if name !in routes then NoRoute
    else
      var route := routes[name];
      match Kwargs(p, route.fieldMapping)
      case None => BadCall
      case Some(kwargs) =>
        match Bind(route.target, kwargs)
        case None => BadCall
        case Some(call) => Made(call)
  }

  /** The URL the adapter fetches for a call. */
  function CallUrl(base: string, call: Call): string {
    match call
    case ListLeaguesCall => LeaguesUrl(base)
    case LeagueMatchesCall(leagueId, season) => LeagueMatchesUrl(base, leagueId, season)
    case TeamCall(teamId) => TeamUrl(base, teamId)
    case MatchesBetweenCall(teamId1, teamId2) => MatchesBetweenUrl(base, teamId1, teamId2)
  }

  /** Reference definition: the call each validated payload is meant to make. */
  function IntendedCall(p: Payload): Call {
    match p
    case ListLeaguesPayload => ListLeaguesCall
    case GetLeagueMatchesPayload(leagueId, season) => LeagueMatchesCall(leagueId, Some(season))
    case GetTeamPayload(teamId) => TeamCall(teamId)
    case GetMatchPayload(teamId1, teamId2) => MatchesBetweenCall(teamId1, teamId2)
  }

  /** The table routes exactly the four operations. */
  lemma RoutesCoverOperations()
    ensures Routes.Keys == ValidOperations()
  {
    OperationTable();
  }

  /** Each route maps the schema's fields, in order, to the parameters of its method. */
  lemma RoutesMapSchemaFields(op: Operation)
    ensures Name(op) in Routes
    ensures |Routes[Name(op)].fieldMapping| == |RequiredFields(op)|
    ensures forall i :: 0 <= i < |RequiredFields(op)| ==> Routes[Name(op)].fieldMapping[i].0 == RequiredFields(op)[i]
  {
  }

  /** A payload validated for an operation is passed on field by field: the call carries exactly
      the payload's values under the method's parameter names. */
  lemma ValidatedPayloadMakesIntendedCall(p: Payload)
    ensures Decide(Routes, Name(KindOf(p)), p) == Made(IntendedCall(p))
  {
    var mapping := Routes[Name(KindOf(p))].fieldMapping;
    if |mapping| > 0 {
      KwargsValues(p, mapping, 0);
    }
    if |mapping| > 1 {
      KwargsValues(p, mapping, 1);
    }
  }

  /** A payload of another operation fails on `getattr`, except for `ListLeagues`, whose empty
      mapping reads no attribute. */
  lemma MismatchedPayloadFails(op: Operation, p: Payload)
    requires KindOf(p) != op && op != ListLeagues
    ensures Decide(Routes, Name(op), p) == BadCall
  {
    var mapping := Routes[Name(op)].fieldMapping;
    assert Attr(p, mapping[0].0).None?;
  }

  /** `execute`'s outcome: `KeyError` for an unrouted name, the exception of a failed binding, or
      the adapter's fetch. */
  datatype Execution =
    | KeyErrorRaised
    | CallRaised
    | Ran(result: FetchResult, calls: nat, sleeps: seq<real>)

  class DecisionMapper {
    const adapter: OpenLigaDbAdapter
    const routes: map<string, Route>

    constructor (adapter: OpenLigaDbAdapter)
      ensures this.adapter == adapter && routes == Routes
    {
      this.adapter := adapter;
      routes := Routes;
    }

    /** `await method(**kwargs)`: the adapter method a bound call names. */
    method Invoke(call: Call, env: Environment) returns (r: Execution)
      requires adapter.Valid()
      modifies adapter`client, adapter.rateLimiter
      ensures adapter.Valid()
      ensures r.Ran? && Run(r.result, adapter.rateLimiter.requests, r.calls, r.sleeps)
        == FetchFrom(adapter.settings, CallUrl(adapter.settings.baseUrl, call), old(adapter.rateLimiter.requests), env, 0)
      ensures old(adapter.client) != null ==> adapter.client == old(adapter.client)
      ensures r.calls > 0 ==> adapter.client != null
    {
      var result, calls, sleeps;
      match call {
        case ListLeaguesCall =>
          result, calls, sleeps := adapter.ListLeagues(env);
        case LeagueMatchesCall(leagueId, season) =>
          result, calls, sleeps := adapter.GetLeagueMatches(leagueId, season, env);
        case TeamCall(teamId) =>
          result, calls, sleeps := adapter.GetTeam(teamId, env);
        case MatchesBetweenCall(teamId1, teamId2) =>
          result, calls, sleeps := adapter.GetMatchesBetweenTeams(teamId1, teamId2, env);
      }
      r := Ran(result, calls, sleeps);
    }

    /** `execute(name, validated_payload)`: looks the route up, builds the keyword arguments, calls
        the adapter method and returns its result unchanged. */
    method Execute(name: string, p: Payload, env: Environment) returns (r: Execution)
      requires adapter.Valid()
      modifies adapter`client, adapter.rateLimiter
      ensures adapter.Valid()
      ensures Decide(routes, name, p).NoRoute? ==> r == KeyErrorRaised
      ensures Decide(routes, name, p).BadCall? ==> r == CallRaised
      ensures Decide(routes, name, p).NoRoute? || Decide(routes, name, p).BadCall? ==>
        adapter.rateLimiter.requests == old(adapter.rateLimiter.requests) && adapter.client == old(adapter.client)
      ensures old(adapter.client) != null ==> adapter.client == old(adapter.client)
      ensures r.Ran? && r.calls > 0 ==> adapter.client != null
      ensures Decide(routes, name, p).Made? ==>
        r.Ran? && Run(r.result, adapter.rateLimiter.requests, r.calls, r.sleeps)
          == FetchFrom(adapter.settings, CallUrl(adapter.settings.baseUrl, Decide(routes, name, p).call),
                       old(adapter.rateLimiter.requests), env, 0)
    {
      if name !in routes {
        return KeyErrorRaised;
      }
      var route := routes[name];
      var kwargs := Kwargs(p, route.fieldMapping);
      if kwargs.None? {
        return CallRaised;
      }
      var call := Bind(route.target, kwargs.value);
      if call.None? {
        return CallRaised;
      }
      r := Invoke(call.value, env);
    }
  }
}
