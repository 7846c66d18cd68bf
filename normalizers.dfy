/** The response normalizers: from the decoded upstream JSON to the proxy's output schema.

    Every field is read with Python's `a.get(K) or a.get(k, default)`: the upstream key when its
    value is truthy, else the lower-case key, else the default. A `.get` on something that is not
    a dict, or an index into something that is not a list, raises; such a result is `None` here. */
module Normalizers {
  import opened Wrappers
  import opened JsonValue

  /** `d.get(upper) or d.get(lower, default)` */
  function Field(d: map<string, Json>, upper: string, lower: string, default: Json): (r: Json)
    ensures upper in d && Truthy(d[upper]) ==> r == d[upper]
    ensures !(upper in d && Truthy(d[upper])) ==> r == (if lower in d then d[lower] else default)
  {
    Or(Get(d, upper, JNull), Get(d, lower, default))
  }

  // ---- leagues ----

  /** The record `normalize_leagues` appends for one league object. */
  function LeagueRecord(league: map<string, Json>): (r: map<string, Json>)
    ensures r.Keys == {"id", "name", "country", "season"}
  {
    map[
      "id" := Field(league, "LeagueId", "id", JNull),
      "name" := Field(league, "LeagueName", "name", JNull),
      "country" := Field(league, "LeagueShortcut", "country", JStr("")),
      "season" := Field(league, "CurrentSeason", "season", JNull)
    ]
  }

  predicate AllObjects(items: seq<Json>) {
    forall i :: 0 <= i < |items| ==> items[i].JObj?
  }

  /** `normalize_leagues(data)`: `[]` for a non-list; one record per element, in order; raises on
      an element that is not an object. */
  function NormalizedLeagues(data: Json): Option<Json> {
    if !data.JList? then Some(JList([]))
    else if !AllObjects(data.items) then None
    else Some(JList(seq(|data.items|, i requires 0 <= i < |data.items| && AllObjects(data.items) =>
                          JObj(LeagueRecord(data.items[i].fields)))))
  }

  /** `normalize_leagues`, with its `for league in data: normalized.append(...)` loop. */
  method NormalizeLeagues(data: Json) returns (r: Option<Json>)
    ensures r == NormalizedLeagues(data)
  {
    if !data.JList? {
      return Some(JList([]));
    }
    var normalized: seq<Json> := [];
    for i := 0 to |data.items|
      invariant AllObjects(data.items[..i])
      invariant |normalized| == i
      invariant forall k :: 0 <= k < i ==> normalized[k] == JObj(LeagueRecord(data.items[k].fields))
    {
      var league := data.items[i];
      if !league.JObj? {
        assert !AllObjects(data.items);
        return None;
      }
      normalized := normalized + [JObj(LeagueRecord(league.fields))];
    }
    assert data.items[..|data.items|] == data.items;
    assert normalized == NormalizedLeagues(data).value.items;
    r := Some(JList(normalized));
  }

  /** The shape of `normalize_leagues`' result: a list, as long as the input list, of records with
      the four keys; the i-th record comes from the i-th league. */
  lemma LeaguesShape(data: Json)
    ensures !data.JList? ==> NormalizedLeagues(data) == Some(JList([]))
    ensures data.JList? ==> (NormalizedLeagues(data).Some? <==> AllObjects(data.items))
    ensures NormalizedLeagues(data).Some? && data.JList? ==>
      var out := NormalizedLeagues(data).value;
      && out.JList? && |out.items| == |data.items|
      && forall i :: 0 <= i < |out.items| ==>
           out.items[i].JObj? && out.items[i].fields.Keys == {"id", "name", "country", "season"}
           && out.items[i].fields["id"] == Field(data.items[i].fields, "LeagueId", "id", JNull)
  {
  }

  /** A league record reads back to itself: its keys are the fallback keys. */
  lemma LeagueRecordIdempotent(league: map<string, Json>)
    ensures LeagueRecord(LeagueRecord(league)) == LeagueRecord(league)
  {
    var out := LeagueRecord(league);
    assert "LeagueId" !in out && "LeagueName" !in out && "LeagueShortcut" !in out && "CurrentSeason" !in out;
  }

  /** `normalize_leagues` is idempotent on its own output. */
  lemma LeaguesIdempotent(data: Json)
    requires NormalizedLeagues(data).Some?
    ensures NormalizedLeagues(NormalizedLeagues(data).value) == NormalizedLeagues(data)
  {
    var out := NormalizedLeagues(data).value;
    if data.JList? {
      assert AllObjects(out.items);
      forall i | 0 <= i < |out.items|
        ensures JObj(LeagueRecord(out.items[i].fields)) == out.items[i]
      {
        LeagueRecordIdempotent(data.items[i].fields);
      }
      assert NormalizedLeagues(out).value.items == out.items;
    } else {
      assert NormalizedLeagues(out).value.items == [];
    }
  }

  /** A falsy upstream value falls through like a missing one: `LeagueId` 0 yields the `id` key,
      and a league with neither shortcut nor country gets the country "". */
  lemma LeagueFalsyFallsThrough()
    ensures LeagueRecord(map["LeagueId" := JInt(0), "id" := JInt(7)])["id"] == JInt(7)
    ensures LeagueRecord(map["LeagueShortcut" := JStr("")])["country"] == JStr("")
    ensures LeagueRecord(map[])["name"] == JNull
  {
  }

  // ---- matches ----

  /** Goals and result taken from the last entry of `MatchResults`. */
  datatype Score = Score(goals1: Json, goals2: Json, result: Json)

  const NoScore: Score := Score(JNull, JNull, JNull)

  /** The `if match_results: final = match_results[-1] ...` block: nothing for a falsy value, the
      last entry's `PointsTeam1`/`PointsTeam2` for a non-empty list; raises for any other truthy
      value or a last entry that is not an object. */
  function FinalScore(matchResults: Json): (r: Option<Score>)
    ensures !Truthy(matchResults) ==> r == Some(NoScore)
    ensures r.Some? && Truthy(matchResults) ==> r.value.result.JObj?
  {
    if !Truthy(matchResults) then Some(NoScore)
    else if matchResults.JList? && matchResults.items[|matchResults.items| - 1].JObj? then
      var final := matchResults.items[|matchResults.items| - 1].fields;
      var goals1 := Get(final, "PointsTeam1", JNull);
      var goals2 := Get(final, "PointsTeam2", JNull);
      Some(Score(goals1, goals2, JObj(map["team1Goals" := goals1, "team2Goals" := goals2])))
    else None
  }

  /** `match.get(key) or {}`, which must then be a dict to be read. */
  function TeamOf(m: map<string, Json>, key: string): Option<map<string, Json>> {
    var team := Or(Get(m, key, JNull), JObj(map[]));
    if team.JObj? then Some(team.fields) else None
  }

  /** `match.get("MatchStatus") or ("completed" if result else "scheduled")`. */
  function Status(m: map<string, Json>, score: Score): Json {
    Or(Get(m, "MatchStatus", JNull), JStr(if Truthy(score.result) then "completed" else "scheduled"))
  }

  /** The record `normalize_matches` appends for one match object. */
  function MatchRecord(m: map<string, Json>): (r: Option<map<string, Json>>)
    ensures r.Some? <==> TeamOf(m, "Team1").Some? && TeamOf(m, "Team2").Some?
                         && FinalScore(Get(m, "MatchResults", JList([]))).Some?
  {
    match (TeamOf(m, "Team1"), TeamOf(m, "Team2"), FinalScore(Get(m, "MatchResults", JList([]))))
    case (Some(team1), Some(team2), Some(score)) =>
      Some(map[
        "id" := Field(m, "MatchID", "id", JNull),
        "team1" := Field(team1, "TeamName", "name", JStr("")),
        "team2" := Field(team2, "TeamName", "name", JStr("")),
        "date" := Field(m, "MatchDateTime", "date", JStr("")),
        "status" := Status(m, score),
        "goals1" := score.goals1,
        "goals2" := score.goals2,
        "result" := score.result
      ])
    case _ => None
  }

  /** A match record has exactly the eight normalized keys. */
  lemma MatchRecordKeys(m: map<string, Json>)
    requires MatchRecord(m).Some?
    ensures MatchRecord(m).value.Keys == {"id", "team1", "team2", "date", "status", "goals1", "goals2", "result"}
  {
  }

  /** An element `normalize_matches` turns into a record without raising. */
  predicate Recordable(m: Json) {
    m.JObj? && MatchRecord(m.fields).Some?
  }

  predicate AllMatchRecords(items: seq<Json>) {
    forall i :: 0 <= i < |items| ==> Recordable(items[i])
  }

  /** `normalize_matches(data)`: `[]` for a non-list; one record per element, in order. */
  function NormalizedMatches(data: Json): Option<Json> {
    if !data.JList? then Some(JList([]))
    else if !AllMatchRecords(data.items) then None
    else Some(JList(seq(|data.items|, i requires 0 <= i < |data.items| && AllMatchRecords(data.items) =>
                          JObj(MatchRecord(data.items[i].fields).value))))
  }

  /** One element that cannot be normalized makes the whole list raise. */
  lemma UnrecordableRaises(data: Json, i: nat)
    requires data.JList? && i < |data.items| && !Recordable(data.items[i])
    ensures NormalizedMatches(data).None?
  {
  }

  /** Records built one per element, in order, are the normalized list. */
  lemma RecordsAreNormalized(data: Json, normalized: seq<Json>)
    requires data.JList? && |normalized| == |data.items|
    requires forall k :: 0 <= k < |data.items| ==>
      Recordable(data.items[k]) && normalized[k] == JObj(MatchRecord(data.items[k].fields).value)
    ensures NormalizedMatches(data) == Some(JList(normalized))
  {
    assert normalized == NormalizedMatches(data).value.items;
  }

  /** `normalize_matches`, with its append loop. */
  method NormalizeMatches(data: Json) returns (r: Option<Json>)
    ensures r == NormalizedMatches(data)
  {
    if !data.JList? {
      return Some(JList([]));
    }
    var normalized: seq<Json> := [];
    for i := 0 to |data.items|
      invariant |normalized| == i
      invariant forall k :: 0 <= k < i ==>
        Recordable(data.items[k]) && normalized[k] == JObj(MatchRecord(data.items[k].fields).value)
    {
      var m := data.items[i];
      // `m.get` on a non-dict, or a team or result that cannot be read, raises
      if !Recordable(m) {
        UnrecordableRaises(data, i);
        return None;
      }
      normalized := normalized + [JObj(MatchRecord(m.fields).value)];
    }
    RecordsAreNormalized(data, normalized);
    r := Some(JList(normalized));
  }

  /** Goals, result and status of a normalized match: from the last `MatchResults` entry when
      there is one, all null otherwise; the status falls back to completed/scheduled. */
  lemma MatchScoreRule(m: map<string, Json>)
    requires MatchRecord(m).Some?
    ensures var r := MatchRecord(m).value;
      var results := Get(m, "MatchResults", JList([]));
      && (!Truthy(results) ==> r["goals1"] == JNull && r["goals2"] == JNull && r["result"] == JNull)
      && (Truthy(results) ==>
            var final := results.items[|results.items| - 1].fields;
            && r["goals1"] == Get(final, "PointsTeam1", JNull)
            && r["goals2"] == Get(final, "PointsTeam2", JNull)
            && r["result"] == JObj(map["team1Goals" := r["goals1"], "team2Goals" := r["goals2"]]))
      && ("MatchStatus" in m && Truthy(m["MatchStatus"]) ==> r["status"] == m["MatchStatus"])
      && (!("MatchStatus" in m && Truthy(m["MatchStatus"])) ==>
            r["status"] == JStr(if Truthy(results) then "completed" else "scheduled"))
  {
    var score := FinalScore(Get(m, "MatchResults", JList([]))).value;
    if Truthy(Get(m, "MatchResults", JList([]))) {
      assert "team1Goals" in score.result.fields;
    }
  }

  /** Which match objects raise: a truthy `Team1`/`Team2` that is not an object, or a truthy
      `MatchResults` that is not a list ending in an object. */
  lemma MatchRecordRaises()
    ensures MatchRecord(map["Team1" := JStr("Bayern")]).None?
    ensures MatchRecord(map["MatchResults" := JInt(1)]).None?
    ensures MatchRecord(map["MatchResults" := JList([JInt(1)])]).None?
    ensures MatchRecord(map["MatchResults" := JList([])]).Some?
  {
  }

  /** The record keys are none of the upstream keys a match record reads. */
  lemma RecordKeysAreLowerCase(m: map<string, Json>)
    requires MatchRecord(m).Some?
    ensures "Team1" !in MatchRecord(m).value && "Team2" !in MatchRecord(m).value
    ensures "MatchResults" !in MatchRecord(m).value && "MatchStatus" !in MatchRecord(m).value
  {
  }

  /** Any normalized match, read again, loses its team names and goals: the record keeps neither
      `Team1`/`Team2` nor `MatchResults`, so the second pass sees empty teams and no results. */
  lemma RenormalizedMatchLosesTeamsAndGoals(m: map<string, Json>)
    requires MatchRecord(m).Some?
    ensures MatchRecord(MatchRecord(m).value).Some?
    ensures var again := MatchRecord(MatchRecord(m).value).value;
      again["team1"] == JStr("") && again["team2"] == JStr("") && again["goals1"] == JNull && again["goals2"] == JNull
  {
    var once := MatchRecord(m).value;
    RecordKeysAreLowerCase(m);
    assert TeamOf(once, "Team1") == Some(map[]);
    assert TeamOf(once, "Team2") == Some(map[]);
    assert FinalScore(Get(once, "MatchResults", JList([]))) == Some(NoScore);
  }

  /** A match with a named home team and a result: the first pass keeps the name and the goals. */
  lemma NamedMatchRecord(m: map<string, Json>)
    requires m == map["Team1" := JObj(map["TeamName" := JStr("A")]),
                      "MatchResults" := JList([JObj(map["PointsTeam1" := JInt(2)])])]
    ensures MatchRecord(m).Some?
    ensures MatchRecord(m).value["team1"] == JStr("A") && MatchRecord(m).value["goals1"] == JInt(2)
  {
    var results := JList([JObj(map["PointsTeam1" := JInt(2)])]);
    assert Get(m, "MatchResults", JList([])) == results;
    assert FinalScore(results).Some? && FinalScore(results).value.goals1 == JInt(2);
    assert TeamOf(m, "Team2") == Some(map[]);
    var team1 := TeamOf(m, "Team1").value;
    assert Field(team1, "TeamName", "name", JStr("")) == JStr("A");
  }

  /** Hence `normalize_matches` is not idempotent on its own output. */
  lemma MatchesNotIdempotent(m: map<string, Json>)
    requires m == map["Team1" := JObj(map["TeamName" := JStr("A")]),
                      "MatchResults" := JList([JObj(map["PointsTeam1" := JInt(2)])])]
    ensures NormalizedMatches(JList([JObj(m)])).Some?
    ensures NormalizedMatches(NormalizedMatches(JList([JObj(m)])).value) != NormalizedMatches(JList([JObj(m)]))
  {
    NamedMatchRecord(m);
    RenormalizedMatchLosesTeamsAndGoals(m);
    var once := NormalizedMatches(JList([JObj(m)])).value;
    assert once.items[0] == JObj(MatchRecord(m).value);
    var twice := NormalizedMatches(once);
    assert twice.Some? ==> twice.value.items[0] == JObj(MatchRecord(MatchRecord(m).value).value);
  }

  // ---- team ----

  /** `normalize_team(data)`: `{}` for a non-object. */
  function NormalizeTeam(data: Json): (r: Json)
    ensures r.JObj?
    ensures !data.JObj? ==> r.fields == map[]
    ensures data.JObj? ==> r.fields.Keys == {"id", "name", "shortName", "foundedYear", "logo"}
  {
    if !data.JObj? then JObj(map[])
    else
      var d := data.fields;
      JObj(map[
        "id" := Field(d, "TeamId", "id", JNull),
        "name" := Field(d, "TeamName", "name", JStr("")),
        "shortName" := Field(d, "ShortName", "shortName", JNull),
        "foundedYear" := Field(d, "FoundingYear", "foundedYear", JNull),
        "logo" := Field(d, "TeamIconUrl", "logo", JNull)
      ])
  }

  /** On an object, `normalize_team` is idempotent; on anything else it is not, since `{}`
      normalizes to a record of defaults. */
  lemma TeamIdempotent(data: Json)
    ensures data.JObj? ==> NormalizeTeam(NormalizeTeam(data)) == NormalizeTeam(data)
    ensures !data.JObj? ==> NormalizeTeam(NormalizeTeam(data)) != NormalizeTeam(data)
  {
    var out := NormalizeTeam(data);
    if data.JObj? {
      assert "TeamId" !in out.fields && "TeamName" !in out.fields && "ShortName" !in out.fields;
      assert "FoundingYear" !in out.fields && "TeamIconUrl" !in out.fields;
    } else {
      assert "id" in NormalizeTeam(out).fields;
    }
  }

  // ---- single match ----

  /** `normalize_match(data)`: `{}` for a non-object; otherwise the single-match record, which
      adds the team ids and `Location` (read without fallback). */
  function NormalizeMatch(data: Json): (r: Option<Json>)
    ensures !data.JObj? ==> r == Some(JObj(map[]))
    ensures data.JObj? ==> (r.Some? <==> TeamOf(data.fields, "Team1").Some? && TeamOf(data.fields, "Team2").Some?
                                         && FinalScore(Get(data.fields, "MatchResults", JList([]))).Some?)
  {
    if !data.JObj? then Some(JObj(map[]))
    else
      var d := data.fields;
      match (FinalScore(Get(d, "MatchResults", JList([]))), TeamOf(d, "Team1"), TeamOf(d, "Team2"))
      case (Some(score), Some(team1), Some(team2)) =>
        Some(JObj(map[
          "id" := Field(d, "MatchID", "id", JNull),
          "team1" := Field(team1, "TeamName", "name", JStr("")),
          "team1Id" := Field(team1, "TeamId", "id", JNull),
          "team2" := Field(team2, "TeamName", "name", JStr("")),
          "team2Id" := Field(team2, "TeamId", "id", JNull),
          "date" := Field(d, "MatchDateTime", "date", JStr("")),
          "status" := Status(d, score),
          "goals1" := score.goals1,
          "goals2" := score.goals2,
          "result" := score.result,
          "location" := Get(d, "Location", JNull)
        ]))
      case _ => None
  }

  /** A single-match record has the eleven keys: the list record's, the two team ids and the
      location. */
  lemma NormalizeMatchKeys(data: Json)
    requires data.JObj? && NormalizeMatch(data).Some?
    ensures NormalizeMatch(data).value.JObj?
    ensures NormalizeMatch(data).value.fields.Keys ==
      {"id", "team1", "team1Id", "team2", "team2Id", "date", "status", "goals1", "goals2", "result", "location"}
  {
  }

  lemma SingleMatchAgreesOnTeams(m: map<string, Json>)
    requires MatchRecord(m).Some?
    ensures NormalizeMatch(JObj(m)).Some?
    ensures var single := NormalizeMatch(JObj(m)).value.fields; var record := MatchRecord(m).value;
      single["team1"] == record["team1"] && single["team2"] == record["team2"]
  {
    var team1 := TeamOf(m, "Team1").value;
    var team2 := TeamOf(m, "Team2").value;
    assert MatchRecord(m).value["team1"] == Field(team1, "TeamName", "name", JStr(""));
    assert MatchRecord(m).value["team2"] == Field(team2, "TeamName", "name", JStr(""));
  }

  lemma SingleMatchAgreesOnIdAndDate(m: map<string, Json>)
    requires MatchRecord(m).Some?
    ensures NormalizeMatch(JObj(m)).Some?
    ensures var single := NormalizeMatch(JObj(m)).value.fields; var record := MatchRecord(m).value;
      single["id"] == record["id"] && single["date"] == record["date"]
  {
  }

  lemma SingleMatchAgreesOnScore(m: map<string, Json>)
    requires MatchRecord(m).Some?
    ensures NormalizeMatch(JObj(m)).Some?
    ensures var single := NormalizeMatch(JObj(m)).value.fields; var record := MatchRecord(m).value;
      && single["status"] == record["status"] && single["result"] == record["result"]
      && single["goals1"] == record["goals1"] && single["goals2"] == record["goals2"]
  {
  }

  /** The single-match record agrees with the list record on every key the two share. */
  lemma SingleMatchAgreesWithListRecord(m: map<string, Json>)
    requires MatchRecord(m).Some?
    ensures NormalizeMatch(JObj(m)).Some?
    ensures forall k :: k in MatchRecord(m).value ==> NormalizeMatch(JObj(m)).value.fields[k] == MatchRecord(m).value[k]
  {
    SingleMatchAgreesOnIdAndDate(m);
    SingleMatchAgreesOnTeams(m);
    SingleMatchAgreesOnScore(m);
    var single := NormalizeMatch(JObj(m)).value.fields;
    var record := MatchRecord(m).value;
    forall k | k in record
      ensures single[k] == record[k]
    {
      assert k in {"id", "team1", "team2", "date", "status", "goals1", "goals2", "result"};
    }
  }

  // ---- dispatch ----

  /** `normalize_response(operation_type, data)`. */
  function NormalizeResponse(operationType: string, data: Json): Option<Json> {
    if operationType == "ListLeagues" then NormalizedLeagues(data)
    else if operationType == "GetLeagueMatches" then NormalizedMatches(data)
    else if operationType == "GetTeam" then Some(NormalizeTeam(data))
    else if operationType == "GetMatch" then NormalizeMatch(data)
    else Some(data)
  }

  /** Dispatch: a list body of `GetMatch` yields `{}`, a non-list body of the list operations
      yields `[]`, `GetTeam` never raises, and an unknown name passes the data through. */
  lemma NormalizeResponseDispatch(operationType: string, data: Json)
    ensures operationType == "GetMatch" && data.JList? ==> NormalizeResponse(operationType, data) == Some(JObj(map[]))
    ensures (operationType == "ListLeagues" || operationType == "GetLeagueMatches") && !data.JList? ==>
      NormalizeResponse(operationType, data) == Some(JList([]))
    ensures operationType == "GetTeam" ==> NormalizeResponse(operationType, data).Some?
    ensures operationType !in {"ListLeagues", "GetLeagueMatches", "GetTeam", "GetMatch"} ==>
      NormalizeResponse(operationType, data) == Some(data)
  {
  }
}
