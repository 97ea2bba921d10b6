// The league manager agent: player and referee registration, result reports,
// league queries and the start of the league and of its rounds.

module LeagueManagerAgent {
  import opened Wrappers
  import opened JsonValue
  import opened Text
  import Helpers
  import McpServer
  import Standings
  import Ranking
  import LeagueScheduler

  /** The handler slots of the four message types the manager serves. */
  const PlayerRegistrationHandler: nat := 0
  const RefereeRegistrationHandler: nat := 1
  const MatchResultHandler: nat := 2
  const QueryHandler: nat := 3

  const PlayerPrefix := "P"
  const RefereePrefix := "REF"

  /** The ids a counter has handed out after `n` registrations, in order: `prefix + Pad2(1)`, ... */
  function Ids(prefix: string, n: nat): (ids: seq<string>)
    ensures |ids| == n
  {
    if n == 0 then [] else Ids(prefix, n - 1) + [prefix + Pad2(n)]
  }

  /** The i-th id handed out carries the number i + 1. */
  lemma {:induction false} IdsAt(prefix: string, n: nat, i: nat)
    requires i < n
    ensures Ids(prefix, n)[i] == prefix + Pad2(i + 1)
  {
    var before := Ids(prefix, n - 1);
    var last := prefix + Pad2(n);
    assert Ids(prefix, n) == before + [last];
    if i < n - 1 {
      IdsAt(prefix, n - 1, i);
      assert (before + [last])[i] == before[i];
    } else {
      assert (before + [last])[|before|] == last;
    }
  }

  /** A number not handed out yet names no id in the list. */
  lemma {:induction false} IdsBelow(prefix: string, n: nat, m: nat)
    requires n < m
    ensures prefix + Pad2(m) !in Ids(prefix, n)
  {
    if n > 0 {
      IdsBelow(prefix, n - 1, m);
      PrefixedPad2Injective(prefix, n, m);
    }
  }

  /** The ids a counter hands out never repeat. */
  lemma {:induction false} IdsDistinct(prefix: string, n: nat)
    ensures Ranking.Distinct(Ids(prefix, n))
  {
    if n > 0 {
      var before := Ids(prefix, n - 1);
      var ids := Ids(prefix, n);
      IdsDistinct(prefix, n - 1);
      IdsBelow(prefix, n - 1, n);
      forall i, j | 0 <= i < j < n ensures ids[i] != ids[j] {
        assert ids[i] == before[i];
        if j < n - 1 {
          assert ids[j] == before[j];
        }
      }
    }
  }

  /**
   * A registry filled only by a counter: `registered_players` with
   * `player_counter`, or the referee pair; `order` is the dictionary's key order.
   */
  datatype Roster = Roster(order: seq<string>, records: map<string, map<string, Json>>, counter: nat)
  {
    /** It holds exactly the ids handed out, listed in the order they were handed out. */
    ghost predicate Valid(prefix: string)
    {
      order == Ids(prefix, counter) && forall id :: id in records <==> id in order
    }

    /**
     * `f"{prefix}{counter:02d}"` after the counter moves on: the next id the
     * counter hands out, which no registered player holds yet.
     */
    function NextId(prefix: string): (id: string)
      ensures id == Ids(prefix, counter + 1)[counter]
      ensures Valid(prefix) ==> id !in records
    {
      IdsBelow(prefix, counter, counter + 1);
      prefix + Pad2(counter + 1)
    }

    /** The counter moves on and the new id gets `record`. */
    function Admit(prefix: string, record: map<string, Json>): Roster
    {
      Roster(order + [NextId(prefix)], records[NextId(prefix) := record], counter + 1)
    }
  }

  /** The registry has exactly `counter` entries, one per id handed out. */
  lemma RosterSize(roster: Roster, prefix: string)
    requires roster.Valid(prefix)
    ensures Ranking.Distinct(roster.order)
    ensures |roster.records| == roster.counter
  {
    IdsDistinct(prefix, roster.counter);
    Standings.KeysCount(roster.order, roster.records.Keys);
  }

  /** Admitting keeps the registry's shape, and the id it hands out was not registered before. */
  lemma AdmitKeepsValid(roster: Roster, prefix: string, record: map<string, Json>)
    requires roster.Valid(prefix)
    ensures roster.NextId(prefix) !in roster.records
    ensures roster.Admit(prefix, record).Valid(prefix)
  {
    IdsBelow(prefix, roster.counter, roster.counter + 1);
  }

  /** The record `handle_player_registration` stores. */
  function PlayerRecord(playerId: string, meta: Json, token: string): (rec: map<string, Json>)
    requires meta.JObj?
    ensures rec.Keys == {"player_id", "display_name", "endpoint", "auth_token", "meta"}
    ensures rec["display_name"] == Get(meta.fields, "display_name", JStr("Unknown"))
    ensures rec["endpoint"] == Get(meta.fields, "contact_endpoint", JNull)
  {
    map["player_id" := JStr(playerId),
        "display_name" := Get(meta.fields, "display_name", JStr("Unknown")),
        "endpoint" := Get(meta.fields, "contact_endpoint", JNull),
        "auth_token" := JStr(token),
        "meta" := meta]
  }

  /** The record `handle_referee_registration` stores. */
  function RefereeRecord(refereeId: string, meta: Json, token: string): (rec: map<string, Json>)
    requires meta.JObj?
    ensures rec.Keys == {"referee_id", "endpoint", "auth_token", "meta"}
    ensures rec["endpoint"] == Get(meta.fields, "contact_endpoint", JNull)
  {
    map["referee_id" := JStr(refereeId),
        "endpoint" := Get(meta.fields, "contact_endpoint", JNull),
        "auth_token" := JStr(token),
        "meta" := meta]
  }

  /**
   * A result as `update_result` sees it: a string is itself; None, a bool or a
   * number is no key of the scoring table and equals neither "WIN" nor "DRAW",
   * exactly as the empty string; a list or a dictionary cannot be looked up.
   */
  function ResultText(j: Json): (r: Option<string>)
    ensures r.None? <==> j.JArr? || j.JObj?
    ensures j.JStr? ==> r == Some(j.s)
    ensures r.Some? && !j.JStr? ==> Standings.Score(r.value) == 0 && r.value != "WIN" && r.value != "DRAW"
  {
    match j
    case JStr(s) => Some(s)
    case JArr(_) => None
    case JObj(_) => None
    case _ => Some("")
  }

  /**
   * The player named by a query's `sender`: the text after the last ':' when
   * there is one and it is not empty. A list holding ":" or a dictionary with
   * key ":" has no `split`, and None, a bool or a number cannot be searched.
   */
  function SenderPlayer(sender: Json): (r: Result<Option<string>, string>)
    ensures sender.JStr? ==> r.Ok?
    ensures r.Ok? && r.value.Some? ==> sender.JStr? && ':' in sender.s && r.value.value != ""
                                       && ':' !in r.value.value
                                       && exists h :: sender.s == h + [':'] + r.value.value
    ensures sender.JStr? && ':' in sender.s && AfterLast(sender.s, ':') != "" ==> r == Ok(Some(AfterLast(sender.s, ':')))
  {
    match sender
    case JStr(s) =>
      if ':' in s then
        var p := AfterLast(s, ':');
        if p != "" then Ok(Some(p)) else Ok(None)
      else Ok(None)
    case JArr(items) => if JStr(":") in items then Err("AttributeError: 'list' object has no attribute 'split'") else Ok(None)
    case JObj(fields) => if ":" in fields then Err("AttributeError: 'dict' object has no attribute 'split'") else Ok(None)
    case _ => Err("TypeError: argument is not iterable")
  }

  /** The match ids `start_round` hands to a registered referee, in round order. */
  function Notified(round: seq<LeagueScheduler.Match>, referees: map<string, map<string, Json>>): (ids: seq<string>)
    ensures |ids| <= |round|
    ensures forall id | id in ids :: exists k | 0 <= k < |round| :: round[k].matchId == id
  {
    if round == [] then []
    else
      var m := round[|round| - 1];
      var before := Notified(round[..|round| - 1], referees);
      if m.referee.Some? && m.referee.value in referees then before + [m.matchId] else before
  }

  function MatchIds(round: seq<LeagueScheduler.Match>): (ids: seq<string>)
    ensures |ids| == |round| && forall k | 0 <= k < |round| :: ids[k] == round[k].matchId
  {
    if round == [] then [] else MatchIds(round[..|round| - 1]) + [round[|round| - 1].matchId]
  }

  /** When every match has a registered referee, every match is announced. */
  lemma {:induction false} AllNotified(round: seq<LeagueScheduler.Match>, referees: map<string, map<string, Json>>)
    requires forall k | 0 <= k < |round| :: round[k].referee.Some? && round[k].referee.value in referees
    ensures Notified(round, referees) == MatchIds(round)
  {
    if round != [] {
      AllNotified(round[..|round| - 1], referees);
    }
  }

  /** The query types `handle_query` tells apart. */
  datatype QueryKind = StandingsQuery | ScheduleQuery | StatsQuery | NextMatchQuery | OtherQuery

  function KindOf(q: Json): (kind: QueryKind)
    ensures kind == StandingsQuery <==> q == JStr("standings")
    ensures kind == ScheduleQuery <==> q == JStr("schedule")
    ensures kind == StatsQuery <==> q == JStr("stats")
    ensures kind == NextMatchQuery <==> q == JStr("next_match")
  {
    if q == JStr("standings") then StandingsQuery
    else if q == JStr("schedule") then ScheduleQuery
    else if q == JStr("stats") then StatsQuery
    else if q == JStr("next_match") then NextMatchQuery
    else OtherQuery
  }

  /**
   * The keyword arguments of a handler's `build_response`: the handler's own
   * fields and `conversation_id=params.get("conversation_id")`.
   */
  function ReplyKwargs(params: map<string, Json>, fields: map<string, Json>): (k: map<string, Json>)
    ensures k.Keys == fields.Keys + {"conversation_id"}
    ensures k["conversation_id"] == Get(params, "conversation_id", JNull)
    ensures forall f | f in fields && f != "conversation_id" :: k[f] == fields[f]
  {
    fields["conversation_id" := Get(params, "conversation_id", JNull)]
  }

  /** Reply fields that do not name `build_response`'s own parameters stay clear of them once the conversation id is added. */
  lemma ReplyKwargsUnbound(params: map<string, Json>, fields: map<string, Json>)
    requires "self" !in fields && "message_type" !in fields
    ensures ReplyKwargs(params, fields).Keys !! McpServer.ResponseParameters
  {
  }

  /** The keyword arguments of a registration response. */
  function RegisteredKwargs(params: map<string, Json>, idKey: string, id: string, token: string): map<string, Json>
  {
    ReplyKwargs(params, map["status" := JStr("REGISTERED"), idKey := JStr(id), "auth_token" := JStr(token)])
  }

  /**
   * Every handler passes the request's `conversation_id` on, so a request
   * without one is answered with a null conversation id rather than a fresh one.
   */
  lemma ConversationEchoed(s: McpServer.Server, messageType: string, params: map<string, Json>, fields: map<string, Json>,
                           now: Helpers.DateTime, uuid: string)
    requires now.Valid()
    requires "self" !in fields && "message_type" !in fields
    ensures s.BuildResponse(messageType, ReplyKwargs(params, fields), now, uuid).Ok?
    ensures s.BuildResponse(messageType, ReplyKwargs(params, fields), now, uuid).value["conversation_id"]
            == Get(params, "conversation_id", JNull)
    ensures "conversation_id" !in params ==>
            s.BuildResponse(messageType, ReplyKwargs(params, fields), now, uuid).value["conversation_id"] == JNull
  {
  }

  /** The `data` of a next-match query: `{"match": ...}` for a named player, else `{}`. */
  /** The next-match data of a query, found by the scheduler's loop. */
  method NextMatchLookup(scheduler: LeagueScheduler.Scheduler, player: Option<string>) returns (data: Json)
    ensures data == NextMatchData(scheduler.schedule, scheduler.currentRound, player)
  {
    data := JObj(map[]);
    if player.Some? {
      var next := scheduler.GetPlayerNextMatch(player.value);
      data := JObj(map["match" := if next.Some? then LeagueScheduler.MatchJson(next.value) else JNull]);
    }
  }

  function NextMatchData(schedule: seq<seq<LeagueScheduler.Match>>, current: nat, player: Option<string>): (j: Json)
    ensures j.JObj? && (player.None? ==> j.fields == map[])
    ensures player.Some? ==>
      var next := LeagueScheduler.NextMatchFrom(schedule, current, player.value);
      j.fields.Keys == {"match"}
      && j.fields["match"] == if next.Some? then LeagueScheduler.MatchJson(next.value) else JNull
  {
    if player.None? then JObj(map[])
    else
      var next := LeagueScheduler.NextMatchFrom(schedule, current, player.value);
      JObj(map["match" := if next.Some? then LeagueScheduler.MatchJson(next.value) else JNull])
  }

  /**
   * What a result report does to the standings (`order`, `entries`), and
   * whether it is accepted: player A's result is counted, then player B's. A
   * player id that is not a string stops the report before its half; a string
   * id with a list or dictionary result is registered and gets one more game
   * played before the scoring lookup raises, which stops the report there.
   */
  function ReportSpec(order: seq<string>, entries: map<string, Standings.PlayerStanding>, params: map<string, Json>)
    : (out: (bool, seq<string>, map<string, Standings.PlayerStanding>))
    ensures out.0 <==> Get(params, "player_a_id", JNull).JStr? && ResultText(Get(params, "player_a_result", JNull)).Some?
                       && Get(params, "player_b_id", JNull).JStr? && ResultText(Get(params, "player_b_result", JNull)).Some?
  {
    var aId, aRes := Get(params, "player_a_id", JNull), ResultText(Get(params, "player_a_result", JNull));
    var bId, bRes := Get(params, "player_b_id", JNull), ResultText(Get(params, "player_b_result", JNull));
    if !aId.JStr? then (false, order, entries)
    else if aRes.None? then
      var bumped := Standings.BumpSpec(order, entries, aId.s);
      (false, bumped.0, bumped.1)
    else
      var afterA := Standings.UpdateSpec(order, entries, aId.s, aRes.value);
      if !bId.JStr? then (false, afterA.0, afterA.1)
      else if bRes.None? then
        var bumped := Standings.BumpSpec(afterA.0, afterA.1, bId.s);
        (false, bumped.0, bumped.1)
      else
        var afterB := Standings.UpdateSpec(afterA.0, afterA.1, bId.s, bRes.value);
        (true, afterB.0, afterB.1)
  }

  /**
   * A report keeps the standings keyed and adds one game played per half it
   * reaches; a bad player A id changes nothing. The counters stay consistent
   * exactly when no string id reached comes with a list or dictionary result.
   */
  lemma ReportKeepsTable(order: seq<string>, entries: map<string, Standings.PlayerStanding>, params: map<string, Json>)
    requires Standings.Table(order, entries)
    ensures var out := ReportSpec(order, entries, params);
      var aId, aRes := Get(params, "player_a_id", JNull), ResultText(Get(params, "player_a_result", JNull));
      var bId, bRes := Get(params, "player_b_id", JNull), ResultText(Get(params, "player_b_result", JNull));
      && Standings.Keyed(out.1, out.2)
      && (out.0 ==> Standings.SumPlayed(out.1, out.2) == Standings.SumPlayed(order, entries) + 2)
      && (!aId.JStr? ==> out == (false, order, entries))
      && (aId.JStr? && aRes.None? ==> Standings.SumPlayed(out.1, out.2) == Standings.SumPlayed(order, entries) + 1)
      && (Standings.Table(out.1, out.2) <==>
            !(aId.JStr? && aRes.None?) && !(aId.JStr? && aRes.Some? && bId.JStr? && bRes.None?))
  {
    var aId, aRes := Get(params, "player_a_id", JNull), ResultText(Get(params, "player_a_result", JNull));
    if aId.JStr? && aRes.None? {
      Standings.BumpBreaksConsistency(order, entries, aId.s);
    } else if aId.JStr? {
      Standings.UpdateSpecFacts(order, entries, aId.s, aRes.value);
      var afterA := Standings.UpdateSpec(order, entries, aId.s, aRes.value);
      var bId, bRes := Get(params, "player_b_id", JNull), ResultText(Get(params, "player_b_result", JNull));
      if bId.JStr? && bRes.Some? {
        Standings.UpdateSpecFacts(afterA.0, afterA.1, bId.s, bRes.value);
      } else if bId.JStr? {
        Standings.BumpBreaksConsistency(afterA.0, afterA.1, bId.s);
      }
    }
  }

  /** The two `update_result` calls of `handle_match_result`, stopping where the first one raises. */
  method ApplyReport(st: Standings.StandingsManager, params: map<string, Json>) returns (accepted: bool)
    requires st.Valid()
    modifies st
    ensures st.Valid()
    ensures (accepted, st.order, st.standings) == ReportSpec(old(st.order), old(st.standings), params)
    ensures accepted ==> Standings.SumPlayed(st.order, st.standings) == old(Standings.SumPlayed(st.order, st.standings)) + 2
  {
    var aId := Get(params, "player_a_id", JNull);
    var aRes := ResultText(Get(params, "player_a_result", JNull));
    if !aId.JStr? {
      return false;
    }
    if aRes.None? {
      st.UpdateResultUnhashable(aId.s);
      return false;
    }
    st.UpdateResult(aId.s, aRes.value);
    var bId := Get(params, "player_b_id", JNull);
    var bRes := ResultText(Get(params, "player_b_result", JNull));
    if !bId.JStr? {
      return false;
    }
    if bRes.None? {
      st.UpdateResultUnhashable(bId.s);
      return false;
    }
    st.UpdateResult(bId.s, bRes.value);
    accepted := true;
  }

  /** The manager's MCP server: sender `manager:MANAGER` and its four handlers. */
  method NewManagerServer() returns (s: McpServer.Server)
    ensures fresh(s)
    ensures s.sender == "manager:MANAGER"
    ensures s.handlers == map["LEAGUE_REGISTER_REQUEST" := PlayerRegistrationHandler,
                              "REFEREE_REGISTER_REQUEST" := RefereeRegistrationHandler,
                              "MATCH_RESULT_REPORT" := MatchResultHandler,
                              "LEAGUE_QUERY" := QueryHandler]
  {
    s := new McpServer.Server("manager", "MANAGER", true, 100);
    assert "manager" + ":" + "MANAGER" == "manager:MANAGER";
    s.RegisterHandler("LEAGUE_REGISTER_REQUEST", PlayerRegistrationHandler);
    s.RegisterHandler("REFEREE_REGISTER_REQUEST", RefereeRegistrationHandler);
    s.RegisterHandler("MATCH_RESULT_REPORT", MatchResultHandler);
    s.RegisterHandler("LEAGUE_QUERY", QueryHandler);
  }

  /** The manager agent's state. */
  class LeagueManager {
    const server: McpServer.Server
    const standings: Standings.StandingsManager
    const scheduler: LeagueScheduler.Scheduler
    var players: Roster
    var referees: Roster
    var leagueStarted: bool

    ghost predicate Valid()
      reads this, standings
    {
      standings.Valid()
      && players.Valid(PlayerPrefix) && referees.Valid(RefereePrefix)
    }

    /** `LeagueManager()`: empty registries, a fresh scheduler and standings, four handlers. */
    constructor()
      ensures Valid() && fresh(standings) && fresh(scheduler) && fresh(server)
      ensures players == Roster([], map[], 0) && referees == Roster([], map[], 0) && !leagueStarted
      ensures standings.order == [] && scheduler.schedule == [] && scheduler.currentRound == 0
      ensures server.sender == "manager:MANAGER"
      ensures server.handlers == map["LEAGUE_REGISTER_REQUEST" := PlayerRegistrationHandler,
                                     "REFEREE_REGISTER_REQUEST" := RefereeRegistrationHandler,
                                     "MATCH_RESULT_REPORT" := MatchResultHandler,
                                     "LEAGUE_QUERY" := QueryHandler]
    {
      var s := NewManagerServer();
      server := s;
      standings := new Standings.StandingsManager();
      scheduler := new LeagueScheduler.Scheduler();
      players := Roster([], map[], 0);
      referees := Roster([], map[], 0);
      leagueStarted := false;
    }

    /** Lines 38-49 of the player registration: the next id and its record. */
    method AdmitPlayer(meta: Json, token: string) returns (id: string)
      requires meta.JObj? && players.Valid(PlayerPrefix)
      modifies this
      ensures id == old(players).NextId(PlayerPrefix) && id !in old(players.records)
      ensures players == old(players).Admit(PlayerPrefix, PlayerRecord(id, meta, token)) && players.Valid(PlayerPrefix)
      ensures referees == old(referees) && leagueStarted == old(leagueStarted)
    {
      id := players.NextId(PlayerPrefix);
      AdmitKeepsValid(players, PlayerPrefix, PlayerRecord(id, meta, token));
      players := players.Admit(PlayerPrefix, PlayerRecord(id, meta, token));
    }

    /** Lines 77-87 of the referee registration: the next id and its record. */
    method AdmitReferee(meta: Json, token: string) returns (id: string)
      requires meta.JObj? && referees.Valid(RefereePrefix)
      modifies this
      ensures id == old(referees).NextId(RefereePrefix) && id !in old(referees.records)
      ensures referees == old(referees).Admit(RefereePrefix, RefereeRecord(id, meta, token)) && referees.Valid(RefereePrefix)
      ensures players == old(players) && leagueStarted == old(leagueStarted)
    {
      id := referees.NextId(RefereePrefix);
      AdmitKeepsValid(referees, RefereePrefix, RefereeRecord(id, meta, token));
      referees := referees.Admit(RefereePrefix, RefereeRecord(id, meta, token));
    }

    /**
     * `handle_player_registration` with the freshly generated token `token`:
     * the next id, its record, a standings entry and the response. A
     * `player_meta` that is not a dictionary has no `get`: nothing changes.
     */
    method HandlePlayerRegistration(params: map<string, Json>, token: string, now: Helpers.DateTime, uuid: string)
      returns (r: Result<map<string, Json>, string>)
      requires Valid() && now.Valid()
      modifies this, standings
      ensures Valid()
      ensures r.Err? <==> !Get(params, "player_meta", JObj(map[])).JObj?
      ensures r.Err? ==> unchanged(this) && unchanged(standings)
      ensures r.Ok? ==>
        var meta := Get(params, "player_meta", JObj(map[]));
        var id := old(players).NextId(PlayerPrefix);
        && id !in old(players.records)
        && players == old(players).Admit(PlayerPrefix, PlayerRecord(id, meta, token))
        && referees == old(referees) && leagueStarted == old(leagueStarted)
        && (standings.order, standings.standings)
           == Standings.RegisterSpec(old(standings.order), old(standings.standings), id, Get(meta.fields, "display_name", JStr("Unknown")))
        && r == server.BuildResponse("LEAGUE_REGISTER_RESPONSE", RegisteredKwargs(params, "player_id", id, token), now, uuid)
    {
      var meta := Get(params, "player_meta", JObj(map[]));
      if !meta.JObj? {
        return Err("AttributeError: 'player_meta' has no attribute 'get'");
      }
      var displayName := Get(meta.fields, "display_name", JStr("Unknown"));
      var id := AdmitPlayer(meta, token);
      standings.RegisterPlayer(id, displayName);
      ReplyKwargsUnbound(params, map["status" := JStr("REGISTERED"), "player_id" := JStr(id), "auth_token" := JStr(token)]);
      r := server.BuildResponse("LEAGUE_REGISTER_RESPONSE", RegisteredKwargs(params, "player_id", id, token), now, uuid);
    }

    /** `handle_referee_registration`: the referee counterpart, without a standings entry. */
    method HandleRefereeRegistration(params: map<string, Json>, token: string, now: Helpers.DateTime, uuid: string)
      returns (r: Result<map<string, Json>, string>)
      requires Valid() && now.Valid()
      modifies this
      ensures Valid()
      ensures r.Err? <==> !Get(params, "referee_meta", JObj(map[])).JObj?
      ensures r.Err? ==> unchanged(this)
      ensures r.Ok? ==>
        var meta := Get(params, "referee_meta", JObj(map[]));
        var id := old(referees).NextId(RefereePrefix);
        && id !in old(referees.records)
        && referees == old(referees).Admit(RefereePrefix, RefereeRecord(id, meta, token))
        && players == old(players) && leagueStarted == old(leagueStarted)
        && r == server.BuildResponse("REFEREE_REGISTER_RESPONSE", RegisteredKwargs(params, "referee_id", id, token), now, uuid)
    {
      var meta := Get(params, "referee_meta", JObj(map[]));
      if !meta.JObj? {
        return Err("AttributeError: 'referee_meta' has no attribute 'get'");
      }
      var id := AdmitReferee(meta, token);
      ReplyKwargsUnbound(params, map["status" := JStr("REGISTERED"), "referee_id" := JStr(id), "auth_token" := JStr(token)]);
      r := server.BuildResponse("REFEREE_REGISTER_RESPONSE", RegisteredKwargs(params, "referee_id", id, token), now, uuid);
    }

    /**
     * `handle_match_result`: the standings move as `ReportSpec` says and an
     * accepted report is answered `{"status": "ACCEPTED"}`; every accepted
     * report adds one match to the standings' match count.
     */
    method HandleMatchResult(params: map<string, Json>) returns (r: Result<map<string, Json>, string>)
      requires Valid()
      modifies standings
      ensures Valid()
      ensures (r.Ok?, standings.order, standings.standings) == ReportSpec(old(standings.order), old(standings.standings), params)
      ensures r.Ok? ==> r.value == map["status" := JStr("ACCEPTED")]
      ensures r.Ok? ==> standings.GetStats().totalMatchesPlayed == old(standings.GetStats().totalMatchesPlayed) + 1
    {
      var accepted := ApplyReport(standings, params);
      r := if accepted then Ok(map["status" := JStr("ACCEPTED")])
           else Err("a player id that is not a string, or a result that cannot be a dictionary key");
    }

    /**
     * The `data` of `handle_query` by `query_type`; an unknown type, or a
     * next-match query without a player, gives `{}`.
     */
    function QueryData(params: map<string, Json>): (r: Result<Json, string>)
      requires Valid()
      reads this, standings, scheduler
      ensures var kind := KindOf(Get(params, "query_type", JNull));
        && (r.Err? <==> kind == NextMatchQuery && SenderPlayer(Get(params, "sender", JStr(""))).Err?)
        && (kind == StandingsQuery ==> r == Ok(JObj(map["standings" := JArr(Standings.RowsJson(standings.GetStandings()))])))
        && (kind == ScheduleQuery ==> r == Ok(scheduler.GetScheduleSummary()))
        && (kind == StatsQuery ==> r == Ok(Standings.StatsJson(standings.GetStats())))
        && (kind == NextMatchQuery && r.Ok? ==>
              r.value == NextMatchData(scheduler.schedule, scheduler.currentRound, SenderPlayer(Get(params, "sender", JStr(""))).value))
        && (kind == OtherQuery ==> r == Ok(JObj(map[])))
    {
      match KindOf(Get(params, "query_type", JNull))
      case StandingsQuery => Ok(JObj(map["standings" := JArr(Standings.RowsJson(standings.GetStandings()))]))
      case ScheduleQuery => Ok(scheduler.GetScheduleSummary())
      case StatsQuery => Ok(Standings.StatsJson(standings.GetStats()))
      case NextMatchQuery =>
        (match SenderPlayer(Get(params, "sender", JStr("")))
         case Err(e) => Err(e)
         case Ok(player) => Ok(NextMatchData(scheduler.schedule, scheduler.currentRound, player)))
      case OtherQuery => Ok(JObj(map[]))
    }

    /**
     * `handle_query`: the response carries the query type and its data; the
     * next match is found by the scheduler's loop.
     */
    method HandleQuery(params: map<string, Json>, now: Helpers.DateTime, uuid: string)
      returns (r: Result<map<string, Json>, string>)
      requires Valid() && now.Valid()
      ensures r.Err? <==> QueryData(params).Err?
      ensures r.Ok? ==>
        r == server.BuildResponse("LEAGUE_QUERY_RESPONSE",
                     ReplyKwargs(params, map["query_type" := Get(params, "query_type", JNull), "data" := QueryData(params).value]),
                     now, uuid)
    {
      var q := Get(params, "query_type", JNull);
      var data: Json;
      if KindOf(q) == NextMatchQuery {
        var player := SenderPlayer(Get(params, "sender", JStr("")));
        if player.Err? {
          return Err(player.error);
        }
        data := NextMatchLookup(scheduler, player.value);
      } else {
        data := QueryData(params).value;
      }
      assert data == QueryData(params).value;
      ReplyKwargsUnbound(params, map["query_type" := q, "data" := data]);
      r := server.BuildResponse("LEAGUE_QUERY_RESPONSE", ReplyKwargs(params, map["query_type" := q, "data" := data]), now, uuid);
    }

    /**
     * `start_round`: referees are assigned over the whole schedule, then
     * `notify_referee_start_match` runs for each match of the current round,
     * in order. It only logs, and only for a match whose referee is
     * registered; `notified` lists those matches. No current round, or an
     * empty one, completes the league.
     */
    method StartRound() returns (completed: bool, notified: seq<string>)
      requires Valid()
      modifies scheduler
      ensures scheduler.currentRound == old(scheduler.currentRound) && scheduler.playerIds == old(scheduler.playerIds)
      ensures referees.order == [] ==> scheduler.schedule == old(scheduler.schedule)
      ensures referees.order != [] ==> LeagueScheduler.Refereed(old(scheduler.schedule), scheduler.schedule, referees.order)
      ensures completed <==> scheduler.GetCurrentRound().None? || scheduler.GetCurrentRound().value == []
      ensures completed ==> notified == []
      ensures !completed ==> notified == Notified(scheduler.schedule[scheduler.currentRound], referees.records)
      ensures !completed && referees.order != [] ==> notified == MatchIds(scheduler.schedule[scheduler.currentRound])
    {
      scheduler.AssignReferees(referees.order);
      var current := scheduler.GetCurrentRound();
      if current.None? || current.value == [] {
        return true, [];
      }
      var round := current.value;
      completed := false;
      notified := [];
      var k := 0;
      while k < |round|
        invariant 0 <= k <= |round|
        invariant notified == Notified(round[..k], referees.records)
      {
        assert round[..k + 1][..k] == round[..k];
        var m := round[k];
        if m.referee.Some? && m.referee.value in referees.records {
          notified := notified + [m.matchId];
        }
        k := k + 1;
      }
      assert round[..|round|] == round;
      if referees.order != [] {
        var r := scheduler.currentRound;
        forall k | 0 <= k < |round|
          ensures round[k].referee.Some? && round[k].referee.value in referees.records
        {
          LeagueScheduler.RefereedMatch(old(scheduler.schedule), scheduler.schedule, referees.order, r, k);
        }
        AllNotified(round, referees.records);
      }
    }

    /** `start_league`: only once; schedules the registered players and starts the first round. */
    method StartLeague() returns (completed: bool, notified: seq<string>)
      requires Valid()
      modifies this, scheduler
      ensures Valid() && leagueStarted
      ensures players == old(players) && referees == old(referees)
      ensures old(leagueStarted) ==> unchanged(scheduler) && !completed && notified == []
      ensures !old(leagueStarted) ==>
        scheduler.playerIds == players.order && scheduler.currentRound == 0
        && (referees.order == [] ==> scheduler.schedule == LeagueScheduler.Schedule(players.order))
        && (referees.order != [] ==> LeagueScheduler.Refereed(LeagueScheduler.Schedule(players.order), scheduler.schedule, referees.order))
        && (completed <==> |players.order| < 2)
        && (!completed && referees.order != [] ==> notified == MatchIds(scheduler.schedule[0]))
    {
      if leagueStarted {
        return false, [];
      }
      leagueStarted := true;
      var _ := scheduler.GenerateSchedule(players.order);
      LeagueScheduler.ScheduleNonEmpty(players.order);
      if |players.order| >= 2 {
        LeagueScheduler.ScheduledRoundsNonEmpty(players.order, 0);
      }
      completed, notified := StartRound();
    }

    /**
     * `check_and_start_league` with the configured thresholds: the league
     * starts once enough players and referees are registered, and only once.
     */
    method CheckAndStartLeague(minPlayers: int, minReferees: int) returns (started: bool)
      requires Valid()
      modifies this, scheduler
      ensures Valid()
      ensures started <==> players.counter >= minPlayers && referees.counter >= minReferees && !old(leagueStarted)
      ensures started ==> leagueStarted && scheduler.playerIds == players.order && scheduler.currentRound == 0
      ensures started ==> players == old(players) && referees == old(referees)
      ensures started && referees.order == [] ==> scheduler.schedule == LeagueScheduler.Schedule(players.order)
      ensures started && referees.order != [] ==>
        LeagueScheduler.Refereed(LeagueScheduler.Schedule(players.order), scheduler.schedule, referees.order)
      ensures !started ==> unchanged(this) && unchanged(scheduler)
    {
      RosterSize(players, PlayerPrefix);
      RosterSize(referees, RefereePrefix);
      started := |players.records| >= minPlayers && |referees.records| >= minReferees && !leagueStarted;
      if started {
        var _, _ := StartLeague();
      }
    }
  }
}
