/**
 * The in-memory side of the league's repositories: standings records keyed
 * by player, an append-only match history, and an agent's key/value state.
 */
module Repositories {
  import opened Wrappers
  import opened JsonValue
  import opened Ranking
  import Standings

  /** The per-player dictionary `update_player` creates. */
  datatype PlayerRecord = PlayerRecord(playerId: string, points: int, wins: nat, draws: nat, losses: nat, played: nat)

  function ZeroRecord(playerId: string): (r: PlayerRecord)
    ensures r.playerId == playerId && r.points == 0 && r.wins == 0 && r.draws == 0 && r.losses == 0 && r.played == 0
  {
    PlayerRecord(playerId, 0, 0, 0, 0, 0)
  }

  /** One result on a record: WIN adds a win and 3 points, DRAW a draw and 1 point, anything else a loss. */
  function RecordResult(p: PlayerRecord, result: string): (q: PlayerRecord)
    ensures q.playerId == p.playerId && q.played == p.played + 1
    ensures result == "WIN" ==> q == p.(played := p.played + 1, wins := p.wins + 1, points := p.points + 3)
    ensures result == "DRAW" ==> q == p.(played := p.played + 1, draws := p.draws + 1, points := p.points + 1)
    ensures result != "WIN" && result != "DRAW" ==> q == p.(played := p.played + 1, losses := p.losses + 1)
  {
    var p' := p.(played := p.played + 1);
    if result == "WIN" then p'.(wins := p.wins + 1, points := p.points + 3)
    else if result == "DRAW" then p'.(draws := p.draws + 1, points := p.points + 1)
    else p'.(losses := p.losses + 1)
  }

  /** The standings manager's entry for the same counters. */
  function AsStanding(p: PlayerRecord): Standings.PlayerStanding
  {
    Standings.PlayerStanding(p.playerId, JStr(p.playerId), p.points, p.wins, p.draws, p.losses, p.played)
  }

  /** The repository and the standings manager count every result string the same way. */
  lemma SameTally(p: PlayerRecord, result: string)
    ensures AsStanding(RecordResult(p, result)) == Standings.Tally(AsStanding(p), result)
  {
  }

  function RecordKey(p: PlayerRecord): Key
  {
    Key(p.points, p.wins)
  }

  class StandingsRepository {
    /** The keys of `_data["players"]` in insertion order, and the records. */
    var order: seq<string>
    var players: map<string, PlayerRecord>

    predicate Valid()
      reads this
    {
      Distinct(order)
      && (forall id | id in players :: id in order) && (forall id | id in order :: id in players)
      && (forall id | id in players :: players[id].playerId == id)
    }

    constructor()
      ensures Valid() && order == [] && players == map[]
    {
      order := [];
      players := map[];
    }

    /** `update_player`: a zeroed record on first sight, then the result. */
    method UpdatePlayer(playerId: string, result: string)
      requires Valid()
      modifies this
      ensures Valid()
      ensures order == if playerId in old(players) then old(order) else old(order) + [playerId]
      ensures var before := if playerId in old(players) then old(players)[playerId] else ZeroRecord(playerId);
        players == old(players)[playerId := RecordResult(before, result)]
    {
      if playerId !in players {
        players := players[playerId := ZeroRecord(playerId)];
        order := order + [playerId];
      }
      players := players[playerId := RecordResult(players[playerId], result)];
    }

    /** `reset`: unlike the standings manager's reset, every record is removed. */
    method Reset()
      modifies this
      ensures Valid() && order == [] && players == map[]
    {
      order := [];
      players := map[];
    }

    function Records(): (rs: seq<PlayerRecord>)
      requires Valid()
      reads this
      ensures |rs| == |order| && forall i | 0 <= i < |order| :: rs[i] == players[order[i]]
    {
      InOrder(order, players)
    }

    /** `get_standings`: the records stably sorted by (points, wins) descending. */
    function GetStandings(): (rs: seq<PlayerRecord>)
      requires Valid()
      reads this
      ensures |rs| == |order| && multiset(rs) == multiset(Records())
    {
      Sort(Records(), RecordKey)
    }
  }

  /** The repository's table is ranked and keeps tied records in insertion order. */
  lemma RepositoryStandingsRanked(r: StandingsRepository, k: Key)
    requires r.Valid()
    ensures Ranked(r.GetStandings(), RecordKey)
    ensures WithKey(r.GetStandings(), RecordKey, k) == WithKey(r.Records(), RecordKey, k)
  {
    SortRanked(r.Records(), RecordKey);
    SortStable(r.Records(), RecordKey, k);
  }

  /** A stored match is the caller's dictionary; the two lookups go through `.get`. */
  predicate InRound(m: map<string, Json>, roundId: string)
  {
    Get(m, "round_id", JNull) == JStr(roundId)
  }

  predicate Involves(m: map<string, Json>, playerId: string)
  {
    JStr(playerId) == Get(m, "player_a", JNull) || JStr(playerId) == Get(m, "player_b", JNull)
  }

  /** The list comprehension over `matches` keeping one round. */
  function RoundMatches(matches: seq<map<string, Json>>, roundId: string): (r: seq<map<string, Json>>)
    ensures forall m | m in r :: m in matches && InRound(m, roundId)
    ensures forall m | m in matches && InRound(m, roundId) :: multiset(r)[m] == multiset(matches)[m]
  {
    if matches == [] then []
    else
      assert matches == [matches[0]] + matches[1..];
      (if InRound(matches[0], roundId) then [matches[0]] else []) + RoundMatches(matches[1..], roundId)
  }

  /** The list comprehension keeping the matches a player is in. */
  function PlayerMatches(matches: seq<map<string, Json>>, playerId: string): (r: seq<map<string, Json>>)
    ensures forall m | m in r :: m in matches && Involves(m, playerId)
    ensures forall m | m in matches && Involves(m, playerId) :: multiset(r)[m] == multiset(matches)[m]
  {
    if matches == [] then []
    else
      assert matches == [matches[0]] + matches[1..];
      (if Involves(matches[0], playerId) then [matches[0]] else []) + PlayerMatches(matches[1..], playerId)
  }

  /** Filtering keeps the order: the filter of a concatenation is the concatenation of the filters. */
  lemma {:induction false} RoundMatchesAppend(a: seq<map<string, Json>>, b: seq<map<string, Json>>, roundId: string)
    ensures RoundMatches(a + b, roundId) == RoundMatches(a, roundId) + RoundMatches(b, roundId)
  {
    if a != [] {
      RoundMatchesAppend(a[1..], b, roundId);
      assert (a + b)[1..] == a[1..] + b;
    } else {
      assert a + b == b;
    }
  }

  lemma {:induction false} PlayerMatchesAppend(a: seq<map<string, Json>>, b: seq<map<string, Json>>, playerId: string)
    ensures PlayerMatches(a + b, playerId) == PlayerMatches(a, playerId) + PlayerMatches(b, playerId)
  {
    if a != [] {
      PlayerMatchesAppend(a[1..], b, playerId);
      assert (a + b)[1..] == a[1..] + b;
    } else {
      assert a + b == b;
    }
  }

  class MatchRepository {
    var matches: seq<map<string, Json>>

    constructor()
      ensures matches == []
    {
      matches := [];
    }

    /** `add_match`: stamps `recorded_at` (the clock is the parameter) and appends. */
    method AddMatch(matchData: map<string, Json>, recordedAt: string)
      modifies this
      ensures matches == old(matches) + [matchData["recorded_at" := JStr(recordedAt)]]
    {
      matches := matches + [matchData["recorded_at" := JStr(recordedAt)]];
    }

    /** `get_matches`: a falsy round id (None or "") returns every match. */
    function GetMatches(roundId: Option<string>): (r: seq<map<string, Json>>)
      reads this
      ensures roundId.None? || roundId == Some("") ==> r == matches
      ensures roundId.Some? && roundId.value != "" ==> r == RoundMatches(matches, roundId.value)
    {
      if roundId.Some? && roundId.value != "" then RoundMatches(matches, roundId.value) else matches
    }

    /** `get_player_history`. */
    function GetPlayerHistory(playerId: string): (r: seq<map<string, Json>>)
      reads this
      ensures forall m | m in r :: m in matches && Involves(m, playerId)
      ensures forall m | m in matches && Involves(m, playerId) :: multiset(r)[m] == multiset(matches)[m]
    {
      PlayerMatches(matches, playerId)
    }
  }

  class StateRepository {
    var data: map<string, Json>

    constructor()
      ensures data == map[]
    {
      data := map[];
    }

    /** `get(key, default)`. */
    function GetValue(key: string, default: Json): (v: Json)
      reads this
      ensures key in data ==> v == data[key]
      ensures key !in data ==> v == default
    {
      Get(data, key, default)
    }

    /** `set`: afterwards `get` of that key returns the value, whatever the default. */
    method SetValue(key: string, value: Json)
      modifies this
      ensures data == old(data)[key := value]
      ensures forall d :: GetValue(key, d) == value
    {
      data := data[key := value];
    }

    /** `get_all`: a copy of the whole state. */
    function GetAll(): (m: map<string, Json>)
      reads this
      ensures m == data
    {
      data
    }
  }
}
