/**
 * The league manager's standings table: one counter record per player,
 * bumped by each reported result, and the ranked table built from them.
 */
module Standings {
  import opened Wrappers
  import opened JsonValue
  import opened Ranking

  /** `PlayerStanding`. */
  datatype PlayerStanding = PlayerStanding(
    playerId: string, displayName: Json,
    points: int, wins: nat, draws: nat, losses: nat, played: nat)

  /** `scoring.get(result, 0)`: WIN 3, DRAW 1, LOSS and TECHNICAL_LOSS 0, anything else 0. */
  function Score(result: string): (p: int)
    ensures p == (if result == "WIN" then 3 else if result == "DRAW" then 1 else 0)
  {
    var scoring := map["WIN" := 3, "DRAW" := 1, "LOSS" := 0, "TECHNICAL_LOSS" := 0];
    if result in scoring then scoring[result] else 0
  }

  /**
   * A new entry: `display_name or player_id`, so a falsy display name (the
   * default "", or None) falls back to the id.
   */
  function NewStanding(playerId: string, displayName: Json): (s: PlayerStanding)
    ensures s.playerId == playerId && s.displayName == (if Truthy(displayName) then displayName else JStr(playerId))
    ensures s.points == 0 && s.wins == 0 && s.draws == 0 && s.losses == 0 && s.played == 0
  {
    PlayerStanding(playerId, if Truthy(displayName) then displayName else JStr(playerId), 0, 0, 0, 0, 0)
  }

  /** The counters agree: every game is one of win, draw, loss, and points are 3 per win and 1 per draw. */
  predicate Consistent(s: PlayerStanding)
  {
    s.played == s.wins + s.draws + s.losses && s.points == 3 * s.wins + s.draws
  }

  /** One result applied to an entry: exactly one of wins, draws, losses goes up. */
  function Tally(s: PlayerStanding, result: string): (t: PlayerStanding)
    ensures t.playerId == s.playerId && t.displayName == s.displayName
    ensures t.played == s.played + 1 && t.points == s.points + Score(result)
    ensures result == "WIN" ==> t.wins == s.wins + 1 && t.draws == s.draws && t.losses == s.losses
    ensures result == "DRAW" ==> t.wins == s.wins && t.draws == s.draws + 1 && t.losses == s.losses
    ensures result != "WIN" && result != "DRAW" ==> t.wins == s.wins && t.draws == s.draws && t.losses == s.losses + 1
  {
    var s' := s.(played := s.played + 1, points := s.points + Score(result));
    if result == "WIN" then s'.(wins := s.wins + 1)
    else if result == "DRAW" then s'.(draws := s.draws + 1)
    else s'.(losses := s.losses + 1)
  }

  /** Tallying keeps an entry consistent, whatever the result string. */
  lemma TallyKeepsConsistent(s: PlayerStanding, result: string)
    requires Consistent(s)
    ensures Consistent(Tally(s, result))
  {
  }

  function Zeroed(s: PlayerStanding): (z: PlayerStanding)
    ensures z.playerId == s.playerId && z.displayName == s.displayName
    ensures z.points == 0 && z.wins == 0 && z.draws == 0 && z.losses == 0 && z.played == 0
  {
    s.(points := 0, wins := 0, draws := 0, losses := 0, played := 0)
  }

  /** One row of `get_standings`. */
  datatype Row = Row(rank: nat, playerId: string, displayName: Json,
                     points: int, wins: nat, draws: nat, losses: nat, played: nat)

  function KeyOf(s: PlayerStanding): Key
  {
    Key(s.points, s.wins)
  }

  function RowKey(r: Row): Key
  {
    Key(r.points, r.wins)
  }

  function ToRow(s: PlayerStanding, rank: nat): (r: Row)
    ensures RowKey(r) == KeyOf(s) && r.playerId == s.playerId && r.rank == rank
  {
    Row(rank, s.playerId, s.displayName, s.points, s.wins, s.draws, s.losses, s.played)
  }

  /** `enumerate(sorted_standings)` turned into rows with rank `first + i`. */
  function Rows(sorted: seq<PlayerStanding>, first: nat): (rows: seq<Row>)
    ensures |rows| == |sorted|
    ensures forall i | 0 <= i < |sorted| :: rows[i] == ToRow(sorted[i], first + i)
  {
    if sorted == [] then [] else [ToRow(sorted[0], first)] + Rows(sorted[1..], first + 1)
  }

  function Ids(s: seq<PlayerStanding>): (ids: seq<string>)
    ensures |ids| == |s| && forall i | 0 <= i < |s| :: ids[i] == s[i].playerId
  {
    if s == [] then [] else [s[0].playerId] + Ids(s[1..])
  }

  /** Sum of a counter over the entries listed in `order`. */
  function SumPlayed(order: seq<string>, entries: map<string, PlayerStanding>): nat
    requires forall id | id in order :: id in entries
  {
    if order == [] then 0 else entries[order[0]].played + SumPlayed(order[1..], entries)
  }

  function SumWins(order: seq<string>, entries: map<string, PlayerStanding>): nat
    requires forall id | id in order :: id in entries
  {
    if order == [] then 0 else entries[order[0]].wins + SumWins(order[1..], entries)
  }

  function SumDraws(order: seq<string>, entries: map<string, PlayerStanding>): nat
    requires forall id | id in order :: id in entries
  {
    if order == [] then 0 else entries[order[0]].draws + SumDraws(order[1..], entries)
  }

  /** Changing one listed entry changes the played sum by the same amount. */
  lemma {:induction false} SumPlayedUpdate(order: seq<string>, entries: map<string, PlayerStanding>, id: string, s: PlayerStanding)
    requires forall x | x in order :: x in entries
    requires Distinct(order) && id in order
    ensures SumPlayed(order, entries[id := s]) + entries[id].played == SumPlayed(order, entries) + s.played
  {
    if order[0] == id {
      SumPlayedOther(order[1..], entries, id, s);
    } else {
      assert Distinct(order[1..]) by {
        forall i, j | 0 <= i < j < |order[1..]| ensures order[1..][i] != order[1..][j] {
          assert order[1..][i] == order[i + 1] && order[1..][j] == order[j + 1];
        }
      }
      SumPlayedUpdate(order[1..], entries, id, s);
    }
  }

  lemma {:induction false} SumPlayedAppend(order: seq<string>, entries: map<string, PlayerStanding>, id: string, s: PlayerStanding)
    requires forall x | x in order :: x in entries
    requires id !in order
    ensures SumPlayed(order + [id], entries[id := s]) == SumPlayed(order, entries) + s.played
  {
    if order == [] {
      assert [id][1..] == [];
    } else {
      assert (order + [id])[1..] == order[1..] + [id];
      SumPlayedAppend(order[1..], entries, id, s);
    }
  }

  lemma {:induction false} SumPlayedOther(order: seq<string>, entries: map<string, PlayerStanding>, id: string, s: PlayerStanding)
    requires forall x | x in order :: x in entries
    requires id !in order
    ensures SumPlayed(order, entries[id := s]) == SumPlayed(order, entries)
  {
    if order != [] {
      SumPlayedOther(order[1..], entries, id, s);
    }
  }

  /** A set holding exactly the ids of a list of distinct ids has the list's length. */
  lemma {:induction false} KeysCount(order: seq<string>, keys: set<string>)
    requires Distinct(order)
    requires (forall id | id in keys :: id in order) && (forall id | id in order :: id in keys)
    ensures |keys| == |order|
  {
    if order != [] {
      var tail := order[1..];
      var rest := keys - {order[0]};
      assert Distinct(tail) by {
        forall i, j | 0 <= i < j < |tail| ensures tail[i] != tail[j] {
          assert tail[i] == order[i + 1] && tail[j] == order[j + 1];
        }
      }
      assert forall id | id in tail :: id in rest by {
        forall id | id in tail ensures id in rest {
          var j :| 0 <= j < |tail| && tail[j] == id;
          assert order[j + 1] == id;
        }
      }
      assert forall id | id in rest :: id in tail by {
        forall id | id in rest ensures id in tail {
          var j :| 0 <= j < |order| && order[j] == id;
          assert tail[j - 1] == id;
        }
      }
      KeysCount(tail, rest);
    }
  }

  /** `register_player` on the dictionary (keys in order, entries): a known id is left as it is. */
  function RegisterSpec(order: seq<string>, entries: map<string, PlayerStanding>, playerId: string, displayName: Json)
    : (r: (seq<string>, map<string, PlayerStanding>))
    ensures playerId in r.1 && r.1.Keys == entries.Keys + {playerId}
    ensures playerId in entries ==> r == (order, entries)
    ensures playerId !in entries ==> r.0 == order + [playerId] && r.1[playerId] == NewStanding(playerId, displayName)
    ensures forall id | id in entries :: r.1[id] == entries[id]
  {
    if playerId in entries then (order, entries)
    else (order + [playerId], entries[playerId := NewStanding(playerId, displayName)])
  }

  /** `update_result` on the dictionary (keys in order, entries): register if unknown, then tally. */
  function UpdateSpec(order: seq<string>, entries: map<string, PlayerStanding>, playerId: string, result: string)
    : (r: (seq<string>, map<string, PlayerStanding>))
    ensures playerId in r.1 && r.1.Keys == entries.Keys + {playerId}
    ensures r.0 == if playerId in entries then order else order + [playerId]
    ensures r.1[playerId] == Tally(if playerId in entries then entries[playerId] else NewStanding(playerId, JStr("")), result)
    ensures forall id | id in entries && id != playerId :: r.1[id] == entries[id]
  {
    var before := if playerId in entries then entries[playerId] else NewStanding(playerId, JStr(""));
    (if playerId in entries then order else order + [playerId], entries[playerId := Tally(before, result)])
  }

  /**
   * `update_result` called with a result that cannot be a dictionary key (a
   * list or a dictionary): the id is registered and `played` goes up, then
   * `self.scoring.get(result, 0)` raises before any other counter moves.
   */
  function BumpSpec(order: seq<string>, entries: map<string, PlayerStanding>, playerId: string)
    : (r: (seq<string>, map<string, PlayerStanding>))
    ensures playerId in r.1 && r.1.Keys == entries.Keys + {playerId}
    ensures r.0 == if playerId in entries then order else order + [playerId]
    ensures var before := if playerId in entries then entries[playerId] else NewStanding(playerId, JStr(""));
      r.1[playerId] == before.(played := before.played + 1)
    ensures forall id | id in entries && id != playerId :: r.1[id] == entries[id]
  {
    var reg := RegisterSpec(order, entries, playerId, JStr(""));
    (reg.0, reg.1[playerId := reg.1[playerId].(played := reg.1[playerId].played + 1)])
  }

  /**
   * The interrupted update keeps the dictionary keyed, adds one game played,
   * and leaves the bumped entry inconsistent: it has one game more than its
   * wins, draws and losses.
   */
  lemma BumpBreaksConsistency(order: seq<string>, entries: map<string, PlayerStanding>, playerId: string)
    requires Table(order, entries)
    ensures var r := BumpSpec(order, entries, playerId);
      Keyed(r.0, r.1)
      && SumPlayed(r.0, r.1) == SumPlayed(order, entries) + 1
      && r.1[playerId].played == r.1[playerId].wins + r.1[playerId].draws + r.1[playerId].losses + 1
      && !Table(r.0, r.1)
  {
    var before := if playerId in entries then entries[playerId] else NewStanding(playerId, JStr(""));
    var r := BumpSpec(order, entries, playerId);
    if playerId in entries {
      SumPlayedUpdate(order, entries, playerId, r.1[playerId]);
    } else {
      var registered := entries[playerId := before];
      SumPlayedAppend(order, entries, playerId, before);
      DistinctAppend(order, playerId);
      SumPlayedUpdate(order + [playerId], registered, playerId, r.1[playerId]);
      assert registered[playerId := r.1[playerId]] == r.1;
    }
  }

  /** `update_result` is `register_player` with an empty name followed by one tally. */
  lemma UpdateIsRegisterThenTally(order: seq<string>, entries: map<string, PlayerStanding>, playerId: string, result: string)
    ensures var reg := RegisterSpec(order, entries, playerId, JStr(""));
      UpdateSpec(order, entries, playerId, result) == (reg.0, reg.1[playerId := Tally(reg.1[playerId], result)])
  {
    var reg := RegisterSpec(order, entries, playerId, JStr(""));
    var before := if playerId in entries then entries[playerId] else NewStanding(playerId, JStr(""));
    assert reg.1[playerId] == before;
    if playerId in entries {
      assert reg == (order, entries);
    } else {
      assert reg.1 == entries[playerId := before];
      assert reg.1[playerId := Tally(before, result)] == entries[playerId := Tally(before, result)];
    }
  }

  /** The standings dictionary's shape: keys listed once each in insertion order, each entry under its own id. */
  predicate Keyed(order: seq<string>, entries: map<string, PlayerStanding>)
  {
    Distinct(order)
    && (forall id | id in entries :: id in order) && (forall id | id in order :: id in entries)
    && (forall id | id in entries :: entries[id].playerId == id)
  }

  /** The standings dictionary's invariant: keyed, and every entry consistent. */
  predicate Table(order: seq<string>, entries: map<string, PlayerStanding>)
  {
    Keyed(order, entries) && (forall id | id in entries :: Consistent(entries[id]))
  }

  /** One `update_result` keeps the invariant and adds exactly one game to the total played. */
  lemma UpdateSpecFacts(order: seq<string>, entries: map<string, PlayerStanding>, playerId: string, result: string)
    requires Table(order, entries)
    ensures Table(UpdateSpec(order, entries, playerId, result).0, UpdateSpec(order, entries, playerId, result).1)
    ensures SumPlayed(UpdateSpec(order, entries, playerId, result).0, UpdateSpec(order, entries, playerId, result).1)
            == SumPlayed(order, entries) + 1
  {
    UpdateKeepsTable(order, entries, playerId, result);
    UpdateCountsOneGame(order, entries, playerId, result);
  }

  lemma UpdateKeepsTable(order: seq<string>, entries: map<string, PlayerStanding>, playerId: string, result: string)
    requires Table(order, entries)
    ensures Table(UpdateSpec(order, entries, playerId, result).0, UpdateSpec(order, entries, playerId, result).1)
  {
    var before := if playerId in entries then entries[playerId] else NewStanding(playerId, JStr(""));
    TallyKeepsConsistent(before, result);
    if playerId !in entries {
      DistinctAppend(order, playerId);
    }
  }

  lemma DistinctAppend(order: seq<string>, x: string)
    requires Distinct(order) && x !in order
    ensures Distinct(order + [x])
  {
    var s := order + [x];
    forall i, j | 0 <= i < j < |s| ensures s[i] != s[j] {
      assert s[i] == order[i];
      if j < |order| {
        assert s[j] == order[j];
      }
    }
  }

  /** One `update_result` keeps the dictionary keyed, consistent or not. */
  lemma UpdateKeyed(order: seq<string>, entries: map<string, PlayerStanding>, playerId: string, result: string)
    requires Keyed(order, entries)
    ensures Keyed(UpdateSpec(order, entries, playerId, result).0, UpdateSpec(order, entries, playerId, result).1)
    ensures SumPlayed(UpdateSpec(order, entries, playerId, result).0, UpdateSpec(order, entries, playerId, result).1)
            == SumPlayed(order, entries) + 1
  {
    if playerId !in entries {
      DistinctAppend(order, playerId);
    }
    UpdateCountsOneGame(order, entries, playerId, result);
  }

  lemma UpdateCountsOneGame(order: seq<string>, entries: map<string, PlayerStanding>, playerId: string, result: string)
    requires Keyed(order, entries)
    ensures SumPlayed(UpdateSpec(order, entries, playerId, result).0, UpdateSpec(order, entries, playerId, result).1)
            == SumPlayed(order, entries) + 1
  {
    var before := if playerId in entries then entries[playerId] else NewStanding(playerId, JStr(""));
    var spec := UpdateSpec(order, entries, playerId, result);
    if playerId in entries {
      SumPlayedUpdate(order, entries, playerId, spec.1[playerId]);
    } else {
      var registered := entries[playerId := before];
      SumPlayedAppend(order, entries, playerId, before);
      DistinctAppend(order, playerId);
      SumPlayedUpdate(order + [playerId], registered, playerId, spec.1[playerId]);
      assert registered[playerId := spec.1[playerId]] == spec.1;
    }
  }

  /** A row as the dictionary `get_standings` returns. */
  function RowJson(r: Row): (j: Json)
    ensures j.JObj? && j.fields.Keys == {"rank", "player_id", "display_name", "points", "wins", "draws", "losses", "played"}
  {
    JObj(map["rank" := JInt(r.rank), "player_id" := JStr(r.playerId), "display_name" := r.displayName,
             "points" := JInt(r.points), "wins" := JInt(r.wins), "draws" := JInt(r.draws),
             "losses" := JInt(r.losses), "played" := JInt(r.played)])
  }

  function RowsJson(rows: seq<Row>): (js: seq<Json>)
    ensures |js| == |rows| && forall i | 0 <= i < |rows| :: js[i] == RowJson(rows[i])
  {
    if rows == [] then [] else [RowJson(rows[0])] + RowsJson(rows[1..])
  }

  /** `get_stats`. */
  datatype Stats = Stats(totalPlayers: nat, totalMatchesPlayed: nat, totalWins: nat, totalDraws: nat, leader: Option<Row>)

  function StatsJson(st: Stats): (j: Json)
    ensures j.JObj? && j.fields.Keys == {"total_players", "total_matches_played", "total_wins", "total_draws", "leader"}
  {
    JObj(map["total_players" := JInt(st.totalPlayers), "total_matches_played" := JInt(st.totalMatchesPlayed),
             "total_wins" := JInt(st.totalWins), "total_draws" := JInt(st.totalDraws),
             "leader" := if st.leader.Some? then RowJson(st.leader.value) else JNull])
  }

  class StandingsManager {
    /** The dictionary's keys in insertion order, and its entries. */
    var order: seq<string>
    var standings: map<string, PlayerStanding>

    /**
     * The dictionary's shape. Consistency of the counters is not part of it:
     * an `update_result` interrupted by an unhashable result breaks it.
     */
    predicate Valid()
      reads this
    {
      Keyed(order, standings)
    }

    constructor()
      ensures Valid() && order == [] && standings == map[]
    {
      order := [];
      standings := map[];
    }

    /** `register_player`: adds an entry only when the id is new. */
    method RegisterPlayer(playerId: string, displayName: Json)
      requires Valid()
      modifies this
      ensures Valid()
      ensures (order, standings) == RegisterSpec(old(order), old(standings), playerId, displayName)
    {
      if playerId !in standings {
        standings := standings[playerId := NewStanding(playerId, displayName)];
        order := order + [playerId];
      }
    }

    /** `update_result`: registers an unknown id first, then tallies the result. */
    method UpdateResult(playerId: string, result: string)
      requires Valid()
      modifies this
      ensures Valid()
      ensures (order, standings) == UpdateSpec(old(order), old(standings), playerId, result)
      ensures SumPlayed(order, standings) == old(SumPlayed(order, standings)) + 1
      ensures old(Table(order, standings)) ==> Table(order, standings)
    {
      ghost var registered := RegisterSpec(order, standings, playerId, JStr(""));
      UpdateIsRegisterThenTally(order, standings, playerId, result);
      UpdateKeyed(order, standings, playerId, result);
      if Table(order, standings) {
        UpdateSpecFacts(order, standings, playerId, result);
      }
      if playerId !in standings {
        RegisterPlayer(playerId, JStr(""));
      }
      assert (order, standings) == registered;
      standings := standings[playerId := Tally(standings[playerId], result)];
    }

    /**
     * `update_result` with a list or dictionary as the result: registered and
     * one more game played, then the scoring lookup raises `TypeError`.
     */
    method UpdateResultUnhashable(playerId: string)
      requires Valid()
      modifies this
      ensures Valid()
      ensures (order, standings) == BumpSpec(old(order), old(standings), playerId)
    {
      if playerId !in standings {
        RegisterPlayer(playerId, JStr(""));
      }
      standings := standings[playerId := standings[playerId].(played := standings[playerId].played + 1)];
    }

    /** The entries in dictionary order. */
    function Entries(): (es: seq<PlayerStanding>)
      requires Valid()
      reads this
      ensures |es| == |order| && forall i | 0 <= i < |order| :: es[i] == standings[order[i]]
    {
      InOrder(order, standings)
    }

    /**
     * `get_standings`: one row per player, ranked 1, 2, ... in table order;
     * no row is ahead on (points, wins) of a row listed before it.
     */
    function GetStandings(): (rows: seq<Row>)
      requires Valid()
      reads this
      ensures |rows| == |order|
      ensures forall i | 0 <= i < |rows| :: rows[i] == ToRow(SortedEntries()[i], i + 1)
      ensures forall i, j | 0 <= i < j < |rows| :: !Ahead(RowKey(rows[j]), RowKey(rows[i]))
    {
      var sorted := SortedEntries();
      var rows := Rows(sorted, 1);
      assert forall i, j | 0 <= i < j < |rows| :: !Ahead(RowKey(rows[j]), RowKey(rows[i])) by {
        forall i, j | 0 <= i < j < |rows| ensures !Ahead(RowKey(rows[j]), RowKey(rows[i])) {
          assert RowKey(rows[j]) == KeyOf(sorted[j]) && RowKey(rows[i]) == KeyOf(sorted[i]);
        }
      }
      rows
    }

    /**
     * `sorted(self.standings.values(), key=lambda x: (-x.points, -x.wins))`:
     * the entries reordered by (points, wins) descending, ties in dictionary order.
     */
    function SortedEntries(): (sorted: seq<PlayerStanding>)
      requires Valid()
      reads this
      ensures multiset(sorted) == multiset(Entries())
      ensures Ranked(sorted, KeyOf)
      ensures forall k :: WithKey(sorted, KeyOf, k) == WithKey(Entries(), KeyOf, k)
    {
      var es := Entries();
      SortRanked(es, KeyOf);
      assert forall k :: WithKey(Sort(es, KeyOf), KeyOf, k) == WithKey(es, KeyOf, k) by {
        forall k: Key {
          SortStable(es, KeyOf, k);
        }
      }
      Sort(es, KeyOf)
    }

    /** `get_leader`. */
    function GetLeader(): (r: Option<Row>)
      requires Valid()
      reads this
      ensures r.Some? <==> |order| > 0
      ensures r.Some? ==> r.value == GetStandings()[0] && r.value.rank == 1
    {
      var rows := GetStandings();
      if rows != [] then Some(rows[0]) else None
    }

    /** `get_player_standing`: the first row of the table with that id. */
    method GetPlayerStanding(playerId: string) returns (r: Option<Row>)
      requires Valid()
      ensures r == FirstRow(GetStandings(), playerId)
    {
      r := FindRow(GetStandings(), playerId);
    }

    /** `reset`: every counter goes back to zero; no entry is removed. */
    method Reset()
      requires Valid()
      modifies this
      ensures Valid() && order == old(order) && Table(order, standings)
      ensures standings.Keys == old(standings).Keys
      ensures forall id | id in standings :: standings[id] == Zeroed(old(standings)[id])
    {
      standings := ZeroAll(order, standings);
    }

    /** `get_stats`: the played and draw sums count each two-player match twice. */
    function GetStats(): (st: Stats)
      requires Valid()
      reads this
      ensures st.totalPlayers == |order|
      ensures st.totalMatchesPlayed == SumPlayed(order, standings) / 2
      ensures st.totalWins == SumWins(order, standings)
      ensures st.totalDraws == SumDraws(order, standings) / 2
      ensures st.leader == GetLeader()
    {
      KeysCount(order, standings.Keys);
      Stats(|standings|, SumPlayed(order, standings) / 2, SumWins(order, standings),
            SumDraws(order, standings) / 2, GetLeader())
    }
  }

  /** The first row carrying the id, as the lookup loop finds it. */
  function FirstRow(rows: seq<Row>, playerId: string): (r: Option<Row>)
    ensures r.Some? ==> r.value in rows && r.value.playerId == playerId
    ensures r.None? ==> forall i | 0 <= i < |rows| :: rows[i].playerId != playerId
  {
    if rows == [] then None
    else if rows[0].playerId == playerId then Some(rows[0])
    else FirstRow(rows[1..], playerId)
  }

  /** The search loop of `get_player_standing`: scan the rows until one has the id. */
  method FindRow(rows: seq<Row>, playerId: string) returns (r: Option<Row>)
    ensures r == FirstRow(rows, playerId)
  {
    r := None;
    var i := 0;
    while i < |rows| && r.None?
      invariant 0 <= i <= |rows|
      invariant r.None? ==> FirstRow(rows, playerId) == FirstRow(rows[i..], playerId)
      invariant r.Some? ==> r == FirstRow(rows, playerId)
    {
      assert rows[i..][1..] == rows[i + 1..];
      if rows[i].playerId == playerId {
        r := Some(rows[i]);
      }
      i := i + 1;
    }
  }

  /** The loop of `reset`: every entry, visited in dictionary order, is zeroed. */
  method ZeroAll(order: seq<string>, entries: map<string, PlayerStanding>) returns (out: map<string, PlayerStanding>)
    requires forall id | id in order :: id in entries
    requires forall id | id in entries :: id in order
    ensures out.Keys == entries.Keys
    ensures forall id | id in out :: out[id] == Zeroed(entries[id])
  {
    out := entries;
    var i := 0;
    while i < |order|
      invariant 0 <= i <= |order|
      invariant out.Keys == entries.Keys
      invariant forall id | id in out ::
        out[id] == if id in order[..i] then Zeroed(entries[id]) else entries[id]
    {
      var id := order[i];
      out := out[id := Zeroed(out[id])];
      assert order[..i + 1] == order[..i] + [id];
      i := i + 1;
    }
    assert order[..i] == order;
  }

  /**
   * The table lists every registered player once, ranked 1..n, with no row
   * strictly ahead (points, then wins) of an earlier one; players tied on
   * both keep their registration order.
   */
  lemma StandingsTable(m: StandingsManager, k: Key)
    requires m.Valid()
    ensures |m.GetStandings()| == |m.order|
    ensures forall i | 0 <= i < |m.GetStandings()| ::
      m.GetStandings()[i] == ToRow(m.SortedEntries()[i], i + 1)
    ensures forall i, j | 0 <= i < j < |m.GetStandings()| ::
      !Ahead(RowKey(m.GetStandings()[j]), RowKey(m.GetStandings()[i]))
    ensures multiset(m.SortedEntries()) == multiset(m.Entries())
    ensures WithKey(m.SortedEntries(), KeyOf, k) == WithKey(m.Entries(), KeyOf, k)
  {
    var es := m.Entries();
    var sorted := Sort(es, KeyOf);
    assert m.SortedEntries() == sorted;
    assert m.GetStandings() == Rows(sorted, 1);
    TableOf(es, k);
  }

  lemma TableOf(entries: seq<PlayerStanding>, k: Key)
    ensures var rows := Rows(Sort(entries, KeyOf), 1);
      forall i, j | 0 <= i < j < |rows| :: !Ahead(RowKey(rows[j]), RowKey(rows[i]))
    ensures WithKey(Sort(entries, KeyOf), KeyOf, k) == WithKey(entries, KeyOf, k)
  {
    var sorted := Sort(entries, KeyOf);
    SortRanked(entries, KeyOf);
    SortStable(entries, KeyOf, k);
    var rows := Rows(sorted, 1);
    forall i, j | 0 <= i < j < |rows| ensures !Ahead(RowKey(rows[j]), RowKey(rows[i])) {
      assert RowKey(rows[j]) == KeyOf(sorted[j]) && RowKey(rows[i]) == KeyOf(sorted[i]);
    }
  }
}
