/**
 * The league manager's scheduler: it packs all pairs of the registered
 * players into rounds, hands referees out over the flattened match list, and
 * walks through the rounds with a current-round pointer.
 */
module LeagueScheduler {
  import opened Wrappers
  import opened JsonValue
  import opened Text
  import opened RoundRobin

  /** One scheduled match; the referee is filled in later. */
  datatype Match = Match(matchId: string, roundId: string, playerA: string, playerB: string, referee: Option<string>)

  /** `f"R{r}M{k}"`, with 1-based round r and in-round position k. */
  function MatchId(r: nat, k: nat): string
  {
    "R" + Decimal(r) + "M" + Decimal(k)
  }

  /** `f"ROUND_{r}"`. */
  function RoundId(r: nat): string
  {
    "ROUND_" + Decimal(r)
  }

  /** Different rounds or positions never share a match id. */
  lemma MatchIdInjective(r1: nat, k1: nat, r2: nat, k2: nat)
    requires MatchId(r1, k1) == MatchId(r2, k2)
    ensures r1 == r2 && k1 == k2
  {
    var s1, s2 := Decimal(r1), Decimal(r2);
    var id := MatchId(r1, k1);
    ShorterRoundDiffers(s1, s2, Decimal(k1), Decimal(k2));
    ShorterRoundDiffers(s2, s1, Decimal(k2), Decimal(k1));
    assert s1 == id[1..1 + |s1|] == s2;
    assert Decimal(k1) == id[2 + |s1|..] == Decimal(k2);
  }

  /** The 'M' after a shorter round number meets a digit of the longer one. */
  lemma ShorterRoundDiffers(s1: string, s2: string, t1: string, t2: string)
    requires AllDigits(s2)
    ensures |s1| < |s2| ==> "R" + s1 + "M" + t1 != "R" + s2 + "M" + t2
  {
    if |s1| < |s2| {
      var x, y := "R" + s1 + "M" + t1, "R" + s2 + "M" + t2;
      assert x[1 + |s1|] == 'M';
      assert y[1 + |s1|] == s2[|s1|];
    }
  }

  /** One round's pairings as matches of round number `r`. */
  function Label(round: seq<Pairing>, r: nat): (ms: seq<Match>)
    ensures |ms| == |round|
  {
    if round == [] then []
    else Label(round[..|round| - 1], r) + [Match(MatchId(r, |round|), RoundId(r), round[|round| - 1].a, round[|round| - 1].b, None)]
  }

  /** The k-th pairing of round r becomes match `R{r}M{k+1}` of `ROUND_{r}`, with no referee yet. */
  lemma {:induction false} LabelAt(round: seq<Pairing>, r: nat, k: nat)
    requires k < |round|
    ensures Label(round, r)[k] == Match(MatchId(r, k + 1), RoundId(r), round[k].a, round[k].b, None)
  {
    if k < |round| - 1 {
      LabelAt(round[..|round| - 1], r, k);
    }
  }

  /** Rounds numbered from `first` on. */
  function LabelRounds(rounds: seq<seq<Pairing>>, first: nat): (s: seq<seq<Match>>)
    ensures |s| == |rounds|
  {
    if rounds == [] then [] else [Label(rounds[0], first)] + LabelRounds(rounds[1..], first + 1)
  }

  /** The schedule `generate_schedule` builds for these players. */
  function Schedule(ids: seq<string>): seq<seq<Match>>
  {
    if |ids| < 2 then [] else LabelRounds(Pack(Combinations(ids)), 1)
  }

  /** `list.remove(x)`: drop the first element equal to `x`. */
  function RemoveFirst(s: seq<Pairing>, x: Pairing): (r: seq<Pairing>)
    requires x in s
    ensures |r| == |s| - 1
  {
    if s[0] == x then s[1..] else [s[0]] + RemoveFirst(s[1..], x)
  }

  lemma {:induction false} RemoveFirstSkips(kept: seq<Pairing>, rest: seq<Pairing>, x: Pairing)
    requires x !in kept
    ensures RemoveFirst(kept + [x] + rest, x) == kept + rest
  {
    var s := kept + [x] + rest;
    if kept == [] {
      assert s[0] == x && s[1..] == rest;
    } else {
      assert s[0] == kept[0] && kept[0] != x;
      assert s[1..] == kept[1..] + [x] + rest;
      RemoveFirstSkips(kept[1..], rest, x);
      assert RemoveFirst(s, x) == [kept[0]] + (kept[1..] + rest);
      assert [kept[0]] + (kept[1..] + rest) == kept + rest;
    }
  }

  /**
   * The inner `for match in remaining[:]` pass of one round: scan a copy of
   * the remaining pairs, take each pair whose players are both still free,
   * and remove it from `remaining`.
   */
  method FillRound(remaining: seq<Pairing>, r: nat) returns (roundMatches: seq<Match>, left: seq<Pairing>)
    ensures roundMatches == Label(Scan(remaining).taken, r) && left == Scan(remaining).kept
  {
    var copy := remaining;
    left := remaining;
    roundMatches := [];
    var playersInRound: set<string> := {};
    ghost var taken: seq<Pairing> := [];
    ghost var kept: seq<Pairing> := [];
    var j := 0;
    assert left == kept + copy[0..];
    assert copy[..0] == [];
    assert Scan(copy[..0]) == Scanned([], []);
    while j < |copy|
      invariant 0 <= j <= |copy|
      invariant Scan(copy[..j]) == Scanned(taken, kept)
      invariant roundMatches == Label(taken, r)
      invariant playersInRound == Players(taken)
      invariant left == kept + copy[j..]
    {
      roundMatches, playersInRound, left, taken, kept := VisitPair(copy, j, r, roundMatches, playersInRound, left, taken, kept);
      j := j + 1;
    }
    assert copy[..j] == remaining;
  }

  /** One iteration of the inner loop, at pair j of the copy: take the pair if both players are free. */
  method VisitPair(copy: seq<Pairing>, j: nat, r: nat, roundMatches: seq<Match>, playersInRound: set<string>,
                   left: seq<Pairing>, ghost taken: seq<Pairing>, ghost kept: seq<Pairing>)
    returns (roundMatches': seq<Match>, playersInRound': set<string>, left': seq<Pairing>,
             ghost taken': seq<Pairing>, ghost kept': seq<Pairing>)
    requires j < |copy| && Scan(copy[..j]) == Scanned(taken, kept)
    requires roundMatches == Label(taken, r) && playersInRound == Players(taken)
    requires left == kept + copy[j..]
    ensures Scan(copy[..j + 1]) == Scanned(taken', kept')
    ensures roundMatches' == Label(taken', r) && playersInRound' == Players(taken')
    ensures left' == kept' + copy[j + 1..]
  {
    var p := copy[j];
    ghost var done, rest := copy[..j], copy[j + 1..];
    SliceStep(copy, j, kept);
    if p.a !in playersInRound && p.b !in playersInRound {
      TakeStep(done, p, rest, taken, kept);
      roundMatches', playersInRound', left' := TakePair(p, r, roundMatches, playersInRound, left, taken, kept + [p] + rest);
      taken', kept' := taken + [p], kept;
    } else {
      KeepStep(done, p, taken, kept);
      roundMatches', playersInRound', left' := roundMatches, playersInRound, left;
      taken', kept' := taken, kept + [p];
    }
  }

  /** Moving the scan position past pair j. */
  lemma SliceStep(copy: seq<Pairing>, j: nat, kept: seq<Pairing>)
    requires j < |copy|
    ensures kept + copy[j..] == kept + [copy[j]] + copy[j + 1..]
    ensures copy[..j + 1] == copy[..j] + [copy[j]]
  {
    assert copy[j..] == [copy[j]] + copy[j + 1..];
  }

  /** The taken branch: append the match, mark both players, `remaining.remove(match)`. */
  method TakePair(p: Pairing, r: nat, roundMatches: seq<Match>, playersInRound: set<string>, left: seq<Pairing>,
                  ghost taken: seq<Pairing>, ghost rest: seq<Pairing>)
    returns (roundMatches': seq<Match>, playersInRound': set<string>, left': seq<Pairing>)
    requires roundMatches == Label(taken, r) && playersInRound == Players(taken)
    requires left == rest && p in rest
    ensures roundMatches' == Label(taken + [p], r)
    ensures playersInRound' == Players(taken + [p])
    ensures left' == RemoveFirst(rest, p)
  {
    LabelSnoc(taken, p, r);
    PlayersSnoc(taken, p);
    roundMatches' := roundMatches + [Match(MatchId(r, |roundMatches| + 1), RoundId(r), p.a, p.b, None)];
    playersInRound' := playersInRound + {p.a, p.b};
    left' := RemoveFirst(left, p);
  }

  /** A free pair joins the round and leaves `remaining`. */
  lemma TakeStep(done: seq<Pairing>, p: Pairing, rest: seq<Pairing>, taken: seq<Pairing>, kept: seq<Pairing>)
    requires Scan(done) == Scanned(taken, kept) && Free(p, Players(taken))
    ensures Scan(done + [p]) == Scanned(taken + [p], kept)
    ensures Players(taken + [p]) == Players(taken) + {p.a, p.b}
    ensures p in kept + [p] + rest && RemoveFirst(kept + [p] + rest, p) == kept + rest
  {
    ScanSnoc(done, p);
    PlayersSnoc(taken, p);
    ScanKeptClash(done);
    RemoveFirstSkips(kept, rest, p);
  }

  /** A clashing pair stays in `remaining` for a later round. */
  lemma KeepStep(done: seq<Pairing>, p: Pairing, taken: seq<Pairing>, kept: seq<Pairing>)
    requires Scan(done) == Scanned(taken, kept) && !Free(p, Players(taken))
    ensures Scan(done + [p]) == Scanned(taken, kept + [p])
  {
    ScanSnoc(done, p);
  }

  lemma LabelSnoc(round: seq<Pairing>, p: Pairing, r: nat)
    ensures Label(round + [p], r) == Label(round, r) + [Match(MatchId(r, |round| + 1), RoundId(r), p.a, p.b, None)]
  {
    assert (round + [p])[..|round|] == round;
  }

  /** The outer `while remaining` loop: rounds until no pair is left. */
  method PackRounds(all: seq<Pairing>) returns (schedule: seq<seq<Match>>)
    ensures schedule == LabelRounds(Pack(all), 1)
  {
    schedule := [];
    var remaining := all;
    var roundNum := 0;
    ghost var packed: seq<seq<Pairing>> := [];
    while remaining != []
      invariant Pack(all) == packed + Pack(remaining)
      invariant roundNum == |packed| && schedule == LabelRounds(packed, 1)
      decreases |remaining|
    {
      var roundMatches, left := FillRound(remaining, roundNum + 1);
      ScanTakesFirst(remaining);
      if roundMatches != [] {
        LabelRoundsSnoc(packed, Scan(remaining).taken, 1);
        schedule := schedule + [roundMatches];
        roundNum := roundNum + 1;
        packed := packed + [Scan(remaining).taken];
      }
      remaining := left;
    }
    assert packed + [] == packed;
  }

  lemma {:induction false} LabelRoundsSnoc(rounds: seq<seq<Pairing>>, round: seq<Pairing>, first: nat)
    ensures LabelRounds(rounds + [round], first) == LabelRounds(rounds, first) + [Label(round, first + |rounds|)]
  {
    if rounds != [] {
      LabelRoundsSnoc(rounds[1..], round, first + 1);
      assert (rounds + [round])[1..] == rounds[1..] + [round];
    }
  }

  /** Round i of the labelled schedule is `ROUND_{first+i}`. */
  lemma {:induction false} LabelRoundsAt(rounds: seq<seq<Pairing>>, first: nat, i: nat)
    requires i < |rounds|
    ensures LabelRounds(rounds, first)[i] == Label(rounds[i], first + i)
  {
    if i > 0 {
      LabelRoundsAt(rounds[1..], first + 1, i - 1);
    }
  }

  /** Python's `sum(len(r) for r in schedule)`. */
  function TotalMatches(schedule: seq<seq<Match>>): nat
  {
    if schedule == [] then 0 else |schedule[0]| + TotalMatches(schedule[1..])
  }

  /** The same number of rounds, each with the same number of matches. */
  predicate SameShape(s: seq<seq<Match>>, t: seq<seq<Match>>)
  {
    |s| == |t| && forall r | 0 <= r < |s| :: |s[r]| == |t[r]|
  }

  /** Schedules of the same shape hold as many matches. */
  lemma {:induction false} SameShapeTotal(s: seq<seq<Match>>, t: seq<seq<Match>>)
    requires SameShape(s, t)
    ensures TotalMatches(s) == TotalMatches(t)
  {
    if s != [] {
      assert SameShape(s[1..], t[1..]) by {
        forall r | 0 <= r < |s[1..]| ensures |s[1..][r]| == |t[1..][r]| {
          assert s[1..][r] == s[r + 1] && t[1..][r] == t[r + 1];
        }
      }
      SameShapeTotal(s[1..], t[1..]);
    }
  }

  /** A schedule shaped like the one generated for `ids` holds n(n-1)/2 matches. */
  lemma GeneratedTotal(schedule: seq<seq<Match>>, ids: seq<string>)
    ensures SameShape(schedule, Schedule(ids)) ==> 2 * TotalMatches(schedule) == |ids| * (|ids| - 1)
  {
    if SameShape(schedule, Schedule(ids)) {
      SameShapeTotal(schedule, Schedule(ids));
      TotalMatchesAfterGenerate(ids);
    }
  }

  /** The position of round `r`'s first match in the flattened schedule. */
  function Offset(schedule: seq<seq<Match>>, r: nat): nat
    requires r <= |schedule|
  {
    if r == 0 then 0 else Offset(schedule, r - 1) + |schedule[r - 1]|
  }

  /** `assign_referees` for one round, continuing the flattened count from `start`. */
  method AssignRound(round: seq<Match>, refereeIds: seq<string>, start: nat) returns (withRefs: seq<Match>)
    requires refereeIds != []
    ensures |withRefs| == |round|
    ensures forall k | 0 <= k < |round| ::
      withRefs[k] == round[k].(referee := Some(refereeIds[(start + k) % |refereeIds|]))
  {
    withRefs := round;
    var k := 0;
    while k < |round|
      invariant 0 <= k <= |round| && |withRefs| == |round|
      invariant forall q | 0 <= q < k :: withRefs[q] == round[q].(referee := Some(refereeIds[(start + q) % |refereeIds|]))
      invariant forall q | k <= q < |round| :: withRefs[q] == round[q]
    {
      withRefs := withRefs[k := round[k].(referee := Some(refereeIds[(start + k) % |refereeIds|]))];
      k := k + 1;
    }
  }

  /** The loop of `assign_referees` over all rounds, counting matches as it goes. */
  method AssignAll(rounds: seq<seq<Match>>, refereeIds: seq<string>) returns (withRefs: seq<seq<Match>>)
    requires refereeIds != []
    ensures |withRefs| == |rounds|
    ensures forall r | 0 <= r < |rounds| ::
      |withRefs[r]| == |rounds[r]|
      && forall k | 0 <= k < |rounds[r]| ::
        withRefs[r][k] == rounds[r][k].(referee := Some(refereeIds[(Offset(rounds, r) + k) % |refereeIds|]))
  {
    withRefs := [];
    var refIdx := 0;
    var r := 0;
    while r < |rounds|
      invariant 0 <= r <= |rounds| && |withRefs| == r && refIdx == Offset(rounds, r)
      invariant forall q | 0 <= q < r ::
        |withRefs[q]| == |rounds[q]|
        && forall k | 0 <= k < |rounds[q]| ::
          withRefs[q][k] == rounds[q][k].(referee := Some(refereeIds[(Offset(rounds, q) + k) % |refereeIds|]))
    {
      var round := AssignRound(rounds[r], refereeIds, refIdx);
      withRefs := withRefs + [round];
      refIdx := refIdx + |rounds[r]|;
      r := r + 1;
    }
  }

  /**
   * `after` is `before` with the referees of `assign_referees`: the i-th match of
   * the flattened schedule gets `refereeIds[i mod k]`, and nothing else changes.
   */
  predicate Refereed(before: seq<seq<Match>>, after: seq<seq<Match>>, refereeIds: seq<string>)
  {
    refereeIds != []
    && |after| == |before|
    && forall r | 0 <= r < |before| ::
      |after[r]| == |before[r]|
      && forall k | 0 <= k < |before[r]| ::
        after[r][k] == before[r][k].(referee := Some(refereeIds[(Offset(before, r) + k) % |refereeIds|]))
  }

  /** After `assign_referees` every match keeps its id and players and has one of the given referees. */
  lemma RefereedMatch(before: seq<seq<Match>>, after: seq<seq<Match>>, refereeIds: seq<string>, r: nat, k: nat)
    requires Refereed(before, after, refereeIds)
    requires r < |before| && k < |before[r]|
    ensures r < |after| && k < |after[r]|
    ensures after[r][k].matchId == before[r][k].matchId
    ensures after[r][k].playerA == before[r][k].playerA && after[r][k].playerB == before[r][k].playerB
    ensures after[r][k].referee.Some? && after[r][k].referee.value in refereeIds
  {
    var i := (Offset(before, r) + k) % |refereeIds|;
    assert after[r][k].referee == Some(refereeIds[i]);
  }

  predicate Involves(m: Match, player: string)
  {
    m.playerA == player || m.playerB == player
  }

  /** The position of the player's first match in a round, or `|round|` when there is none. */
  function FirstWith(round: seq<Match>, player: string): (k: nat)
    ensures k <= |round|
    ensures k < |round| ==> Involves(round[k], player)
    ensures forall q | 0 <= q < k :: !Involves(round[q], player)
  {
    if round == [] then 0
    else if Involves(round[0], player) then 0
    else 1 + FirstWith(round[1..], player)
  }

  /**
   * The first match from round `r` on that involves the player, in schedule
   * order: it lies in some round `q >= r`, no round between `r` and `q` has
   * one, and it is the earliest in round `q`.
   */
  function NextMatchFrom(schedule: seq<seq<Match>>, r: nat, player: string): (m: Option<Match>)
    decreases |schedule| - r
    ensures m.Some? ==>
      Involves(m.value, player)
      && exists q | r <= q < |schedule| ::
        FirstWith(schedule[q], player) < |schedule[q]| && m.value == schedule[q][FirstWith(schedule[q], player)]
        && forall q' | r <= q' < q :: FirstWith(schedule[q'], player) == |schedule[q']|
    ensures m.None? ==>
      forall q, k | r <= q < |schedule| && 0 <= k < |schedule[q]| :: !Involves(schedule[q][k], player)
  {
    if r >= |schedule| then None
    else
      var k := FirstWith(schedule[r], player);
      if k < |schedule[r]| then Some(schedule[r][k])
      else NextMatchFrom(schedule, r + 1, player)
  }

  /** A match as the dictionary the scheduler stores. */
  function MatchJson(m: Match): (j: Json)
    ensures j.JObj? && j.fields.Keys == {"match_id", "round_id", "player_a", "player_b", "referee_id"}
    ensures j.fields["referee_id"] == (if m.referee.Some? then JStr(m.referee.value) else JNull)
  {
    JObj(map["match_id" := JStr(m.matchId), "round_id" := JStr(m.roundId),
             "player_a" := JStr(m.playerA), "player_b" := JStr(m.playerB),
             "referee_id" := if m.referee.Some? then JStr(m.referee.value) else JNull])
  }

  /** The per-round entries of `get_schedule_summary`, numbered from `first`. */
  function RoundSummaries(schedule: seq<seq<Match>>, first: nat): (rs: seq<Json>)
    ensures |rs| == |schedule|
    ensures forall i | 0 <= i < |schedule| ::
      rs[i] == JObj(map["round_number" := JInt(first + i), "round_id" := JStr(RoundId(first + i)),
                        "matches" := JInt(|schedule[i]|)])
  {
    if schedule == [] then []
    else [JObj(map["round_number" := JInt(first), "round_id" := JStr(RoundId(first)), "matches" := JInt(|schedule[0]|)])]
         + RoundSummaries(schedule[1..], first + 1)
  }

  function StrList(ids: seq<string>): (j: seq<Json>)
    ensures |j| == |ids| && forall i | 0 <= i < |ids| :: j[i] == JStr(ids[i])
  {
    if ids == [] then [] else [JStr(ids[0])] + StrList(ids[1..])
  }

  class Scheduler {
    var schedule: seq<seq<Match>>
    var currentRound: nat
    var playerIds: seq<string>

    constructor()
      ensures schedule == [] && currentRound == 0 && playerIds == []
    {
      schedule := [];
      currentRound := 0;
      playerIds := [];
    }

    /**
     * `generate_schedule`: every call starts over; fewer than two players give
     * no rounds.
     */
    method GenerateSchedule(ids: seq<string>) returns (r: seq<seq<Match>>)
      modifies this
      ensures playerIds == ids && currentRound == 0
      ensures schedule == Schedule(ids) && r == schedule
    {
      playerIds := ids;
      schedule := [];
      currentRound := 0;
      if |ids| < 2 {
        return [];
      }
      var all := Combinations(ids);
      var rounds := PackRounds(all);
      schedule := rounds;
      r := schedule;
    }

    /**
     * `assign_referees`: the i-th match of the flattened schedule gets
     * `refereeIds[i mod k]`; an empty list changes nothing.
     */
    method AssignReferees(refereeIds: seq<string>)
      modifies this
      ensures currentRound == old(currentRound) && playerIds == old(playerIds)
      ensures refereeIds == [] ==> schedule == old(schedule)
      ensures refereeIds != [] ==> Refereed(old(schedule), schedule, refereeIds)
      ensures SameShape(schedule, old(schedule))
    {
      if refereeIds == [] {
        return;
      }
      var withRefs := AssignAll(schedule, refereeIds);
      schedule := withRefs;
    }

    /** `get_current_round`: None once the pointer is past the last round. */
    function GetCurrentRound(): (m: Option<seq<Match>>)
      reads this
      ensures m.Some? <==> currentRound < |schedule|
      ensures m.Some? ==> m.value == schedule[currentRound]
    {
      if currentRound < |schedule| then Some(schedule[currentRound]) else None
    }

    /** `advance_round`: move on, and say whether a round is left. */
    method AdvanceRound() returns (more: bool)
      modifies this
      ensures currentRound == old(currentRound) + 1
      ensures schedule == old(schedule) && playerIds == old(playerIds)
      ensures more <==> GetCurrentRound().Some?
    {
      currentRound := currentRound + 1;
      more := currentRound < |schedule|;
    }

    /** `get_total_rounds`: while the schedule is the generated one, no rounds means fewer than two players. */
    function GetTotalRounds(): (n: nat)
      reads this
      ensures SameShape(schedule, Schedule(playerIds)) ==> (n == 0 <==> |playerIds| < 2)
    {
      ScheduleNonEmpty(playerIds);
      |schedule|
    }

    /** `get_total_matches`: while the schedule is the generated one, one match per pair of players. */
    function GetTotalMatches(): (m: nat)
      reads this
      ensures SameShape(schedule, Schedule(playerIds)) ==> 2 * m == |playerIds| * (|playerIds| - 1)
    {
      GeneratedTotal(schedule, playerIds);
      TotalMatches(schedule)
    }

    /** `get_schedule_summary`: the round pointer is reported 1-based. */
    function GetScheduleSummary(): (j: Json)
      reads this
      ensures j.JObj? && j.fields.Keys == {"total_rounds", "total_matches", "current_round", "players", "rounds"}
      ensures j.fields["total_rounds"] == JInt(|schedule|) && j.fields["total_matches"] == JInt(TotalMatches(schedule))
      ensures j.fields["current_round"] == JInt(currentRound + 1)
    {
      JObj(map["total_rounds" := JInt(|schedule|), "total_matches" := JInt(TotalMatches(schedule)),
               "current_round" := JInt(currentRound + 1), "players" := JArr(StrList(playerIds)),
               "rounds" := JArr(RoundSummaries(schedule, 1))])
    }

    /** `get_player_next_match`: the two nested loops from the current round on. */
    method GetPlayerNextMatch(player: string) returns (m: Option<Match>)
      ensures m == NextMatchFrom(schedule, currentRound, player)
    {
      var roundIdx := currentRound;
      m := None;
      while roundIdx < |schedule| && m.None?
        invariant currentRound <= roundIdx
        invariant m.None? ==> NextMatchFrom(schedule, currentRound, player) == NextMatchFrom(schedule, roundIdx, player)
        invariant m.Some? ==> m == NextMatchFrom(schedule, currentRound, player)
        decreases |schedule| - roundIdx
      {
        var k := FirstInRound(schedule[roundIdx], player);
        if k < |schedule[roundIdx]| {
          m := Some(schedule[roundIdx][k]);
        }
        roundIdx := roundIdx + 1;
      }
    }
  }

  /** The inner loop of `get_player_next_match`: stop at the first match naming the player. */
  method FirstInRound(round: seq<Match>, player: string) returns (k: nat)
    ensures k == FirstWith(round, player)
  {
    k := 0;
    while k < |round| && !(round[k].playerA == player || round[k].playerB == player)
      invariant k <= FirstWith(round, player)
    {
      k := k + 1;
    }
  }

  /** Generating for n players schedules n(n-1)/2 matches. */
  lemma {:induction false} TotalMatchesAfterGenerate(ids: seq<string>)
    ensures 2 * TotalMatches(Schedule(ids)) == |ids| * (|ids| - 1)
  {
    if |ids| >= 2 {
      var all := Combinations(ids);
      CombinationsLength(ids);
      PackFacts(all);
      LabelledCount(Pack(all), 1);
      FlattenLength(Pack(all));
      assert |multiset(Flatten(Pack(all)))| == |multiset(all)|;
    } else {
      assert |ids| * (|ids| - 1) == 0;
    }
  }

  lemma {:induction false} LabelledCount(rounds: seq<seq<Pairing>>, first: nat)
    ensures TotalMatches(LabelRounds(rounds, first)) == |Flatten(rounds)|
  {
    if rounds != [] {
      LabelledCount(rounds[1..], first + 1);
      assert LabelRounds(rounds, first)[1..] == LabelRounds(rounds[1..], first + 1);
    }
  }

  lemma FlattenLength(rounds: seq<seq<Pairing>>)
    ensures |multiset(Flatten(rounds))| == |Flatten(rounds)|
  {
  }

  /**
   * Match k of round i in a generated schedule is `R{i+1}M{k+1}` of
   * `ROUND_{i+1}`, unrefereed, between the players of the k-th pair the
   * packing put into round i.
   */
  lemma ScheduledMatch(ids: seq<string>, i: nat, k: nat)
    requires |ids| >= 2 && i < |Schedule(ids)| && k < |Schedule(ids)[i]|
    ensures var packed := Pack(Combinations(ids));
      i < |packed| && k < |packed[i]|
      && Schedule(ids)[i][k] == Match(MatchId(i + 1, k + 1), RoundId(i + 1), packed[i][k].a, packed[i][k].b, None)
  {
    var packed := Pack(Combinations(ids));
    assert Schedule(ids) == LabelRounds(packed, 1);
    LabelledMatch(packed, i, k);
  }

  lemma LabelledMatch(rounds: seq<seq<Pairing>>, i: nat, k: nat)
    requires i < |rounds| && k < |LabelRounds(rounds, 1)[i]|
    ensures k < |rounds[i]|
    ensures LabelRounds(rounds, 1)[i][k] == Match(MatchId(i + 1, k + 1), RoundId(i + 1), rounds[i][k].a, rounds[i][k].b, None)
  {
    LabelRoundsAt(rounds, 1, i);
    LabelAt(rounds[i], i + 1, k);
  }

  /** Within one round of a generated schedule no player appears in two matches. */
  lemma ScheduledRoundDisjoint(ids: seq<string>, i: nat, k1: nat, k2: nat)
    requires |ids| >= 2 && i < |Schedule(ids)| && k1 < k2 < |Schedule(ids)[i]|
    ensures var m1, m2 := Schedule(ids)[i][k1], Schedule(ids)[i][k2];
      m1.playerA != m2.playerA && m1.playerA != m2.playerB && m1.playerB != m2.playerA && m1.playerB != m2.playerB
  {
    var packed := Pack(Combinations(ids));
    ScheduledMatch(ids, i, k1);
    ScheduledMatch(ids, i, k2);
    PackFacts(Combinations(ids));
    assert packed[i] in packed;
  }

  /** Two players or more always get at least one round. */
  lemma ScheduleNonEmpty(ids: seq<string>)
    ensures Schedule(ids) == [] <==> |ids| < 2
  {
    if |ids| >= 2 {
      TotalMatchesAfterGenerate(ids);
      assert |ids| * (|ids| - 1) > 0 by {
        assert |ids| - 1 >= 1;
      }
    }
  }

  /** Every generated round holds at least one match. */
  lemma ScheduledRoundsNonEmpty(ids: seq<string>, i: nat)
    requires i < |Schedule(ids)|
    ensures Schedule(ids)[i] != []
  {
    var packed := Pack(Combinations(ids));
    LabelRoundsAt(packed, 1, i);
    PackFacts(Combinations(ids));
    assert packed[i] in packed;
  }
}
