/**
 * The league simulation: players and referees are registered in a
 * dictionary each, `generate_schedule` appends the greedy round-robin
 * packing to the schedule, the sequential run hands every match to a
 * referee chosen by its position in its round, and `get_standings` ranks
 * the players' tallies.
 */
module SimLeague {
  import opened Wrappers
  import opened RoundRobin
  import opened Ranking
  import LeagueScheduler
  import SimPlayer
  import EvenOdd

  /** One match dict of the simulation's schedule; unlike the manager's it carries `round_num`. */
  datatype SimMatch = SimMatch(matchId: string, roundId: string, roundNum: nat, playerA: string, playerB: string)

  /** A scheduler match of round `r` in the simulation's shape. */
  function Tag(m: LeagueScheduler.Match, r: nat): SimMatch
  {
    SimMatch(m.matchId, m.roundId, r, m.playerA, m.playerB)
  }

  function TagRound(ms: seq<LeagueScheduler.Match>, r: nat): (ts: seq<SimMatch>)
    ensures |ts| == |ms| && forall k | 0 <= k < |ms| :: ts[k] == Tag(ms[k], r)
  {
    seq(|ms|, k requires 0 <= k < |ms| => Tag(ms[k], r))
  }

  /** Rounds numbered `first`, `first + 1`, ... */
  function TagRounds(rounds: seq<seq<LeagueScheduler.Match>>, first: nat): (ts: seq<seq<SimMatch>>)
    ensures |ts| == |rounds| && forall i | 0 <= i < |rounds| :: ts[i] == TagRound(rounds[i], first + i)
  {
    seq(|rounds|, i requires 0 <= i < |rounds| => TagRound(rounds[i], first + i))
  }

  /** The rounds one `generate_schedule` call produces for these player ids. */
  function SimSchedule(ids: seq<string>): seq<seq<SimMatch>>
  {
    TagRounds(LeagueScheduler.LabelRounds(Pack(Combinations(ids)), 1), 1)
  }

  /**
   * Match k of round i of one call's rounds is `R{i+1}M{k+1}` of
   * `ROUND_{i+1}` with round_num i + 1, between the players of the k-th pair
   * the packing put into round i.
   */
  lemma SimScheduleMatch(ids: seq<string>, i: nat, k: nat)
    requires i < |SimSchedule(ids)| && k < |SimSchedule(ids)[i]|
    ensures var packed := Pack(Combinations(ids));
      i < |packed| && k < |packed[i]|
      && SimSchedule(ids)[i][k] == SimMatch(LeagueScheduler.MatchId(i + 1, k + 1), LeagueScheduler.RoundId(i + 1), i + 1,
                                            packed[i][k].a, packed[i][k].b)
  {
    var packed := Pack(Combinations(ids));
    LeagueScheduler.LabelledMatch(packed, i, k);
  }

  /** No player appears in two matches of one generated round. */
  lemma SimRoundDisjoint(ids: seq<string>, i: nat, k1: nat, k2: nat)
    requires i < |SimSchedule(ids)| && k1 < k2 < |SimSchedule(ids)[i]|
    ensures var m1, m2 := SimSchedule(ids)[i][k1], SimSchedule(ids)[i][k2];
      m1.playerA != m2.playerA && m1.playerA != m2.playerB && m1.playerB != m2.playerA && m1.playerB != m2.playerB
  {
    var packed := Pack(Combinations(ids));
    SimScheduleMatch(ids, i, k1);
    SimScheduleMatch(ids, i, k2);
    PackFacts(Combinations(ids));
    assert packed[i] in packed;
  }

  /** `len(round_matches)` summed over the first n rounds. */
  function MatchesBefore(schedule: seq<seq<SimMatch>>, n: nat): nat
    requires n <= |schedule|
  {
    if n == 0 then 0 else MatchesBefore(schedule, n - 1) + |schedule[n - 1]|
  }

  /**
   * An entry of `match_results`: the dictionary `conduct_match` returns, with
   * `result["round_num"] = round_num; result["referee"] = referee_id` added.
   */
  datatype Stamped = Stamped(result: MatchResult, roundNum: nat, referee: string)

  function Stamp(result: MatchResult, roundNum: nat, referee: string): Stamped
  {
    Stamped(result, roundNum, referee)
  }

  /** The referee of the match at position k of its round. */
  function RefereeFor(refereeIds: seq<string>, k: nat): string
    requires refereeIds != []
  {
    refereeIds[k % |refereeIds|]
  }

  /**
   * The random inputs of one match: the coins of player A's and player B's
   * `random.choice`, and the offset `randint` draws the number with.
   */
  datatype Luck = Luck(coinA: bool, coinB: bool, offset: nat)

  /**
   * The dictionary `conduct_match` returns, one field per key: match_id,
   * player_a, player_b, choice_a, choice_b, drawn_number, number_parity,
   * result_a, result_b and winner (None for a draw).
   */
  datatype MatchResult = MatchResult(matchId: string, playerA: string, playerB: string,
                                     choiceA: string, choiceB: string, drawnNumber: int, numberParity: string,
                                     resultA: string, resultB: string, winner: Option<string>)

  function ConductResult(matchId: string, aId: string, bId: string, o: EvenOdd.MatchOutcome): MatchResult
  {
    MatchResult(matchId, aId, bId, o.playerAChoice, o.playerBChoice, o.drawnNumber, o.numberParity,
                o.playerAResult, o.playerBResult, o.winnerId)
  }

  /** A player as a match sees it: its id and its strategy. */
  datatype Entrant = Entrant(playerId: string, strategy: string)

  /** What a match returns and the tallies of every player afterwards, keyed by player id. */
  datatype Conducted = Conducted(result: MatchResult, tallies: map<string, SimPlayer.Tally>)

  /** The tally of a new player: no games, no points, last choice "even", no opponent seen. */
  const Unplayed := SimPlayer.Tally(0, 0, 0, 0, "even", map[])

  /** The tally of a player; one without a tally counts as a new player. */
  function TallyOf(ts: map<string, SimPlayer.Tally>, id: string): SimPlayer.Tally
  {
    if id in ts then ts[id] else Unplayed
  }

  /**
   * `conduct_match(a, b, match_id)` on the tallies of the players: A
   * chooses, then B, the default game decides with a drawn number, then A
   * and B each record their result and the other's choice. A player drawn
   * against itself acts on its one tally twice.
   */
  function Conduct(ts: map<string, SimPlayer.Tally>, a: Entrant, b: Entrant, matchId: string, luck: Luck): (c: Conducted)
    ensures c.tallies.Keys == ts.Keys + {a.playerId, b.playerId}
    ensures forall id | id in ts && id != a.playerId && id != b.playerId :: c.tallies[id] == ts[id]
  {
    var (choiceA, ta) := SimPlayer.Chosen(a.strategy, TallyOf(ts, a.playerId), b.playerId, luck.coinA);
    var ts1 := ts[a.playerId := ta];
    var (choiceB, tb) := SimPlayer.Chosen(b.strategy, TallyOf(ts1, b.playerId), a.playerId, luck.coinB);
    var ts2 := ts1[b.playerId := tb];
    var number := EvenOdd.DrawNumber(EvenOdd.DefaultGame, luck.offset).value;
    var o := EvenOdd.Decide(a.playerId, choiceA, b.playerId, choiceB, number);
    var ts3 := ts2[a.playerId := SimPlayer.Recorded(ts2[a.playerId], o.playerAResult, b.playerId, choiceB)];
    var ts4 := ts3[b.playerId := SimPlayer.Recorded(ts3[b.playerId], o.playerBResult, a.playerId, choiceA)];
    Conducted(ConductResult(matchId, a.playerId, b.playerId, o), ts4)
  }

  /**
   * The referee's `conduct_match`, step by step on the tallies: player A
   * chooses, then player B, the default game draws a number with the given
   * random inputs and decides, then A and B each record their result and
   * the other's choice.
   */
  method ConductMatch(ts: map<string, SimPlayer.Tally>, a: Entrant, b: Entrant, matchId: string, luck: Luck)
    returns (result: MatchResult, tallies: map<string, SimPlayer.Tally>)
    requires a.playerId in ts && b.playerId in ts
    ensures Conducted(result, tallies) == Conduct(ts, a, b, matchId, luck)
  {
    tallies := ts;
    var (choiceA, tallyA) := SimPlayer.Chosen(a.strategy, tallies[a.playerId], b.playerId, luck.coinA);
    tallies := tallies[a.playerId := tallyA];
    var (choiceB, tallyB) := SimPlayer.Chosen(b.strategy, tallies[b.playerId], a.playerId, luck.coinB);
    tallies := tallies[b.playerId := tallyB];
    var outcome := EvenOdd.DetermineMatchOutcome(EvenOdd.DefaultGame, a.playerId, choiceA, b.playerId, choiceB,
                                                 None, luck.offset).value;
    assert StepsOf(ts, a, b, luck) == Steps(choiceA, choiceB, outcome, tallies);
    tallies := tallies[a.playerId := SimPlayer.Recorded(tallies[a.playerId], outcome.playerAResult, b.playerId, choiceB)];
    tallies := tallies[b.playerId := SimPlayer.Recorded(tallies[b.playerId], outcome.playerBResult, a.playerId, choiceA)];
    result := ConductResult(matchId, a.playerId, b.playerId, outcome);
    ConductSteps(ts, a, b, matchId, luck);
  }

  /** The result names the match and its two players, and the number drawn lies in 1..10. */
  lemma ConductResultFields(ts: map<string, SimPlayer.Tally>, a: Entrant, b: Entrant, matchId: string, luck: Luck)
    ensures var r := Conduct(ts, a, b, matchId, luck).result;
      && r.matchId == matchId && r.playerA == a.playerId && r.playerB == b.playerId
      && 1 <= r.drawnNumber <= 10 && r.numberParity == EvenOdd.GetParity(r.drawnNumber)
      && (r.winner.None? <==> r.resultA == "DRAW")
  {
    ConductSteps(ts, a, b, matchId, luck);
  }

  /** The steps of `conduct_match` on the tallies, named. */
  datatype Steps = Steps(choiceA: string, choiceB: string, o: EvenOdd.MatchOutcome,
                         afterChoices: map<string, SimPlayer.Tally>)

  function StepsOf(ts: map<string, SimPlayer.Tally>, a: Entrant, b: Entrant, luck: Luck): Steps
  {
    var (choiceA, ta) := SimPlayer.Chosen(a.strategy, TallyOf(ts, a.playerId), b.playerId, luck.coinA);
    var ts1 := ts[a.playerId := ta];
    var (choiceB, tb) := SimPlayer.Chosen(b.strategy, TallyOf(ts1, b.playerId), a.playerId, luck.coinB);
    var number := EvenOdd.DrawNumber(EvenOdd.DefaultGame, luck.offset).value;
    Steps(choiceA, choiceB, EvenOdd.Decide(a.playerId, choiceA, b.playerId, choiceB, number), ts1[b.playerId := tb])
  }

  /** Conduct is the two choices followed by the two recordings. */
  lemma ConductSteps(ts: map<string, SimPlayer.Tally>, a: Entrant, b: Entrant, matchId: string, luck: Luck)
    ensures var st := StepsOf(ts, a, b, luck);
      var ts2 := st.afterChoices;
      var ts3 := ts2[a.playerId := SimPlayer.Recorded(ts2[a.playerId], st.o.playerAResult, b.playerId, st.choiceB)];
      && Conduct(ts, a, b, matchId, luck).tallies
         == ts3[b.playerId := SimPlayer.Recorded(ts3[b.playerId], st.o.playerBResult, a.playerId, st.choiceA)]
      && Conduct(ts, a, b, matchId, luck).result == ConductResult(matchId, a.playerId, b.playerId, st.o)
  {
  }

  /**
   * Two distinct players each play one more game, counted as the result
   * reports it: a win for "WIN", a draw for "DRAW", a loss otherwise.
   */
  lemma ConductCountsBoth(ts: map<string, SimPlayer.Tally>, a: Entrant, b: Entrant, matchId: string, luck: Luck)
    requires a.playerId in ts && b.playerId in ts && a.playerId != b.playerId
    ensures var c := Conduct(ts, a, b, matchId, luck);
      var (ta, tb) := (ts[a.playerId], ts[b.playerId]);
      var (ca, cb) := (c.tallies[a.playerId], c.tallies[b.playerId]);
      && ca.Games() == ta.Games() + 1 && cb.Games() == tb.Games() + 1
      && ca.wins == ta.wins + (if c.result.resultA == "WIN" then 1 else 0)
      && cb.wins == tb.wins + (if c.result.resultB == "WIN" then 1 else 0)
      && ca.draws == ta.draws + (if c.result.resultA == "DRAW" then 1 else 0)
      && cb.draws == tb.draws + (if c.result.resultB == "DRAW" then 1 else 0)
  {
    ConductSteps(ts, a, b, matchId, luck);
  }

  /** A player drawn against itself plays two games in one match. */
  lemma ConductCountsSelf(ts: map<string, SimPlayer.Tally>, a: Entrant, matchId: string, luck: Luck)
    requires a.playerId in ts
    ensures Conduct(ts, a, a, matchId, luck).tallies[a.playerId].Games() == ts[a.playerId].Games() + 2
  {
    ConductSteps(ts, a, a, matchId, luck);
  }

  /** Every tally with points = 3·wins + draws keeps that after a match. */
  lemma ConductKeepsPoints(ts: map<string, SimPlayer.Tally>, a: Entrant, b: Entrant, matchId: string, luck: Luck,
                           id: string)
    requires a.playerId in ts && b.playerId in ts && id in ts && ts[id].points == 3 * ts[id].wins + ts[id].draws
    ensures var t := Conduct(ts, a, b, matchId, luck).tallies[id];
      t.points == 3 * t.wins + t.draws
  {
    ConductSteps(ts, a, b, matchId, luck);
  }

  /** A way of conducting one match on the tallies of the players. */
  type Conductor = (map<string, SimPlayer.Tally>, Entrant, Entrant, string, Luck) -> Conducted

  /** The results handed out so far and the tallies they leave. */
  datatype Played = Played(results: seq<Stamped>, tallies: map<string, SimPlayer.Tally>)

  /** Both players of every match of a round are registered. */
  predicate Seated(round: seq<SimMatch>, ids: set<string>)
  {
    forall k | 0 <= k < |round| :: round[k].playerA in ids && round[k].playerB in ids
  }

  /**
   * The first n matches of a round, in match order, from tallies `ts`: each
   * is conducted on the tallies the earlier ones left, with the random
   * inputs `luck(start + k)`, and its result is stamped with the round and
   * the referee at its position.
   */
  function PlayedRound(round: seq<SimMatch>, n: nat, roundNum: nat, refereeIds: seq<string>,
                       entrants: map<string, Entrant>, ts: map<string, SimPlayer.Tally>,
                       luck: nat -> Luck, start: nat, conduct: Conductor): (p: Played)
    requires refereeIds != [] && n <= |round| && Seated(round, entrants.Keys)
    ensures |p.results| == n
  {
    if n == 0 then Played([], ts)
    else
      var before := PlayedRound(round, n - 1, roundNum, refereeIds, entrants, ts, luck, start, conduct);
      var m := round[n - 1];
      var c := conduct(before.tallies, entrants[m.playerA], entrants[m.playerB], m.matchId, luck(start + n - 1));
      Played(before.results + [Stamp(c.result, roundNum, RefereeFor(refereeIds, n - 1))], c.tallies)
  }

  /** The first n rounds, round after round, rounds numbered from 1 and the random inputs counted across rounds. */
  function PlayedLeague(schedule: seq<seq<SimMatch>>, n: nat, refereeIds: seq<string>,
                        entrants: map<string, Entrant>, ts: map<string, SimPlayer.Tally>,
                        luck: nat -> Luck, conduct: Conductor): (p: Played)
    requires refereeIds != [] && n <= |schedule|
    requires forall i | 0 <= i < |schedule| :: Seated(schedule[i], entrants.Keys)
  {
    if n == 0 then Played([], ts)
    else
      var before := PlayedLeague(schedule, n - 1, refereeIds, entrants, ts, luck, conduct);
      var last := PlayedRound(schedule[n - 1], |schedule[n - 1]|, n, refereeIds, entrants, before.tallies,
                              luck, MatchesBefore(schedule, n - 1), conduct);
      Played(before.results + last.results, last.tallies)
  }

  /**
   * Match k of a round, conducted on the tallies the first k matches of the
   * round left, stamped with the round and the referee at k mod the referee
   * count.
   */
  function PlayedMatch(round: seq<SimMatch>, k: nat, roundNum: nat, refereeIds: seq<string>,
                       entrants: map<string, Entrant>, ts: map<string, SimPlayer.Tally>,
                       luck: nat -> Luck, start: nat, conduct: Conductor): Stamped
    requires refereeIds != [] && k < |round| && Seated(round, entrants.Keys)
  {
    var earlier := PlayedRound(round, k, roundNum, refereeIds, entrants, ts, luck, start, conduct).tallies;
    var m := round[k];
    Stamp(conduct(earlier, entrants[m.playerA], entrants[m.playerB], m.matchId, luck(start + k)).result,
          roundNum, RefereeFor(refereeIds, k))
  }

  /** One more match of a round appends its stamped result and moves on to the tallies it leaves. */
  lemma PlayedRoundNext(round: seq<SimMatch>, n: nat, roundNum: nat, refereeIds: seq<string>,
                        entrants: map<string, Entrant>, ts: map<string, SimPlayer.Tally>,
                        luck: nat -> Luck, start: nat, conduct: Conductor, c: Conducted)
    requires refereeIds != [] && n < |round| && Seated(round, entrants.Keys)
    requires c == conduct(PlayedRound(round, n, roundNum, refereeIds, entrants, ts, luck, start, conduct).tallies,
                          entrants[round[n].playerA], entrants[round[n].playerB], round[n].matchId, luck(start + n))
    ensures PlayedRound(round, n + 1, roundNum, refereeIds, entrants, ts, luck, start, conduct)
            == Played(PlayedRound(round, n, roundNum, refereeIds, entrants, ts, luck, start, conduct).results
                      + [Stamp(c.result, roundNum, RefereeFor(refereeIds, n))], c.tallies)
  {
  }

  /**
   * Match k of the round loop: it goes to the referee at k mod the referee
   * count, is conducted on the tallies the first k matches left, and its
   * stamped result is appended.
   */
  method PlayNextMatch(round: seq<SimMatch>, k: nat, roundNum: nat, refereeIds: seq<string>,
                       entrants: map<string, Entrant>, ts: map<string, SimPlayer.Tally>, luck: nat -> Luck, start: nat,
                       results: seq<Stamped>, tallies: map<string, SimPlayer.Tally>)
    returns (nextResults: seq<Stamped>, nextTallies: map<string, SimPlayer.Tally>)
    requires refereeIds != [] && k < |round| && Seated(round, entrants.Keys) && tallies.Keys == entrants.Keys
    requires forall id | id in entrants :: entrants[id].playerId == id
    requires Played(results, tallies) == PlayedRound(round, k, roundNum, refereeIds, entrants, ts, luck, start, Conduct)
    ensures Played(nextResults, nextTallies)
            == PlayedRound(round, k + 1, roundNum, refereeIds, entrants, ts, luck, start, Conduct)
    ensures nextTallies.Keys == tallies.Keys
  {
    var m := round[k];
    var refereeId := refereeIds[k % |refereeIds|];
    var result, after := ConductMatch(tallies, entrants[m.playerA], entrants[m.playerB], m.matchId, luck(start + k));
    PlayedRoundNext(round, k, roundNum, refereeIds, entrants, ts, luck, start, Conduct, Conducted(result, after));
    nextResults, nextTallies := results + [Stamp(result, roundNum, refereeId)], after;
  }

  /**
   * The match loop of one round on the players' tallies: match k goes to
   * the referee at k mod the referee count, is conducted with the random
   * inputs `luck(start + k)`, and its stamped result is appended.
   */
  method PlayRoundMatches(round: seq<SimMatch>, roundNum: nat, refereeIds: seq<string>,
                          entrants: map<string, Entrant>, ts: map<string, SimPlayer.Tally>, luck: nat -> Luck, start: nat)
    returns (results: seq<Stamped>, tallies: map<string, SimPlayer.Tally>)
    requires refereeIds != [] && Seated(round, entrants.Keys) && ts.Keys == entrants.Keys
    requires forall id | id in entrants :: entrants[id].playerId == id
    ensures Played(results, tallies) == PlayedRound(round, |round|, roundNum, refereeIds, entrants, ts, luck, start, Conduct)
    ensures tallies.Keys == ts.Keys
  {
    results, tallies := [], ts;
    var matchIdx := 0;
    while matchIdx < |round|
      invariant 0 <= matchIdx <= |round| && tallies.Keys == entrants.Keys
      invariant Played(results, tallies)
                == PlayedRound(round, matchIdx, roundNum, refereeIds, entrants, ts, luck, start, Conduct)
    {
      results, tallies := PlayNextMatch(round, matchIdx, roundNum, refereeIds, entrants, ts, luck, start, results, tallies);
      matchIdx := matchIdx + 1;
    }
  }

  /** Round i of the rounds loop: its matches are played on the tallies the earlier rounds left and its results appended. */
  method PlayNextRound(schedule: seq<seq<SimMatch>>, i: nat, refereeIds: seq<string>, entrants: map<string, Entrant>,
                       ts: map<string, SimPlayer.Tally>, luck: nat -> Luck,
                       results: seq<Stamped>, tallies: map<string, SimPlayer.Tally>)
    returns (nextResults: seq<Stamped>, nextTallies: map<string, SimPlayer.Tally>)
    requires refereeIds != [] && i < |schedule| && tallies.Keys == entrants.Keys
    requires forall id | id in entrants :: entrants[id].playerId == id
    requires forall r | 0 <= r < |schedule| :: Seated(schedule[r], entrants.Keys)
    requires Played(results, tallies) == PlayedLeague(schedule, i, refereeIds, entrants, ts, luck, Conduct)
    ensures Played(nextResults, nextTallies) == PlayedLeague(schedule, i + 1, refereeIds, entrants, ts, luck, Conduct)
    ensures nextTallies.Keys == tallies.Keys
  {
    var roundResults, after := PlayRoundMatches(schedule[i], i + 1, refereeIds, entrants, tallies, luck,
                                                MatchesBefore(schedule, i));
    nextResults, nextTallies := results + roundResults, after;
  }

  /**
   * The rounds loop of `_run_league_sequential` with at least one referee,
   * on the players' tallies: round i is numbered i + 1 and its random
   * inputs continue the count of the matches before it.
   */
  method PlayLeague(schedule: seq<seq<SimMatch>>, refereeIds: seq<string>, entrants: map<string, Entrant>,
                    ts: map<string, SimPlayer.Tally>, luck: nat -> Luck)
    returns (results: seq<Stamped>, tallies: map<string, SimPlayer.Tally>)
    requires refereeIds != [] && ts.Keys == entrants.Keys
    requires forall id | id in entrants :: entrants[id].playerId == id
    requires forall i | 0 <= i < |schedule| :: Seated(schedule[i], entrants.Keys)
    ensures Played(results, tallies) == PlayedLeague(schedule, |schedule|, refereeIds, entrants, ts, luck, Conduct)
    ensures tallies.Keys == ts.Keys
  {
    results, tallies := [], ts;
    var roundIdx := 0;
    while roundIdx < |schedule|
      invariant 0 <= roundIdx <= |schedule| && tallies.Keys == ts.Keys
      invariant Played(results, tallies) == PlayedLeague(schedule, roundIdx, refereeIds, entrants, ts, luck, Conduct)
    {
      results, tallies := PlayNextRound(schedule, roundIdx, refereeIds, entrants, ts, luck, results, tallies);
      roundIdx := roundIdx + 1;
    }
  }

  /** Every scheduled match leaves exactly one result. */
  lemma {:induction false} PlayedLeagueCount(schedule: seq<seq<SimMatch>>, n: nat, refereeIds: seq<string>,
                                             entrants: map<string, Entrant>,
                                             ts: map<string, SimPlayer.Tally>, luck: nat -> Luck, conduct: Conductor)
    requires refereeIds != [] && n <= |schedule|
    requires forall i | 0 <= i < |schedule| :: Seated(schedule[i], entrants.Keys)
    ensures |PlayedLeague(schedule, n, refereeIds, entrants, ts, luck, conduct).results| == MatchesBefore(schedule, n)
  {
    if n > 0 {
      PlayedLeagueCount(schedule, n - 1, refereeIds, entrants, ts, luck, conduct);
    }
  }

  /**
   * The k-th result of a round is match k conducted on the tallies the first
   * k matches left, stamped with the referee at k mod the referee count.
   */
  lemma {:induction false} PlayedRoundAt(round: seq<SimMatch>, n: nat, roundNum: nat, refereeIds: seq<string>,
                                         entrants: map<string, Entrant>,
                                         ts: map<string, SimPlayer.Tally>, luck: nat -> Luck, start: nat,
                                         k: nat, conduct: Conductor)
    requires refereeIds != [] && k < n <= |round| && Seated(round, entrants.Keys)
    ensures PlayedRound(round, n, roundNum, refereeIds, entrants, ts, luck, start, conduct).results[k]
            == PlayedMatch(round, k, roundNum, refereeIds, entrants, ts, luck, start, conduct)
  {
    if k < n - 1 {
      PlayedRoundAt(round, n - 1, roundNum, refereeIds, entrants, ts, luck, start, k, conduct);
    }
  }

  /** Playing more rounds only appends to the results of the earlier rounds. */
  lemma {:induction false} PlayedLeaguePrefix(schedule: seq<seq<SimMatch>>, j: nat, n: nat, refereeIds: seq<string>,
                                              entrants: map<string, Entrant>,
                                              ts: map<string, SimPlayer.Tally>, luck: nat -> Luck,
                                              conduct: Conductor)
    requires refereeIds != [] && j <= n <= |schedule|
    requires forall r | 0 <= r < |schedule| :: Seated(schedule[r], entrants.Keys)
    ensures var rs := PlayedLeague(schedule, j, refereeIds, entrants, ts, luck, conduct).results;
      rs <= PlayedLeague(schedule, n, refereeIds, entrants, ts, luck, conduct).results
  {
    if j < n {
      PlayedLeaguePrefix(schedule, j, n - 1, refereeIds, entrants, ts, luck, conduct);
    }
  }

  /** The results of round i follow the results of the rounds before it, in match order. */
  lemma PlayedLeagueLastRound(schedule: seq<seq<SimMatch>>, i: nat, refereeIds: seq<string>,
                              entrants: map<string, Entrant>,
                              ts: map<string, SimPlayer.Tally>, luck: nat -> Luck,
                              k: nat, conduct: Conductor)
    requires refereeIds != [] && i < |schedule| && k < |schedule[i]|
    requires forall r | 0 <= r < |schedule| :: Seated(schedule[r], entrants.Keys)
    ensures var rs := PlayedLeague(schedule, i + 1, refereeIds, entrants, ts, luck, conduct).results;
      var roundStart := PlayedLeague(schedule, i, refereeIds, entrants, ts, luck, conduct).tallies;
      MatchesBefore(schedule, i) + k < |rs|
      && rs[MatchesBefore(schedule, i) + k]
         == PlayedMatch(schedule[i], k, i + 1, refereeIds, entrants, roundStart, luck, MatchesBefore(schedule, i), conduct)
  {
    var before := PlayedLeague(schedule, i, refereeIds, entrants, ts, luck, conduct);
    var last := PlayedRound(schedule[i], |schedule[i]|, i + 1, refereeIds, entrants, before.tallies,
                            luck, MatchesBefore(schedule, i), conduct);
    var upTo := PlayedLeague(schedule, i + 1, refereeIds, entrants, ts, luck, conduct).results;
    assert upTo == before.results + last.results;
    PlayedLeagueCount(schedule, i, refereeIds, entrants, ts, luck, conduct);
    PlayedRoundAt(schedule[i], |schedule[i]|, i + 1, refereeIds, entrants, before.tallies, luck,
                  MatchesBefore(schedule, i), k, conduct);
    assert upTo[|before.results| + k] == last.results[k];
  }

  /**
   * Match k of round i leaves the result at position (matches before round
   * i) + k: that match conducted on the tallies everything before it left,
   * with round_num i + 1 and referee `refereeIds[k mod len]`, the referee
   * count restarting with every round.
   */
  lemma PlayedLeagueAt(schedule: seq<seq<SimMatch>>, n: nat, refereeIds: seq<string>,
                       entrants: map<string, Entrant>,
                       ts: map<string, SimPlayer.Tally>, luck: nat -> Luck,
                       i: nat, k: nat, conduct: Conductor)
    requires refereeIds != [] && i < n <= |schedule| && k < |schedule[i]|
    requires forall r | 0 <= r < |schedule| :: Seated(schedule[r], entrants.Keys)
    ensures var rs := PlayedLeague(schedule, n, refereeIds, entrants, ts, luck, conduct).results;
      var roundStart := PlayedLeague(schedule, i, refereeIds, entrants, ts, luck, conduct).tallies;
      MatchesBefore(schedule, i) + k < |rs|
      && rs[MatchesBefore(schedule, i) + k]
         == PlayedMatch(schedule[i], k, i + 1, refereeIds, entrants, roundStart, luck, MatchesBefore(schedule, i), conduct)
  {
    PlayedLeagueLastRound(schedule, i, refereeIds, entrants, ts, luck, k, conduct);
    PlayedLeaguePrefix(schedule, i + 1, n, refereeIds, entrants, ts, luck, conduct);
  }

  /** One row of `get_standings`. */
  datatype SimRow = SimRow(rank: nat, playerId: string, displayName: string, strategy: string,
                           played: nat, wins: nat, draws: nat, losses: nat, points: nat)

  function SimRowKey(r: SimRow): Key
  {
    Key(r.points, r.wins)
  }

  /** The part of a registered player that never changes: its id, name, strategy and token. */
  datatype Profile = Profile(playerId: string, displayName: string, strategy: string, authToken: string)

  /** The unranked row of one player, with played = wins + draws + losses. */
  function RowOf(id: string, p: Profile, t: SimPlayer.Tally): SimRow
  {
    SimRow(0, id, p.displayName, p.strategy, t.Games(), t.wins, t.draws, t.losses, t.points)
  }

  /** The unranked rows, in dictionary order. */
  function Unranked(order: seq<string>, players: map<string, Profile>, tallies: map<string, SimPlayer.Tally>)
    : (rows: seq<SimRow>)
    requires forall id | id in order :: id in players && id in tallies
    ensures |rows| == |order|
    ensures forall i | 0 <= i < |order| :: rows[i] == RowOf(order[i], players[order[i]], tallies[order[i]])
  {
    if order == [] then []
    else
      var id := order[|order| - 1];
      Unranked(order[..|order| - 1], players, tallies) + [RowOf(id, players[id], tallies[id])]
  }

  /**
   * The table `get_standings` returns lists every player once, ranked 1..n,
   * with played = wins + draws + losses, no row strictly ahead (points, then
   * wins) of an earlier one, and players tied on both in registration order.
   */
  lemma StandingsTable(unranked: seq<SimRow>, rows: seq<SimRow>, k: Key)
    requires forall i | 0 <= i < |unranked| :: unranked[i].played == unranked[i].wins + unranked[i].draws + unranked[i].losses
    requires |rows| == |unranked|
    requires forall i | 0 <= i < |rows| :: rows[i] == Sort(unranked, SimRowKey)[i].(rank := i + 1)
    ensures forall i | 0 <= i < |rows| :: rows[i].rank == i + 1 && rows[i].played == rows[i].wins + rows[i].draws + rows[i].losses
    ensures forall i, j | 0 <= i < j < |rows| :: !Ahead(SimRowKey(rows[j]), SimRowKey(rows[i]))
    ensures multiset(Sort(unranked, SimRowKey)) == multiset(unranked)
    ensures WithKey(Sort(unranked, SimRowKey), SimRowKey, k) == WithKey(unranked, SimRowKey, k)
  {
    var sorted := Sort(unranked, SimRowKey);
    SortRanked(unranked, SimRowKey);
    SortStable(unranked, SimRowKey, k);
    forall i | 0 <= i < |rows| ensures rows[i].played == rows[i].wins + rows[i].draws + rows[i].losses {
      assert sorted[i] in multiset(unranked);
      var j :| 0 <= j < |unranked| && unranked[j] == sorted[i];
    }
    forall i, j | 0 <= i < j < |rows| ensures !Ahead(SimRowKey(rows[j]), SimRowKey(rows[i])) {
      assert SimRowKey(rows[j]) == SimRowKey(sorted[j]) && SimRowKey(rows[i]) == SimRowKey(sorted[i]);
    }
  }

  /** Both players of every generated match are among the ids it was generated for. */
  lemma SimSchedulePlayers(ids: seq<string>, i: nat, k: nat)
    requires i < |SimSchedule(ids)| && k < |SimSchedule(ids)[i]|
    ensures SimSchedule(ids)[i][k].playerA in ids && SimSchedule(ids)[i][k].playerB in ids
  {
    var packed := Pack(Combinations(ids));
    SimScheduleMatch(ids, i, k);
    InFlatten(packed, i, k);
    OnlyPairsOfPlayers(ids, packed[i][k]);
  }

  /** Every generated round seats only players among `ids`. */
  lemma SimScheduleSeated(ids: seq<string>, registered: set<string>)
    requires forall id | id in ids :: id in registered
    ensures forall i | 0 <= i < |SimSchedule(ids)| :: Seated(SimSchedule(ids)[i], registered)
  {
    forall i, k | 0 <= i < |SimSchedule(ids)| && 0 <= k < |SimSchedule(ids)[i]|
      ensures SimSchedule(ids)[i][k].playerA in registered && SimSchedule(ids)[i][k].playerB in registered
    {
      SimSchedulePlayers(ids, i, k);
    }
  }

  /** Every registered player as a match sees it. */
  function EntrantsOf(players: map<string, Profile>): (es: map<string, Entrant>)
    ensures es.Keys == players.Keys
    ensures forall id | id in players :: es[id] == Entrant(players[id].playerId, players[id].strategy)
  {
    map id | id in players :: Entrant(players[id].playerId, players[id].strategy)
  }

  /**
   * The player dictionary's keys, in insertion order, are `playerOrder`;
   * every player is filed under its own id; the referee ids are distinct;
   * every scheduled match names registered players.
   */
  ghost predicate Registered(players: map<string, Profile>, playerOrder: seq<string>, refereeOrder: seq<string>,
                             schedule: seq<seq<SimMatch>>)
  {
    Distinct(playerOrder) && Distinct(refereeOrder)
    && (forall id :: id in players <==> id in playerOrder)
    && (forall id | id in players :: players[id].playerId == id)
    && (forall i | 0 <= i < |schedule| :: Seated(schedule[i], players.Keys))
  }

  /**
   * `LeagueSimulation`: the registered players by id in registration order,
   * the referee ids in registration order, the schedule and the results.
   * Each player is held as its profile and its tally, both under its id; a
   * match updates the two tallies step by step, as `conduct_match` updates
   * the two player objects.
   */
  class LeagueSimulation {
    var players: map<string, Profile>
    var tallies: map<string, SimPlayer.Tally>
    var playerOrder: seq<string>
    var refereeOrder: seq<string>
    var schedule: seq<seq<SimMatch>>
    var matchResults: seq<Stamped>
    const parallel: bool

    /** The registry is consistent and every registered player has a tally. */
    ghost predicate Valid()
      reads this
    {
      Registered(players, playerOrder, refereeOrder, schedule) && tallies.Keys == players.Keys
    }

    constructor(parallel: bool)
      ensures Valid()
      ensures players == map[] && tallies == map[] && playerOrder == [] && refereeOrder == []
      ensures schedule == [] && matchResults == [] && this.parallel == parallel
    {
      players, tallies, playerOrder, refereeOrder := map[], map[], [], [];
      schedule, matchResults := [], [];
      this.parallel := parallel;
    }

    /** `register_referee`: a repeated id keeps its place in the dictionary. */
    method RegisterReferee(refereeId: string)
      requires Valid()
      modifies this
      ensures Valid()
      ensures refereeOrder == if refereeId in old(refereeOrder) then old(refereeOrder) else old(refereeOrder) + [refereeId]
      ensures players == old(players) && tallies == old(tallies) && playerOrder == old(playerOrder)
      ensures schedule == old(schedule) && matchResults == old(matchResults)
    {
      if refereeId !in refereeOrder {
        refereeOrder := refereeOrder + [refereeId];
      }
    }

    /** `register_player`: a new player, with no games, replaces any earlier one under the same id, which keeps its place. */
    method RegisterPlayer(playerId: string, displayName: string, strategy: string, authToken: string)
      requires Valid()
      modifies this
      ensures Valid()
      ensures players == old(players)[playerId := Profile(playerId, displayName, strategy, authToken)]
      ensures tallies == old(tallies)[playerId := Unplayed]
      ensures playerOrder == if playerId in old(playerOrder) then old(playerOrder) else old(playerOrder) + [playerId]
      ensures refereeOrder == old(refereeOrder) && schedule == old(schedule) && matchResults == old(matchResults)
    {
      players := players[playerId := Profile(playerId, displayName, strategy, authToken)];
      tallies := tallies[playerId := Unplayed];
      if playerId !in playerOrder {
        playerOrder := playerOrder + [playerId];
      }
      forall i | 0 <= i < |schedule| ensures Seated(schedule[i], players.Keys) {
        assert Seated(schedule[i], old(players).Keys);
      }
    }

    /**
     * `generate_schedule`: the packing of all pairs of the registered ids is
     * appended to whatever schedule there already is; round numbers restart
     * at 1 on every call.
     */
    method GenerateSchedule()
      requires Valid()
      modifies this
      ensures Valid()
      ensures schedule == old(schedule) + SimSchedule(playerOrder)
      ensures players == old(players) && tallies == old(tallies)
      ensures playerOrder == old(playerOrder) && refereeOrder == old(refereeOrder) && matchResults == old(matchResults)
    {
      var rounds := LeagueScheduler.PackRounds(Combinations(playerOrder));
      SimScheduleSeated(playerOrder, players.Keys);
      schedule := schedule + TagRounds(rounds, 1);
      assert forall i | |old(schedule)| <= i < |schedule| :: schedule[i] == SimSchedule(playerOrder)[i - |old(schedule)|];
    }

    /**
     * `_execute_match`: the two players are looked up by id and the
     * referee conducts the match on their tallies. The referee object holds
     * nothing the match uses.
     */
    method ExecuteMatch(m: SimMatch, luck: Luck) returns (result: MatchResult)
      requires Valid() && m.playerA in players && m.playerB in players
      modifies this
      ensures Valid()
      ensures players == old(players) && playerOrder == old(playerOrder) && refereeOrder == old(refereeOrder)
      ensures schedule == old(schedule) && matchResults == old(matchResults)
      ensures Conducted(result, tallies)
              == Conduct(old(tallies), EntrantsOf(players)[m.playerA], EntrantsOf(players)[m.playerB], m.matchId, luck)
    {
      var playerA, playerB := players[m.playerA], players[m.playerB];
      result, tallies := ConductMatch(tallies, Entrant(playerA.playerId, playerA.strategy),
                                      Entrant(playerB.playerId, playerB.strategy), m.matchId, luck);
    }

    /**
     * `_run_league_sequential`: every match of every round goes, in order, to
     * the referee at its in-round position mod the referee count; the match
     * updates both players' tallies and its stamped result is appended. With
     * no referee the first match raises ZeroDivisionError before any play.
     */
    method RunSequential(luck: nat -> Luck) returns (r: Result<(), string>)
      requires Valid()
      modifies this
      ensures Valid()
      ensures players == old(players) && playerOrder == old(playerOrder) && refereeOrder == old(refereeOrder)
      ensures schedule == old(schedule)
      ensures refereeOrder != [] ==>
        var played := PlayedLeague(schedule, |schedule|, refereeOrder, EntrantsOf(players), old(tallies), luck, Conduct);
        r.Ok? && matchResults == old(matchResults) + played.results && tallies == played.tallies
      ensures refereeOrder == [] ==>
        matchResults == old(matchResults) && tallies == old(tallies)
        && (r.Err? <==> MatchesBefore(schedule, |schedule|) > 0)
    {
      if refereeOrder == [] {
        r := RunUnrefereed();
      } else {
        var results, after := PlayLeague(schedule, refereeOrder, EntrantsOf(players), tallies, luck);
        matchResults, tallies := matchResults + results, after;
        r := Ok(());
      }
    }

    /**
     * The rounds loop with no referee: `match_idx % len(referee_ids)` raises
     * on the first match of the first round that holds one, before it is
     * played.
     */
    method RunUnrefereed() returns (r: Result<(), string>)
      ensures r.Err? <==> MatchesBefore(schedule, |schedule|) > 0
    {
      var roundIdx := 0;
      r := Ok(());
      while roundIdx < |schedule| && r.Ok?
        invariant 0 <= roundIdx <= |schedule|
        invariant r.Ok? ==> MatchesBefore(schedule, roundIdx) == 0
        invariant r.Err? ==> MatchesBefore(schedule, |schedule|) > 0
      {
        if schedule[roundIdx] != [] {
          r := Err("ZeroDivisionError");
          MatchesBeforeMonotone(schedule, roundIdx + 1, |schedule|);
        }
        roundIdx := roundIdx + 1;
      }
    }

    /**
     * `get_standings`: one row per player in registration order, stably
     * sorted by (points, wins) descending, then ranked from 1.
     */
    method GetStandings() returns (rows: seq<SimRow>)
      requires Valid()
      ensures |rows| == |playerOrder|
      ensures forall i | 0 <= i < |rows| ::
        rows[i] == Sort(Unranked(playerOrder, players, tallies), SimRowKey)[i].(rank := i + 1)
    {
      var standings: seq<SimRow> := [];
      var i := 0;
      while i < |playerOrder|
        invariant 0 <= i <= |playerOrder|
        invariant standings == Unranked(playerOrder[..i], players, tallies)
      {
        var id := playerOrder[i];
        standings := standings + [RowOf(id, players[id], tallies[id])];
        assert playerOrder[..i + 1][..i] == playerOrder[..i];
        i := i + 1;
      }
      assert playerOrder[..i] == playerOrder;
      rows := AssignRanks(Sort(standings, SimRowKey));
    }
  }

  /** The ranking loop of `get_standings`: row `i` of the sorted table gets rank `i + 1`. */
  method AssignRanks(sorted: seq<SimRow>) returns (rows: seq<SimRow>)
    ensures |rows| == |sorted|
    ensures forall q | 0 <= q < |rows| :: rows[q] == sorted[q].(rank := q + 1)
  {
    rows := sorted;
    var k := 0;
    while k < |rows|
      invariant 0 <= k <= |rows| && |rows| == |sorted|
      invariant forall q | 0 <= q < k :: rows[q] == sorted[q].(rank := q + 1)
      invariant forall q | k <= q < |rows| :: rows[q] == sorted[q]
    {
      rows := rows[k := rows[k].(rank := k + 1)];
      k := k + 1;
    }
  }

  /** Counting more rounds never counts fewer matches. */
  lemma {:induction false} MatchesBeforeMonotone(schedule: seq<seq<SimMatch>>, m: nat, n: nat)
    requires m <= n <= |schedule|
    ensures MatchesBefore(schedule, m) <= MatchesBefore(schedule, n)
  {
    if m < n {
      MatchesBeforeMonotone(schedule, m, n - 1);
    }
  }
}
