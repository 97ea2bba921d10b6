/**
 * The referee agent: `conduct_match` keeps an entry per running match in
 * its `active_matches` table, waits for both players to join and then for
 * both parity choices, and settles the match with the even/odd rule. The
 * join-acknowledgement and parity-response handlers write into that entry
 * while the referee waits.
 */
module Referee {
  import opened Wrappers
  import opened JsonValue
  import opened Text
  import EvenOdd

  /** An `active_matches` entry; each player dict is known here by its "id" entry. */
  datatype MatchState = MatchState(matchId: string, roundId: string, playerA: string, playerB: string,
                                   aJoined: bool, bJoined: bool, aChoice: Option<string>, bChoice: Option<string>)

  /** The entry `conduct_match` stores first: nobody joined, nothing chosen. */
  function NewState(matchId: string, roundId: string, playerA: string, playerB: string): (st: MatchState)
    ensures st.matchId == matchId && st.roundId == roundId && st.playerA == playerA && st.playerB == playerB
    ensures !st.aJoined && !st.bJoined && !ChoicesComplete(st)
  {
    MatchState(matchId, roundId, playerA, playerB, false, false, None, None)
  }

  /** `{"status": "RECEIVED"}`. */
  const Received: map<string, Json> := map["status" := JStr("RECEIVED")]
  /** `{"status": "ERROR", "message": "Unknown match"}`. */
  const UnknownMatch: map<string, Json> := map["status" := JStr("ERROR"), "message" := JStr("Unknown match")]
  /** `{"status": "ERROR", "message": "Invalid parity choice"}`. */
  const InvalidChoice: map<string, Json> := map["status" := JStr("ERROR"), "message" := JStr("Invalid parity choice")]

  /**
   * `sender.split(":")[-1] if ":" in sender else sender`: the text after the
   * last ':' of a string, the string itself without one. A list or dict
   * holding ":" has no `split`; None, booleans and numbers cannot be
   * searched with `in`.
   */
  function SenderId(sender: Json): (r: Result<Json, string>)
    ensures sender.JStr? ==> r.Ok? && r.value.JStr? && ':' !in r.value.s
    ensures sender.JStr? && ':' !in sender.s ==> r == Ok(sender)
    ensures sender.JStr? && ':' in sender.s ==> exists h :: sender.s == h + [':'] + r.value.s
    ensures sender.JNull? || sender.JBool? || sender.JInt? ==> r.Err?
    ensures r.Ok? && !sender.JStr? ==> r == Ok(sender)
  {
    match sender
    case JStr(s) => Ok(JStr(AfterLast(s, ':')))
    case JArr(items) => if JStr(":") in items then Err("AttributeError: 'list' object has no attribute 'split'") else Ok(sender)
    case JObj(fields) => if ":" in fields then Err("AttributeError: 'dict' object has no attribute 'split'") else Ok(sender)
    case _ => Err("TypeError: argument is not iterable")
  }

  /** The side a sender id names; side A is tested first. */
  datatype Side = SideA | SideB | Neither

  function SideOf(st: MatchState, playerId: Json): (side: Side)
    ensures side == SideA <==> playerId == JStr(st.playerA)
    ensures side == SideB <==> playerId != JStr(st.playerA) && playerId == JStr(st.playerB)
  {
    if JStr(st.playerA) == playerId then SideA
    else if JStr(st.playerB) == playerId then SideB
    else Neither
  }

  /** The join flag of the named side is set. */
  function Joined(st: MatchState, side: Side): MatchState
  {
    match side
    case SideA => st.(aJoined := true)
    case SideB => st.(bJoined := true)
    case Neither => st
  }

  /** The choice slot of the named side is overwritten. */
  function Chose(st: MatchState, side: Side, choice: string): MatchState
  {
    match side
    case SideA => st.(aChoice := Some(choice))
    case SideB => st.(bChoice := Some(choice))
    case Neither => st
  }

  /**
   * A join acknowledgement sets at most one flag and touches nothing else of
   * the entry; when both players share the sender's id only side A joins.
   */
  lemma JoinSetsOneFlag(st: MatchState, playerId: Json)
    ensures var j := Joined(st, SideOf(st, playerId));
      j.matchId == st.matchId && j.roundId == st.roundId && j.playerA == st.playerA && j.playerB == st.playerB
      && j.aChoice == st.aChoice && j.bChoice == st.bChoice
      && (j.aJoined <==> st.aJoined || playerId == JStr(st.playerA))
      && (j.bJoined <==> st.bJoined || (playerId != JStr(st.playerA) && playerId == JStr(st.playerB)))
  {
  }

  /**
   * A choice lands in the sender's slot only, replacing an earlier one; when
   * both players share the sender's id only side A's slot changes.
   */
  lemma ChoiceLastWriteWins(st: MatchState, playerId: Json, first: string, second: string)
    ensures var side := SideOf(st, playerId);
      var c := Chose(Chose(st, side, first), side, second);
      c == Chose(st, side, second)
      && (side == SideA ==> c.aChoice == Some(second) && c.bChoice == st.bChoice)
      && (side == SideB ==> c.bChoice == Some(second) && c.aChoice == st.aChoice)
      && (side == Neither ==> c == st)
      && c.aJoined == st.aJoined && c.bJoined == st.bJoined
  {
  }

  /** `request_parity_choices`'s verdict after the wait: both slots are filled. */
  predicate ChoicesComplete(st: MatchState)
  {
    st.aChoice.Some? && st.bChoice.Some?
  }

  /** What `conduct_match` returns: a settled match or a technical loss. */
  datatype MatchResult =
    | Decided(matchId: string, roundId: string, outcome: EvenOdd.MatchOutcome)
    | TechnicalLoss(matchId: string, roundId: string, error: string)

  /**
   * `_technical_loss_result`: both sides get TECHNICAL_LOSS whichever side
   * failed; the other keys are the entry's ids and the reason.
   */
  function ResultJson(r: MatchResult): (j: map<string, Json>)
    ensures j.Keys >= {"match_id", "round_id", "player_a_result", "player_b_result"}
    ensures j["match_id"] == JStr(r.matchId) && j["round_id"] == JStr(r.roundId)
    ensures r.TechnicalLoss? ==>
      j.Keys == {"match_id", "round_id", "error", "player_a_result", "player_b_result"}
      && j["error"] == JStr(r.error)
      && j["player_a_result"] == JStr("TECHNICAL_LOSS") && j["player_b_result"] == JStr("TECHNICAL_LOSS")
    ensures r.Decided? ==>
      "winner_id" in j && "error" !in j
      && j["player_a_result"] == JStr(r.outcome.playerAResult) && j["player_b_result"] == JStr(r.outcome.playerBResult)
      && j["winner_id"] == (if r.outcome.winnerId.Some? then JStr(r.outcome.winnerId.value) else JNull)
  {
    match r
    case TechnicalLoss(matchId, roundId, error) =>
      map["match_id" := JStr(matchId), "round_id" := JStr(roundId), "error" := JStr(error),
          "player_a_result" := JStr("TECHNICAL_LOSS"), "player_b_result" := JStr("TECHNICAL_LOSS")]
    case Decided(matchId, roundId, o) =>
      map["match_id" := JStr(matchId), "round_id" := JStr(roundId), "drawn_number" := JInt(o.drawnNumber),
          "player_a_choice" := JStr(o.playerAChoice), "player_b_choice" := JStr(o.playerBChoice),
          "player_a_result" := JStr(o.playerAResult), "player_b_result" := JStr(o.playerBResult),
          "winner_id" := if o.winnerId.Some? then JStr(o.winnerId.value) else JNull]
  }

  /**
   * `determine_winner` (called only once both choices are in): the default
   * game draws a number from 1..10 with the random source `offset`, and the
   * result copies the entry's ids and the outcome's fields.
   */
  function DetermineWinner(st: MatchState, offset: nat): (r: MatchResult)
    requires ChoicesComplete(st)
    ensures r.Decided? && r.matchId == st.matchId && r.roundId == st.roundId
    ensures EvenOdd.DetermineMatchOutcome(EvenOdd.DefaultGame, st.playerA, st.aChoice.value, st.playerB,
                                          st.bChoice.value, None, offset) == Ok(r.outcome)
    ensures 1 <= r.outcome.drawnNumber <= 10
    ensures r.outcome.playerAChoice == st.aChoice.value && r.outcome.playerBChoice == st.bChoice.value
  {
    var n := EvenOdd.DrawNumber(EvenOdd.DefaultGame, offset);
    Decided(st.matchId, st.roundId, EvenOdd.Decide(st.playerA, st.aChoice.value, st.playerB, st.bChoice.value, n.value))
  }

  /** A settled match follows the parity rule: a draw exactly when both or neither guessed right. */
  lemma DecidedByParityRule(st: MatchState, offset: nat)
    requires ChoicesComplete(st)
    ensures var o := DetermineWinner(st, offset).outcome;
      (o.playerAResult == "DRAW" <==> EvenOdd.Correct(st.aChoice.value, o.drawnNumber) == EvenOdd.Correct(st.bChoice.value, o.drawnNumber))
      && (o.winnerId == Some(st.playerA) || o.winnerId == Some(st.playerB) || o.winnerId == None)
      && o.playerAResult != "TECHNICAL_LOSS" && o.playerBResult != "TECHNICAL_LOSS"
  {
    var o := DetermineWinner(st, offset).outcome;
    EvenOdd.DrawIffSameCorrectness(st.playerA, st.aChoice.value, st.playerB, st.bChoice.value, o.drawnNumber);
    EvenOdd.OutcomeCases(st.playerA, st.aChoice.value, st.playerB, st.bChoice.value, o.drawnNumber);
  }

  /** `self.referee.active_matches.get(match_id)`: an unhashable id raises TypeError. */
  function Lookup(active: map<string, MatchState>, matchId: Json): (r: Result<Option<MatchState>, string>)
    ensures r.Err? <==> !Hashable(matchId)
    ensures r.Ok? && r.value.Some? <==> matchId.JStr? && matchId.s in active
    ensures r.Ok? && r.value.Some? ==> r.value.value == active[matchId.s]
  {
    if !Hashable(matchId) then Err("TypeError: unhashable type")
    else if matchId.JStr? && matchId.s in active then Ok(Some(active[matchId.s]))
    else Ok(None)
  }

  class RefereeAgent {
    var activeMatches: map<string, MatchState>

    constructor()
      ensures activeMatches == map[]
    {
      activeMatches := map[];
    }

    /**
     * `conduct_match`. The acknowledgements that arrive during the join wait
     * are the flags `aJoined` and `bJoined`, the choices that arrive during
     * the choice wait are `aChoice` and `bChoice`, and `offset` is the random
     * draw. The match's entry is gone afterwards on every path; the other
     * entries are untouched.
     */
    method ConductMatch(matchId: string, roundId: string, playerA: string, playerB: string,
                        aJoined: bool, bJoined: bool, aChoice: Option<string>, bChoice: Option<string>, offset: nat)
      returns (result: MatchResult)
      modifies this
      ensures activeMatches == old(activeMatches) - {matchId}
      ensures !(aJoined && bJoined) ==> result == TechnicalLoss(matchId, roundId, "join_timeout")
      ensures aJoined && bJoined && !(aChoice.Some? && bChoice.Some?) ==>
        result == TechnicalLoss(matchId, roundId, "choice_timeout")
      ensures aJoined && bJoined && aChoice.Some? && bChoice.Some? ==>
        result == DetermineWinner(MatchState(matchId, roundId, playerA, playerB, true, true, aChoice, bChoice), offset)
    {
      activeMatches := activeMatches[matchId := NewState(matchId, roundId, playerA, playerB)];
      // The join wait: the acknowledgement handlers set the flags.
      activeMatches := activeMatches[matchId := activeMatches[matchId].(aJoined := aJoined, bJoined := bJoined)];
      var state := activeMatches[matchId];
      var joinOk := state.aJoined && state.bJoined;
      if !joinOk {
        result := TechnicalLoss(state.matchId, state.roundId, "join_timeout");
      } else {
        // The choice wait: the parity-response handlers fill the slots.
        activeMatches := activeMatches[matchId := activeMatches[matchId].(aChoice := aChoice, bChoice := bChoice)];
        state := activeMatches[matchId];
        if !ChoicesComplete(state) {
          result := TechnicalLoss(state.matchId, state.roundId, "choice_timeout");
        } else {
          result := DetermineWinner(state, offset);
        }
      }
      activeMatches := activeMatches - {matchId};
    }

    /**
     * `handle_game_join_ack`: a declined join is only logged; an unknown
     * match gives an error reply; otherwise the sender's side is marked as
     * joined. Only the addressed entry can change.
     */
    method HandleGameJoinAck(params: map<string, Json>) returns (r: Result<map<string, Json>, string>)
      modifies this
      ensures Get(params, "status", JStr("ACCEPTED")) != JStr("ACCEPTED") ==>
        r == Ok(Received) && activeMatches == old(activeMatches)
      ensures var found := Lookup(old(activeMatches), Get(params, "match_id", JNull));
        Get(params, "status", JStr("ACCEPTED")) == JStr("ACCEPTED") ==>
          (found.Err? ==> r.Err? && activeMatches == old(activeMatches))
          && (found == Ok(None) ==> r == Ok(UnknownMatch) && activeMatches == old(activeMatches))
      ensures var found := Lookup(old(activeMatches), Get(params, "match_id", JNull));
        var player := SenderId(Get(params, "sender", JStr("")));
        Get(params, "status", JStr("ACCEPTED")) == JStr("ACCEPTED") && found.Ok? && found.value.Some? ==>
          (player.Err? ==> r.Err? && activeMatches == old(activeMatches))
          && (player.Ok? ==>
                r == Ok(Received)
                && activeMatches == old(activeMatches)[Get(params, "match_id", JNull).s :=
                     Joined(found.value.value, SideOf(found.value.value, player.value))])
    {
      var status := Get(params, "status", JStr("ACCEPTED"));
      if status != JStr("ACCEPTED") {
        return Ok(Received);
      }
      var matchId := Get(params, "match_id", JNull);
      var found := Lookup(activeMatches, matchId);
      if found.Err? {
        return Err(found.error);
      }
      if found.value.None? {
        return Ok(UnknownMatch);
      }
      var player := SenderId(Get(params, "sender", JStr("")));
      if player.Err? {
        return Err(player.error);
      }
      var state := found.value.value;
      activeMatches := activeMatches[matchId.s := Joined(state, SideOf(state, player.value))];
      r := Ok(Received);
    }

    /**
     * `handle_parity_response`: anything but exactly "even" or "odd" is
     * refused before the match is looked up; otherwise the choice overwrites
     * the sender's slot of the addressed entry.
     */
    method HandleParityResponse(params: map<string, Json>) returns (r: Result<map<string, Json>, string>)
      modifies this
      ensures var choice := Get(params, "parity_choice", JNull);
        choice != JStr("even") && choice != JStr("odd") ==> r == Ok(InvalidChoice) && activeMatches == old(activeMatches)
      ensures var choice := Get(params, "parity_choice", JNull);
        var found := Lookup(old(activeMatches), Get(params, "match_id", JNull));
        (choice == JStr("even") || choice == JStr("odd")) ==>
          (found.Err? ==> r.Err? && activeMatches == old(activeMatches))
          && (found == Ok(None) ==> r == Ok(UnknownMatch) && activeMatches == old(activeMatches))
      ensures var choice := Get(params, "parity_choice", JNull);
        var found := Lookup(old(activeMatches), Get(params, "match_id", JNull));
        var player := SenderId(Get(params, "sender", JStr("")));
        (choice == JStr("even") || choice == JStr("odd")) && found.Ok? && found.value.Some? ==>
          (player.Err? ==> r.Err? && activeMatches == old(activeMatches))
          && (player.Ok? ==>
                r == Ok(Received)
                && activeMatches == old(activeMatches)[Get(params, "match_id", JNull).s :=
                     Chose(found.value.value, SideOf(found.value.value, player.value), choice.s)])
    {
      var choice := Get(params, "parity_choice", JNull);
      if choice != JStr("even") && choice != JStr("odd") {
        return Ok(InvalidChoice);
      }
      var matchId := Get(params, "match_id", JNull);
      var found := Lookup(activeMatches, matchId);
      if found.Err? {
        return Err(found.error);
      }
      if found.value.None? {
        return Ok(UnknownMatch);
      }
      var player := SenderId(Get(params, "sender", JStr("")));
      if player.Err? {
        return Err(player.error);
      }
      var state := found.value.value;
      activeMatches := activeMatches[matchId.s := Chose(state, SideOf(state, player.value), choice.s)];
      r := Ok(Received);
    }
  }

  /**
   * Responses from both players of a match (different ids, each sender
   * naming one of them) complete the choice phase.
   */
  lemma BothResponsesComplete(st: MatchState, a: Json, b: Json, x: string, y: string)
    requires st.playerA != st.playerB && a == JStr(st.playerA) && b == JStr(st.playerB)
    ensures ChoicesComplete(Chose(Chose(st, SideOf(st, a), x), SideOf(Chose(st, SideOf(st, a), x), b), y))
  {
  }

  /** A match where either player never joined is a technical loss for both, whatever the choices. */
  lemma TechnicalLossForBoth(r: MatchResult)
    requires r.TechnicalLoss?
    ensures ResultJson(r)["player_a_result"] == ResultJson(r)["player_b_result"] == JStr("TECHNICAL_LOSS")
  {
  }
}
