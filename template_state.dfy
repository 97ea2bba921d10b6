/**
 * The player template's own state record: a lifecycle name, the
 * credentials registration hands out, the match in progress, a tally with
 * points (three per win, one per draw) and the history of match records.
 */
module TemplateState {
  import opened Wrappers
  import opened JsonValue
  import PlayerAgentState

  /** What `get_stats` reports, without the floating-point win rate. */
  datatype Stats = Stats(playerId: string, totalGames: nat, wins: nat, draws: nat, losses: nat, points: nat)

  class PlayerState {
    const playerId: string
    var state: PlayerAgentState.Lifecycle
    var assignedId: Option<string>
    var authToken: Option<string>
    var currentMatchId: Option<string>
    var currentOpponentId: Option<string>
    var wins: nat
    var draws: nat
    var losses: nat
    var points: nat
    var history: seq<map<string, Json>>

    /** Points follow the tally. */
    ghost predicate Valid()
      reads this
    {
      points == 3 * wins + draws
    }

    /** A fresh record: INIT, nothing assigned, an empty tally and history. */
    constructor(playerId: string)
      ensures Valid() && this.playerId == playerId && state == PlayerAgentState.Init
      ensures assignedId == None && authToken == None && currentMatchId == None && currentOpponentId == None
      ensures wins == 0 && draws == 0 && losses == 0 && points == 0 && history == []
    {
      this.playerId := playerId;
      state := PlayerAgentState.Init;
      assignedId, authToken, currentMatchId, currentOpponentId := None, None, None, None;
      wins, draws, losses, points := 0, 0, 0, 0;
      history := [];
    }

    /** `set_registered`: REGISTERED with the assigned id and token; nothing else changes. */
    method SetRegistered(assignedId: string, authToken: string)
      requires Valid()
      modifies this
      ensures Valid() && state == PlayerAgentState.Registered && IsRegistered()
      ensures this.assignedId == Some(assignedId) && this.authToken == Some(authToken)
      ensures currentMatchId == old(currentMatchId) && currentOpponentId == old(currentOpponentId)
      ensures wins == old(wins) && draws == old(draws) && losses == old(losses) && points == old(points)
      ensures history == old(history)
    {
      state := PlayerAgentState.Registered;
      this.assignedId := Some(assignedId);
      this.authToken := Some(authToken);
    }

    /** `set_active`: ACTIVE in the given match against the given opponent; nothing else changes. */
    method SetActive(matchId: string, opponentId: string)
      requires Valid()
      modifies this
      ensures Valid() && state == PlayerAgentState.Active && IsRegistered()
      ensures currentMatchId == Some(matchId) && currentOpponentId == Some(opponentId)
      ensures assignedId == old(assignedId) && authToken == old(authToken)
      ensures wins == old(wins) && draws == old(draws) && losses == old(losses) && points == old(points)
      ensures history == old(history)
    {
      state := PlayerAgentState.Active;
      currentMatchId := Some(matchId);
      currentOpponentId := Some(opponentId);
    }

    /**
     * `record_result`: WIN adds a win and 3 points, DRAW a draw and 1 point,
     * anything else a loss; the match record is appended to the history and
     * the player is REGISTERED with no match, whatever state it was in.
     */
    method RecordResult(result: string, matchData: map<string, Json>)
      requires Valid()
      modifies this
      ensures Valid() && state == PlayerAgentState.Registered
      ensures result == "WIN" ==> wins == old(wins) + 1 && draws == old(draws) && losses == old(losses)
      ensures result == "DRAW" ==> draws == old(draws) + 1 && wins == old(wins) && losses == old(losses)
      ensures result != "WIN" && result != "DRAW" ==>
        losses == old(losses) + 1 && wins == old(wins) && draws == old(draws) && points == old(points)
      ensures wins + draws + losses == old(wins + draws + losses) + 1
      ensures history == old(history) + [matchData]
      ensures currentMatchId == None && currentOpponentId == None
      ensures assignedId == old(assignedId) && authToken == old(authToken)
    {
      if result == "WIN" {
        wins := wins + 1;
        points := points + 3;
      } else if result == "DRAW" {
        draws := draws + 1;
        points := points + 1;
      } else {
        losses := losses + 1;
      }
      history := history + [matchData];
      state := PlayerAgentState.Registered;
      currentMatchId := None;
      currentOpponentId := None;
    }

    /** `get_stats`: the assigned id when it is a non-empty string, else the configured one. */
    function GetStats(): (s: Stats)
      reads this
      ensures s.playerId == (if assignedId.Some? && assignedId.value != "" then assignedId.value else playerId)
      ensures s.totalGames == s.wins + s.draws + s.losses
      ensures s.wins == wins && s.draws == draws && s.losses == losses && s.points == points
    {
      Stats(if assignedId.Some? && assignedId.value != "" then assignedId.value else playerId,
            wins + draws + losses, wins, draws, losses, points)
    }

    /**
     * `is_registered`: REGISTERED or ACTIVE, whatever the ids; a new, suspended
     * or shut down player is not registered.
     */
    predicate IsRegistered()
      reads this
      ensures IsRegistered() <==>
        state !in {PlayerAgentState.Init, PlayerAgentState.Suspended, PlayerAgentState.Shutdown}
    {
      state == PlayerAgentState.Registered || state == PlayerAgentState.Active
    }
  }

  /** In any reported tally of a valid record, points are 3 per win plus 1 per draw, so at most 3 per game. */
  lemma StatsPoints(s: Stats)
    requires s.totalGames == s.wins + s.draws + s.losses && s.points == 3 * s.wins + s.draws
    ensures s.points <= 3 * s.totalGames
    ensures s.points == 3 * s.totalGames <==> s.draws == 0 && s.losses == 0
    ensures s.points == 0 <==> s.wins == 0 && s.draws == 0
  {
  }
}
