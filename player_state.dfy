/**
 * The player agent's state: a lifecycle (INIT, REGISTERED, ACTIVE,
 * SUSPENDED, SHUTDOWN), the credentials registration hands out, the match
 * in progress and a game tally.
 */
module PlayerAgentState {
  import opened Wrappers

  datatype Lifecycle = Init | Registered | Active | Suspended | Shutdown

  /** The lifecycle names as the enum values spell them. */
  function LifecycleValue(l: Lifecycle): string
  {
    match l
    case Init => "INIT"
    case Registered => "REGISTERED"
    case Active => "ACTIVE"
    case Suspended => "SUSPENDED"
    case Shutdown => "SHUTDOWN"
  }

  /** The match in progress; the choice and result are filled in as it goes. */
  datatype MatchState = MatchState(matchId: string, leagueId: string, roundId: int, opponentId: string,
                                   role: string, conversationId: string, choice: Option<string>, result: Option<string>)

  /** The tally: every game counts once, as a win, a draw or a loss. */
  class PlayerStats {
    var wins: nat
    var losses: nat
    var draws: nat
    var totalGames: nat

    ghost predicate Valid()
      reads this
    {
      totalGames == wins + draws + losses
    }

    constructor()
      ensures Valid() && wins == 0 && losses == 0 && draws == 0 && totalGames == 0
    {
      wins, losses, draws, totalGames := 0, 0, 0, 0;
    }

    /** `add_result`: WIN and DRAW count as such; anything else, TECHNICAL_LOSS included, is a loss. */
    method AddResult(result: string)
      requires Valid()
      modifies this
      ensures Valid() && totalGames == old(totalGames) + 1
      ensures result == "WIN" ==> wins == old(wins) + 1 && draws == old(draws) && losses == old(losses)
      ensures result == "DRAW" ==> draws == old(draws) + 1 && wins == old(wins) && losses == old(losses)
      ensures result != "WIN" && result != "DRAW" ==> losses == old(losses) + 1 && wins == old(wins) && draws == old(draws)
    {
      totalGames := totalGames + 1;
      if result == "WIN" {
        wins := wins + 1;
      } else if result == "DRAW" {
        draws := draws + 1;
      } else {
        losses := losses + 1;
      }
    }
  }

  /** Everything a `PlayerState` holds, as one value. */
  datatype View = View(lifecycle: Lifecycle, playerId: Option<string>, authToken: Option<string>,
                       leagueId: Option<string>, currentMatch: Option<MatchState>,
                       wins: nat, losses: nat, draws: nat, totalGames: nat)

  /** `add_result` applied to a view's tally. */
  function Tallied(v: View, result: string): View
  {
    if result == "WIN" then v.(wins := v.wins + 1, totalGames := v.totalGames + 1)
    else if result == "DRAW" then v.(draws := v.draws + 1, totalGames := v.totalGames + 1)
    else v.(losses := v.losses + 1, totalGames := v.totalGames + 1)
  }

  /** The state `end_match(result)` leaves behind. */
  function Ended(v: View, result: string): View
  {
    if v.currentMatch.None? then v
    else Tallied(v, result).(currentMatch := None, lifecycle := Registered)
  }

  /**
   * Ending a match counts exactly one game, as a win, a draw or otherwise
   * (TECHNICAL_LOSS included) a loss, so the total stays wins + draws +
   * losses; credentials are kept.
   */
  lemma EndedTally(v: View, result: string)
    requires v.totalGames == v.wins + v.draws + v.losses && v.currentMatch.Some?
    ensures var e := Ended(v, result);
      e.totalGames == e.wins + e.draws + e.losses && e.totalGames == v.totalGames + 1
      && e.currentMatch.None? && e.lifecycle == Registered
      && e.playerId == v.playerId && e.authToken == v.authToken && e.leagueId == v.leagueId
      && (result == "WIN" <==> e.wins == v.wins + 1)
      && (result == "DRAW" <==> e.draws == v.draws + 1)
      && (result != "WIN" && result != "DRAW" <==> e.losses == v.losses + 1)
  {
  }

  class PlayerState {
    var lifecycle: Lifecycle
    var playerId: Option<string>
    var authToken: Option<string>
    var leagueId: Option<string>
    var currentMatch: Option<MatchState>
    const stats: PlayerStats

    ghost predicate Valid()
      reads this, stats
    {
      stats.Valid()
    }

    function Snapshot(): (v: View)
      reads this, stats
    {
      View(lifecycle, playerId, authToken, leagueId, currentMatch, stats.wins, stats.losses, stats.draws, stats.totalGames)
    }

    /** A new state: INIT, no credentials, no match, an empty tally. */
    constructor()
      ensures Valid() && fresh(stats)
      ensures Snapshot() == View(Init, None, None, None, None, 0, 0, 0, 0)
    {
      lifecycle := Init;
      playerId, authToken, leagueId := None, None, None;
      currentMatch := None;
      stats := new PlayerStats();
    }

    /**
     * `is_registered`: past INIT and holding a player id; suspended and shut
     * down players still count as registered.
     */
    predicate IsRegistered()
      reads this
      ensures IsRegistered() ==> playerId.Some? && lifecycle != Init
      ensures playerId.Some? && lifecycle in {Suspended, Lifecycle.Shutdown} ==> IsRegistered()
    {
      lifecycle != Init && playerId.Some?
    }

    /** `can_play`: REGISTERED or ACTIVE; a new, suspended or shut down player cannot play. */
    predicate CanPlay()
      reads this
      ensures CanPlay() <==> lifecycle !in {Init, Suspended, Lifecycle.Shutdown}
    {
      lifecycle == Registered || lifecycle == Active
    }

    /** `register`: store the credentials and become REGISTERED. */
    method Register(playerId: string, authToken: string, leagueId: string)
      requires Valid()
      modifies this
      ensures Valid()
      ensures Snapshot() == old(Snapshot()).(lifecycle := Registered, playerId := Some(playerId),
                                             authToken := Some(authToken), leagueId := Some(leagueId))
      ensures IsRegistered() && CanPlay()
    {
      this.playerId := Some(playerId);
      this.authToken := Some(authToken);
      this.leagueId := Some(leagueId);
      lifecycle := Registered;
    }

    /** `start_match`, from any lifecycle: a fresh match (league id or "") and ACTIVE. */
    method StartMatch(matchId: string, roundId: int, opponentId: string, role: string, conversationId: string)
      requires Valid()
      modifies this
      ensures Valid()
      ensures Snapshot() == old(Snapshot()).(lifecycle := Active, currentMatch := Some(
        MatchState(matchId, old(leagueId).GetOr(""), roundId, opponentId, role, conversationId, None, None)))
      ensures CanPlay() && (IsRegistered() <==> playerId.Some?)
    {
      currentMatch := Some(MatchState(matchId, if leagueId.Some? then leagueId.value else "", roundId, opponentId,
                                      role, conversationId, None, None));
      lifecycle := Active;
    }

    /** `record_choice`: only the current match's choice changes; without a match nothing does. */
    method RecordChoice(choice: string)
      requires Valid()
      modifies this
      ensures Valid()
      ensures old(currentMatch).None? ==> Snapshot() == old(Snapshot())
      ensures old(currentMatch).Some? ==>
        Snapshot() == old(Snapshot()).(currentMatch := Some(old(currentMatch).value.(choice := Some(choice))))
    {
      if currentMatch.Some? {
        currentMatch := Some(currentMatch.value.(choice := Some(choice)));
      }
    }

    /**
     * `end_match`: without a match nothing changes; otherwise the result is
     * tallied, the match is cleared and the player is REGISTERED again.
     */
    method EndMatch(result: string)
      requires Valid()
      modifies this, stats
      ensures Valid()
      ensures Snapshot() == Ended(old(Snapshot()), result)
    {
      if currentMatch.Some? {
        currentMatch := Some(currentMatch.value.(result := Some(result)));
        stats.AddResult(result);
        currentMatch := None;
        lifecycle := Registered;
      }
    }

    /** `suspend`, from any lifecycle. */
    method Suspend()
      requires Valid()
      modifies this
      ensures Valid() && Snapshot() == old(Snapshot()).(lifecycle := Suspended) && !CanPlay()
      ensures IsRegistered() <==> playerId.Some?
    {
      lifecycle := Suspended;
    }

    /** `recover`: only SUSPENDED moves, back to REGISTERED. */
    method Recover()
      requires Valid()
      modifies this
      ensures Valid()
      ensures old(lifecycle) == Suspended ==> Snapshot() == old(Snapshot()).(lifecycle := Registered)
      ensures old(lifecycle) != Suspended ==> Snapshot() == old(Snapshot())
    {
      if lifecycle == Suspended {
        lifecycle := Registered;
      }
    }

    /** `shutdown`, from any lifecycle. */
    method Shutdown()
      requires Valid()
      modifies this
      ensures Valid() && Snapshot() == old(Snapshot()).(lifecycle := Lifecycle.Shutdown) && !CanPlay()
      ensures IsRegistered() <==> playerId.Some?
    {
      lifecycle := Lifecycle.Shutdown;
    }
  }
}
