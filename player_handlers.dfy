/**
 * The player agent's message handler: a table routes each message type, in
 * lower or upper case, to one of nine handlers; the invitation, parity-call,
 * game-over and league-completed handlers move the player state, and every
 * handler answers with a reply payload.
 *
 * The parsed message models are inputs (`None` where validation raises),
 * the strategy's pick is the `choice` parameter and the clock reading is
 * the `now` parameter.
 */
module PlayerAgentHandlers {
  import opened Wrappers
  import opened JsonValue
  import GameMessages
  import PlayerAgentState

  datatype Kind =
    | Invitation | ChooseParity | GameOver | Standings | RoundAnnouncement
    | RoundCompleted | LeagueCompleted | LeagueError | GameError

  /** The snake-case message type routed to a handler. */
  function LowerName(k: Kind): string
  {
    match k
    case Invitation => "game_invitation"
    case ChooseParity => "choose_parity_call"
    case GameOver => "game_over"
    case Standings => "league_standings_update"
    case RoundAnnouncement => "round_announcement"
    case RoundCompleted => "round_completed"
    case LeagueCompleted => "league_completed"
    case LeagueError => "league_error"
    case GameError => "game_error"
  }

  /** The upper-case spelling of the same message type. */
  function UpperName(k: Kind): string
  {
    match k
    case Invitation => "GAME_INVITATION"
    case ChooseParity => "CHOOSE_PARITY_CALL"
    case GameOver => "GAME_OVER"
    case Standings => "LEAGUE_STANDINGS_UPDATE"
    case RoundAnnouncement => "ROUND_ANNOUNCEMENT"
    case RoundCompleted => "ROUND_COMPLETED"
    case LeagueCompleted => "LEAGUE_COMPLETED"
    case LeagueError => "LEAGUE_ERROR"
    case GameError => "GAME_ERROR"
  }

  /** The dispatch table, eighteen entries. */
  function Handlers(): map<string, Kind>
  {
    map[
      "game_invitation" := Invitation, "GAME_INVITATION" := Invitation,
      "choose_parity_call" := ChooseParity, "CHOOSE_PARITY_CALL" := ChooseParity,
      "game_over" := GameOver, "GAME_OVER" := GameOver,
      "league_standings_update" := Standings, "LEAGUE_STANDINGS_UPDATE" := Standings,
      "round_announcement" := RoundAnnouncement, "ROUND_ANNOUNCEMENT" := RoundAnnouncement,
      "round_completed" := RoundCompleted, "ROUND_COMPLETED" := RoundCompleted,
      "league_completed" := LeagueCompleted, "LEAGUE_COMPLETED" := LeagueCompleted,
      "league_error" := LeagueError, "LEAGUE_ERROR" := LeagueError,
      "game_error" := GameError, "GAME_ERROR" := GameError
    ]
  }

  /** `self._handlers.get(msgType)`. */
  function Route(msgType: string): (k: Option<Kind>)
    ensures k.Some? <==> msgType in Handlers()
    ensures k.Some? ==> msgType == LowerName(k.value) || msgType == UpperName(k.value)
  {
    if msgType in Handlers() then Some(Handlers()[msgType]) else None
  }

  /** Both spellings of every message type reach the same handler. */
  lemma RouteBothSpellings(k: Kind)
    ensures Route(LowerName(k)) == Some(k) && Route(UpperName(k)) == Some(k)
  {
  }

  /** Exactly the eighteen spellings reach a handler; anything else, mixed case included, reaches none. */
  lemma RouteUnknown(msgType: string)
    ensures Route(msgType).None? <==> forall k: Kind :: msgType != LowerName(k) && msgType != UpperName(k)
  {
    if Route(msgType).None? {
      forall k: Kind
        ensures msgType != LowerName(k) && msgType != UpperName(k)
      {
        RouteBothSpellings(k);
      }
    }
  }

  /** A validated GAME_INVITATION, with its `game_invitation` details flattened in. */
  datatype InvitationMsg = InvitationMsg(sender: string, conversationId: string, leagueId: string, roundId: int,
                                         matchId: string, role: GameMessages.RoleInMatch, opponentId: string)

  /** A validated CHOOSE_PARITY_CALL, with its `parity_context` opponent flattened in. */
  datatype ParityCallMsg = ParityCallMsg(sender: string, conversationId: string, leagueId: string, roundId: int,
                                         matchId: string, opponentId: string)

  datatype GameResult = GameResult(status: GameMessages.GameResultStatus, winnerPlayerId: Option<string>,
                                   drawnNumber: int, choices: map<string, string>)

  /** A validated GAME_OVER. */
  datatype GameOverMsg = GameOverMsg(matchId: string, gameResult: GameResult)

  /** The params of one message as each handler's model reads them; `None` where validation raises. */
  datatype Params = Params(invitation: Option<InvitationMsg>, parityCall: Option<ParityCallMsg>,
                           gameOver: Option<GameOverMsg>)

  /** `f"player:{self.state.player_id}"`: an unregistered player signs as "player:None". */
  function PlayerSender(playerId: Option<string>): (s: string)
    ensures playerId.Some? ==> s == "player:" + playerId.value
    ensures playerId.None? ==> s == "player:None"
  {
    "player:" + (if playerId.Some? then playerId.value else "None")
  }

  /** An optional string as JSON: `None` is null. */
  function OptStr(s: Option<string>): (j: Json)
    ensures s.Some? <==> j.JStr?
    ensures s.Some? ==> j == JStr(s.value)
  {
    if s.Some? then JStr(s.value) else JNull
  }

  /** The reply to an invitation: a GAME_JOIN_ACK that always accepts, echoing the invitation's ids. */
  function JoinAck(playerId: Option<string>, authToken: Option<string>, inv: InvitationMsg, now: string)
    : (m: map<string, Json>)
    ensures m.Keys == {"protocol", "message_type", "sender", "timestamp", "conversation_id", "auth_token",
                       "league_id", "round_id", "match_id", "accept"}
    ensures m["protocol"] == JStr("league.v2") && m["message_type"] == JStr("GAME_JOIN_ACK")
    ensures m["sender"] == JStr(PlayerSender(playerId)) && m["auth_token"] == OptStr(authToken)
    ensures m["conversation_id"] == JStr(inv.conversationId) && m["league_id"] == JStr(inv.leagueId)
    ensures m["round_id"] == JInt(inv.roundId) && m["match_id"] == JStr(inv.matchId)
    ensures m["accept"] == JBool(true) && m["timestamp"] == JStr(now)
  {
    map[
      "protocol" := JStr("league.v2"), "message_type" := JStr("GAME_JOIN_ACK"),
      "sender" := JStr(PlayerSender(playerId)), "timestamp" := JStr(now),
      "conversation_id" := JStr(inv.conversationId), "auth_token" := OptStr(authToken),
      "league_id" := JStr(inv.leagueId), "round_id" := JInt(inv.roundId),
      "match_id" := JStr(inv.matchId), "accept" := JBool(true)
    ]
  }

  /** The reply to a parity call: a CHOOSE_PARITY_RESPONSE carrying the strategy's choice. */
  function ParityResponse(playerId: Option<string>, authToken: Option<string>, call: ParityCallMsg,
                          choice: string, now: string): (m: map<string, Json>)
    ensures m.Keys == {"protocol", "message_type", "sender", "timestamp", "conversation_id", "auth_token",
                       "league_id", "round_id", "match_id", "player_id", "parity_choice"}
    ensures m["protocol"] == JStr("league.v2") && m["message_type"] == JStr("CHOOSE_PARITY_RESPONSE")
    ensures m["sender"] == JStr(PlayerSender(playerId)) && m["auth_token"] == OptStr(authToken)
    ensures m["conversation_id"] == JStr(call.conversationId) && m["league_id"] == JStr(call.leagueId)
    ensures m["round_id"] == JInt(call.roundId) && m["match_id"] == JStr(call.matchId)
    ensures m["player_id"] == OptStr(playerId) && m["parity_choice"] == JStr(choice)
    ensures m["timestamp"] == JStr(now)
  {
    map[
      "protocol" := JStr("league.v2"), "message_type" := JStr("CHOOSE_PARITY_RESPONSE"),
      "sender" := JStr(PlayerSender(playerId)), "timestamp" := JStr(now),
      "conversation_id" := JStr(call.conversationId), "auth_token" := OptStr(authToken),
      "league_id" := JStr(call.leagueId), "round_id" := JInt(call.roundId),
      "match_id" := JStr(call.matchId), "player_id" := OptStr(playerId),
      "parity_choice" := JStr(choice)
    ]
  }

  /**
   * The player's own result from a GAME_OVER: WIN when the winner id equals
   * the player's id (both absent included), otherwise DRAW for a draw status
   * and LOSS for anything else.
   */
  function OurResult(winner: Option<string>, playerId: Option<string>, status: GameMessages.GameResultStatus)
    : (r: string)
    ensures r == "WIN" <==> winner == playerId
    ensures r == "DRAW" <==> winner != playerId && status == GameMessages.Draw
    ensures r == "LOSS" <==> winner != playerId && status != GameMessages.Draw
  {
    if winner == playerId then "WIN"
    else if status == GameMessages.Draw then "DRAW"
    else "LOSS"
  }

  /**
   * A technical loss that does not name this player is counted as an
   * ordinary LOSS, and a game without a winner is a WIN for a player that
   * never registered.
   */
  lemma OurResultEdgeCases(winner: Option<string>, playerId: string, status: GameMessages.GameResultStatus)
    ensures winner != Some(playerId) ==> OurResult(winner, Some(playerId), GameMessages.TechnicalLoss) == "LOSS"
    ensures OurResult(None, None, status) == "WIN"
  {
  }

  /** The acknowledgement every other handler returns. */
  function Acknowledged(): (m: map<string, Json>)
    ensures m.Keys == {"status"} && m["status"] == JStr("acknowledged")
  {
    map["status" := JStr("acknowledged")]
  }

  /** The GAME_OVER acknowledgement names the match. */
  function GameOverAck(matchId: string): (m: map<string, Json>)
    ensures m.Keys == {"status", "match_id"}
    ensures m["status"] == JStr("acknowledged") && m["match_id"] == JStr(matchId)
  {
    map["status" := JStr("acknowledged"), "match_id" := JStr(matchId)]
  }

  /** The handlers that only log and acknowledge. */
  predicate AcknowledgeOnly(k: Kind)
  {
    k in {Standings, RoundAnnouncement, RoundCompleted, LeagueError, GameError}
  }

  /** The match an invitation opens, as `start_match` records it. */
  function Opened(v: PlayerAgentState.View, inv: InvitationMsg): PlayerAgentState.View
  {
    v.(lifecycle := PlayerAgentState.Active, currentMatch := Some(PlayerAgentState.MatchState(
      inv.matchId, v.leagueId.GetOr(""), inv.roundId, inv.opponentId, GameMessages.RoleValue(inv.role),
      inv.conversationId, None, None)))
  }

  /** The state `record_choice` leaves behind. */
  function Chosen(v: PlayerAgentState.View, choice: string): PlayerAgentState.View
  {
    if v.currentMatch.None? then v else v.(currentMatch := Some(v.currentMatch.value.(choice := Some(choice))))
  }

  /** An invitation always opens an ACTIVE match with no choice or result yet, whatever came before. */
  lemma OpenedIsActive(v: PlayerAgentState.View, inv: InvitationMsg)
    ensures var o := Opened(v, inv);
      o.lifecycle == PlayerAgentState.Active && o.currentMatch.Some?
      && o.currentMatch.value.matchId == inv.matchId && o.currentMatch.value.opponentId == inv.opponentId
      && o.currentMatch.value.choice.None? && o.currentMatch.value.result.None?
      && o.playerId == v.playerId && o.totalGames == v.totalGames
  {
  }

  /**
   * What one message does: the reply (`Ok(None)` for an unknown type, `Err`
   * where the handler's validation raises) and the player state afterwards.
   */
  function Handled(route: Option<Kind>, params: Params, choice: string, now: string, v: PlayerAgentState.View)
    : (Result<Option<map<string, Json>>, string>, PlayerAgentState.View)
  {
    if route.None? then (Ok(None), v)
    else match route.value
      case Invitation =>
        if params.invitation.None? then (Err("ValidationError"), v)
        else (Ok(Some(JoinAck(v.playerId, v.authToken, params.invitation.value, now))),
              Opened(v, params.invitation.value))
      case ChooseParity =>
        if params.parityCall.None? then (Err("ValidationError"), v)
        else (Ok(Some(ParityResponse(v.playerId, v.authToken, params.parityCall.value, choice, now))),
              Chosen(v, choice))
      case GameOver =>
        if params.gameOver.None? then (Err("ValidationError"), v)
        else
          var res := params.gameOver.value.gameResult;
          (Ok(Some(GameOverAck(params.gameOver.value.matchId))),
           PlayerAgentState.Ended(v, OurResult(res.winnerPlayerId, v.playerId, res.status)))
      case LeagueCompleted => (Ok(Some(Acknowledged())), v.(lifecycle := PlayerAgentState.Lifecycle.Shutdown))
      case _ => (Ok(Some(Acknowledged())), v)
  }

  /**
   * Unknown types answer nothing and change nothing; the five informational
   * handlers acknowledge and change nothing; only an invitation can make the
   * player ACTIVE, only GAME_OVER can change the tally, and LEAGUE_COMPLETED
   * shuts the player down. A rejected message changes nothing.
   */
  lemma HandledFacts(route: Option<Kind>, params: Params, choice: string, now: string, v: PlayerAgentState.View)
    requires v.totalGames == v.wins + v.draws + v.losses
    ensures var (r, w) := Handled(route, params, choice, now, v);
      && (route.None? ==> r == Ok(None) && w == v)
      && (route.Some? && AcknowledgeOnly(route.value) ==> r == Ok(Some(Acknowledged())) && w == v)
      && (r.Err? ==> w == v)
      && (route == Some(LeagueCompleted) ==> w.lifecycle == PlayerAgentState.Lifecycle.Shutdown)
      && (w.lifecycle == PlayerAgentState.Active && v.lifecycle != PlayerAgentState.Active ==>
            route == Some(Invitation))
      && (w.totalGames != v.totalGames ==> route == Some(GameOver) && w.totalGames == v.totalGames + 1)
      && w.totalGames == w.wins + w.draws + w.losses
      && w.playerId == v.playerId && w.authToken == v.authToken
  {
    if route == Some(GameOver) && params.gameOver.Some? && v.currentMatch.Some? {
      var res := params.gameOver.value.gameResult;
      PlayerAgentState.EndedTally(v, OurResult(res.winnerPlayerId, v.playerId, res.status));
    }
  }

  class MessageHandler {
    const state: PlayerAgentState.PlayerState

    constructor(state: PlayerAgentState.PlayerState)
      ensures this.state == state
    {
      this.state := state;
    }

    /** GAME_INVITATION: start the match and accept it. */
    method HandleGameInvitation(inv: Option<InvitationMsg>, now: string) returns (r: Result<map<string, Json>, string>)
      requires state.Valid()
      modifies state
      ensures state.Valid()
      ensures inv.None? ==> r == Err("ValidationError") && state.Snapshot() == old(state.Snapshot())
      ensures inv.Some? ==>
        r == Ok(JoinAck(old(state.playerId), old(state.authToken), inv.value, now))
        && state.Snapshot() == Opened(old(state.Snapshot()), inv.value)
    {
      if inv.None? {
        return Err("ValidationError");
      }
      var msg := inv.value;
      state.StartMatch(msg.matchId, msg.roundId, msg.opponentId, GameMessages.RoleValue(msg.role), msg.conversationId);
      r := Ok(JoinAck(state.playerId, state.authToken, msg, now));
    }

    /** CHOOSE_PARITY_CALL: record the strategy's choice and send it back. */
    method HandleChooseParity(call: Option<ParityCallMsg>, choice: string, now: string)
      returns (r: Result<map<string, Json>, string>)
      requires state.Valid()
      modifies state
      ensures state.Valid()
      ensures call.None? ==> r == Err("ValidationError") && state.Snapshot() == old(state.Snapshot())
      ensures call.Some? ==>
        r == Ok(ParityResponse(old(state.playerId), old(state.authToken), call.value, choice, now))
        && state.Snapshot() == Chosen(old(state.Snapshot()), choice)
    {
      if call.None? {
        return Err("ValidationError");
      }
      state.RecordChoice(choice);
      r := Ok(ParityResponse(state.playerId, state.authToken, call.value, choice, now));
    }

    /** GAME_OVER: work out the player's own result, end the match with it and acknowledge. */
    method HandleGameOver(over: Option<GameOverMsg>) returns (r: Result<map<string, Json>, string>)
      requires state.Valid()
      modifies state, state.stats
      ensures state.Valid()
      ensures over.None? ==> r == Err("ValidationError") && state.Snapshot() == old(state.Snapshot())
      ensures over.Some? ==>
        var res := over.value.gameResult;
        r == Ok(GameOverAck(over.value.matchId))
        && state.Snapshot() == PlayerAgentState.Ended(old(state.Snapshot()),
                                                      OurResult(res.winnerPlayerId, old(state.playerId), res.status))
    {
      if over.None? {
        return Err("ValidationError");
      }
      var res := over.value.gameResult;
      var ours := OurResult(res.winnerPlayerId, state.playerId, res.status);
      state.EndMatch(ours);
      r := Ok(GameOverAck(over.value.matchId));
    }

    /** LEAGUE_COMPLETED: shut down and acknowledge. */
    method HandleLeagueCompleted() returns (r: map<string, Json>)
      requires state.Valid()
      modifies state
      ensures state.Valid()
      ensures r == Acknowledged()
      ensures state.Snapshot() == old(state.Snapshot()).(lifecycle := PlayerAgentState.Lifecycle.Shutdown)
    {
      state.Shutdown();
      r := Acknowledged();
    }

    /** `handle_message`: the routed handler's reply and state change, as `Handled` describes them. */
    method HandleMessage(msgType: string, params: Params, choice: string, now: string)
      returns (r: Result<Option<map<string, Json>>, string>)
      requires state.Valid()
      modifies state, state.stats
      ensures state.Valid()
      ensures (r, state.Snapshot()) == Handled(Route(msgType), params, choice, now, old(state.Snapshot()))
    {
      var route := Route(msgType);
      if route.None? {
        return Ok(None);
      }
      match route.value {
        case Invitation =>
          var reply := HandleGameInvitation(params.invitation, now);
          r := if reply.Ok? then Ok(Some(reply.value)) else Err(reply.error);
        case ChooseParity =>
          var reply := HandleChooseParity(params.parityCall, choice, now);
          r := if reply.Ok? then Ok(Some(reply.value)) else Err(reply.error);
        case GameOver =>
          var reply := HandleGameOver(params.gameOver);
          r := if reply.Ok? then Ok(Some(reply.value)) else Err(reply.error);
        case LeagueCompleted =>
          var reply := HandleLeagueCompleted();
          r := Ok(Some(reply));
        case _ =>
          r := Ok(Some(Acknowledged()));
      }
    }
  }
}
