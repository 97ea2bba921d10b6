/**
 * A player agent's handling of LEAGUE_ERROR and GAME_ERROR messages: parse the
 * error, count it per error code, choose a recovery action from a fixed table
 * and run the matching callback.
 */
module ErrorHandlers {
  import opened Wrappers
  import opened JsonValue

  datatype RecoveryAction = Ignore | LogOnly | Retry | ReRegister | Abort

  /** The recovery table, keyed by error code. */
  const RecoveryMap: map<string, RecoveryAction> := map[
    "E001" := Retry, "E009" := Retry, "E010" := Retry,
    "E011" := ReRegister, "E012" := ReRegister,
    "E002" := LogOnly, "E003" := Abort, "E004" := LogOnly, "E005" := ReRegister,
    "E006" := LogOnly, "E007" := LogOnly, "E008" := LogOnly]

  /**
   * `get_recovery_action`: the table entry, or LOG_ONLY for any other code;
   * a list or dict code cannot be looked up and raises `TypeError`.
   */
  function GetRecoveryAction(code: Json): (r: Result<RecoveryAction, string>)
    ensures r.Err? <==> !Hashable(code)
    ensures code.JStr? && code.s in {"E001", "E009", "E010"} ==> r == Ok(Retry)
    ensures code.JStr? && code.s in {"E011", "E012", "E005"} ==> r == Ok(ReRegister)
    ensures r == Ok(Abort) <==> code == JStr("E003")
    ensures r != Ok(Ignore)
    ensures Hashable(code) && !(code.JStr? && code.s in RecoveryMap) ==> r == Ok(LogOnly)
  {
    if !Hashable(code) then Err("TypeError: unhashable type")
    else if code.JStr? && code.s in RecoveryMap then Ok(RecoveryMap[code.s])
    else Ok(LogOnly)
  }

  /** The parsed fields of an error message; every field holds whatever the params held. */
  datatype ErrorContext = ErrorContext(
    errorCode: Json,
    errorName: Json,
    errorDescription: Json,
    retryable: Json,
    sender: Json,
    matchId: Json,
    playerId: Json)

  /** `parse_error`: missing fields take their defaults; match and player id default to None. */
  function ParseError(params: map<string, Json>): (e: ErrorContext)
    ensures "error_code" !in params ==> e.errorCode == JStr("UNKNOWN")
    ensures "error_name" !in params ==> e.errorName == JStr("UNKNOWN_ERROR")
    ensures "error_description" !in params ==> e.errorDescription == JStr("")
    ensures "retryable" !in params ==> e.retryable == JBool(false)
    ensures "sender" !in params ==> e.sender == JStr("unknown")
    ensures "match_id" !in params ==> e.matchId == JNull
    ensures "player_id" !in params ==> e.playerId == JNull
    ensures "error_code" in params ==> e.errorCode == params["error_code"]
    ensures "error_name" in params ==> e.errorName == params["error_name"]
    ensures "sender" in params ==> e.sender == params["sender"]
  {
    ErrorContext(
      Get(params, "error_code", JStr("UNKNOWN")),
      Get(params, "error_name", JStr("UNKNOWN_ERROR")),
      Get(params, "error_description", JStr("")),
      Get(params, "retryable", JBool(false)),
      Get(params, "sender", JStr("unknown")),
      Get(params, "match_id", JNull),
      Get(params, "player_id", JNull))
  }

  /** `_record_error`: one more for this code, every other count unchanged. */
  function Record(counts: map<Json, nat>, code: Json): (r: map<Json, nat>)
    ensures r.Keys == counts.Keys + {code}
    ensures r[code] == (if code in counts then counts[code] else 0) + 1
    ensures forall k | k in counts && k != code :: r[k] == counts[k]
  {
    counts[code := (if code in counts then counts[code] else 0) + 1]
  }

  /** The callbacks a recovery action runs. */
  datatype Callback = ReRegisterCallback | AbortCallback

  /**
   * `_execute_action`: re-register and abort run their callback only when one
   * was given; RETRY, LOG_ONLY and IGNORE run none.
   */
  function Callbacks(action: RecoveryAction, hasReRegister: bool, hasAbort: bool): (r: seq<Callback>)
    ensures |r| <= 1
    ensures r == [ReRegisterCallback] <==> action == ReRegister && hasReRegister
    ensures r == [AbortCallback] <==> action == Abort && hasAbort
  {
    if action == ReRegister && hasReRegister then [ReRegisterCallback]
    else if action == Abort && hasAbort then [AbortCallback]
    else []
  }

  /** The acknowledgement both handlers return. */
  function Acknowledgement(code: Json): (m: map<string, Json>)
    ensures m.Keys == {"status", "error_code"}
    ensures m["status"] == JStr("acknowledged") && m["error_code"] == code
  {
    map["status" := JStr("acknowledged"), "error_code" := code]
  }

  /** Which kind of error message arrived; the two kinds differ only in what they log. */
  datatype ErrorKind = LeagueError | GameError

  class ErrorHandler {
    const hasReRegister: bool
    const hasAbort: bool
    var errorCounts: map<Json, nat>
    /** The callbacks run so far, in order. */
    var callbacks: seq<Callback>

    /** Every counted code is a dictionary key Python accepts, counted at least once. */
    ghost predicate Valid()
      reads this
    {
      forall code | code in errorCounts :: errorCounts[code] >= 1 && Hashable(code) && !code.JBool?
    }

    constructor(hasReRegister: bool, hasAbort: bool)
      ensures Valid()
      ensures this.hasReRegister == hasReRegister && this.hasAbort == hasAbort
      ensures errorCounts == map[] && callbacks == []
    {
      this.hasReRegister := hasReRegister;
      this.hasAbort := hasAbort;
      errorCounts := map[];
      callbacks := [];
    }

    /**
     * `handle_league_error` and `handle_game_error`: count the code, run the
     * recovery callback, acknowledge. A list or dict error code cannot be a
     * dictionary key, so counting it raises `TypeError` before anything changes.
     */
    method HandleError(kind: ErrorKind, params: map<string, Json>) returns (r: Result<map<string, Json>, string>)
      requires Valid()
      modifies this
      ensures Valid()
      ensures var code := ParseError(params).errorCode;
        if Hashable(code) then
          r == Ok(Acknowledgement(code))
          && errorCounts == Record(old(errorCounts), HashKey(code))
          && callbacks == old(callbacks) + Callbacks(GetRecoveryAction(code).value, hasReRegister, hasAbort)
        else
          r.Err? && errorCounts == old(errorCounts) && callbacks == old(callbacks)
    {
      var error := ParseError(params);
      if !Hashable(error.errorCode) {
        return Err("TypeError: unhashable type");
      }
      errorCounts := Record(errorCounts, HashKey(error.errorCode));
      var action := GetRecoveryAction(error.errorCode).value;
      callbacks := callbacks + Callbacks(action, hasReRegister, hasAbort);
      r := Ok(Acknowledgement(error.errorCode));
    }

    /**
     * `get_error_stats`: the counts, as a value the caller cannot alias; only
     * codes that arrived are listed, each with its number of arrivals.
     */
    function GetErrorStats(): (stats: map<Json, nat>)
      requires Valid()
      reads this
      ensures forall code | code in stats :: stats[code] >= 1 && Hashable(code) && !code.JBool?
    {
      errorCounts
    }

    /** `reset_stats`: no counts left; callbacks already run stay run. */
    method ResetStats()
      modifies this
      ensures Valid()
      ensures errorCounts == map[] && callbacks == old(callbacks)
    {
      errorCounts := map[];
    }
  }
}
