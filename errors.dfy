/**
 * Error codes of the league.v2 protocol, which of them may be retried, and
 * the context dictionary the LEAGUE_ERROR and GAME_ERROR messages carry.
 */
module ProtocolErrors {
  import opened Wrappers
  import opened JsonValue
  import Helpers

  datatype ErrorCode =
    | TimeoutError | ConnectionError
    | MissingRequiredField | InvalidParityChoice
    | PlayerNotRegistered
    | AuthTokenMissing | AuthTokenInvalid
    | ProtocolVersionMismatch | InvalidTimestamp

  function Value(c: ErrorCode): string
  {
    match c
    case TimeoutError => "E001"
    case ConnectionError => "E009"
    case MissingRequiredField => "E003"
    case InvalidParityChoice => "E004"
    case PlayerNotRegistered => "E005"
    case AuthTokenMissing => "E011"
    case AuthTokenInvalid => "E012"
    case ProtocolVersionMismatch => "E018"
    case InvalidTimestamp => "E021"
  }

  /** `ErrorCode(s)`: `None` where the enum constructor raises `ValueError`. */
  function FromValue(s: string): (r: Option<ErrorCode>)
    ensures r.Some? <==> s in {"E001", "E009", "E003", "E004", "E005", "E011", "E012", "E018", "E021"}
    ensures r.Some? ==> Value(r.value) == s
  {
    if s == "E001" then Some(TimeoutError)
    else if s == "E009" then Some(ConnectionError)
    else if s == "E003" then Some(MissingRequiredField)
    else if s == "E004" then Some(InvalidParityChoice)
    else if s == "E005" then Some(PlayerNotRegistered)
    else if s == "E011" then Some(AuthTokenMissing)
    else if s == "E012" then Some(AuthTokenInvalid)
    else if s == "E018" then Some(ProtocolVersionMismatch)
    else if s == "E021" then Some(InvalidTimestamp)
    else None
  }

  const RetryableErrors: set<ErrorCode> := {TimeoutError, ConnectionError}

  /**
   * `is_retryable`: the code is looked up in the enum (an unknown string is
   * not retryable) and then in the retryable set. The answer is the same as
   * the SDK helper's plain string comparison.
   */
  function IsRetryable(errorCode: string): (r: bool)
    ensures r <==> errorCode == "E001" || errorCode == "E009"
    ensures r == Helpers.IsRetryableError(errorCode)
  {
    match FromValue(errorCode)
    case None => false
    case Some(code) => code in RetryableErrors
  }

  /** The name and description table of `create_error_context`. */
  const ErrorInfo: map<ErrorCode, (string, string)> := map[
    TimeoutError := ("TIMEOUT_ERROR", "Response not received in time"),
    ConnectionError := ("CONNECTION_ERROR", "Connection failure"),
    MissingRequiredField := ("MISSING_REQUIRED_FIELD", "Required field missing"),
    InvalidParityChoice := ("INVALID_PARITY_CHOICE", "Invalid choice (not 'even' or 'odd')"),
    PlayerNotRegistered := ("PLAYER_NOT_REGISTERED", "Player ID not found in registry"),
    AuthTokenMissing := ("AUTH_TOKEN_MISSING", "Auth token not included"),
    AuthTokenInvalid := ("AUTH_TOKEN_INVALID", "Auth token is invalid"),
    ProtocolVersionMismatch := ("PROTOCOL_VERSION_MISMATCH", "Protocol version incompatible"),
    InvalidTimestamp := ("INVALID_TIMESTAMP", "Timestamp not in UTC format")
  ]

  /** `error_info.get(code, {"name": "UNKNOWN", ...})`. */
  function Info(c: ErrorCode): (string, string)
  {
    if c in ErrorInfo then ErrorInfo[c] else ("UNKNOWN", "Unknown error")
  }

  /** Every code has its own table entry: the default is never used and no two codes share a name. */
  lemma EveryCodeNamed(c: ErrorCode, d: ErrorCode)
    ensures c in ErrorInfo
    ensures Info(c).0 != "UNKNOWN"
    ensures Info(c).0 == Info(d).0 ==> c == d
  {
  }

  /**
   * `create_error_context(code, **kwargs)`: the four standard fields, then the
   * keyword fields, which are spread last and so win on a shared key. A keyword
   * field named `error_code` is a second value for the function's own parameter,
   * which Python refuses with a TypeError before the body runs.
   */
  function CreateErrorContext(c: ErrorCode, kwargs: map<string, Json>): (r: Result<map<string, Json>, string>)
    ensures r.Err? <==> "error_code" in kwargs
    ensures r.Ok? ==>
      && r.value.Keys == {"error_code", "error_name", "error_description", "retryable"} + kwargs.Keys
      && (forall k | k in kwargs :: r.value[k] == kwargs[k])
      && r.value["error_code"] == JStr(Value(c))
      && ("retryable" !in kwargs ==> r.value["retryable"] == JBool(IsRetryable(Value(c))))
      && ("error_name" !in kwargs ==> r.value["error_name"].JStr? && r.value["error_name"].s != "UNKNOWN")
  {
    if "error_code" in kwargs then
      Err("TypeError: create_error_context() got multiple values for argument 'error_code'")
    else
      EveryCodeNamed(c, c);
      var info := Info(c);
      Ok(map["error_code" := JStr(Value(c)),
             "error_name" := JStr(info.0),
             "error_description" := JStr(info.1),
             "retryable" := JBool(IsRetryable(Value(c)))] + kwargs)
  }

  /** Only timeouts and connection failures are marked retryable in a context without overrides. */
  lemma ContextRetryable(c: ErrorCode)
    ensures CreateErrorContext(c, map[]).Ok?
    ensures CreateErrorContext(c, map[]).value["retryable"] == JBool(c == TimeoutError || c == ConnectionError)
  {
  }
}
