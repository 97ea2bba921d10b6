/**
 * The league SDK's base schemas: the closed enumerations of the protocol and
 * the message envelope with its two field validators.
 */
module SchemasBase {
  import opened Wrappers
  import Helpers
  import ProtocolEnvelope
  import Text

  datatype GameResult = Win | Loss | Draw | TechnicalLoss

  function GameResultValue(g: GameResult): string
  {
    match g
    case Win => "WIN"
    case Loss => "LOSS"
    case Draw => "DRAW"
    case TechnicalLoss => "TECHNICAL_LOSS"
  }

  /** `GameResult(s)`: the member whose value is `s`, if any. */
  function GameResultOf(s: string): (r: Option<GameResult>)
    ensures r.Some? <==> s in {"WIN", "LOSS", "DRAW", "TECHNICAL_LOSS"}
    ensures r.Some? ==> GameResultValue(r.value) == s
  {
    if s == "WIN" then Some(Win)
    else if s == "LOSS" then Some(Loss)
    else if s == "DRAW" then Some(Draw)
    else if s == "TECHNICAL_LOSS" then Some(TechnicalLoss)
    else None
  }

  datatype MatchRole = PlayerA | PlayerB

  function MatchRoleValue(r: MatchRole): string
  {
    match r
    case PlayerA => "PLAYER_A"
    case PlayerB => "PLAYER_B"
  }

  function MatchRoleOf(s: string): (r: Option<MatchRole>)
    ensures r.Some? <==> s in {"PLAYER_A", "PLAYER_B"}
    ensures r.Some? ==> MatchRoleValue(r.value) == s
  {
    if s == "PLAYER_A" then Some(PlayerA) else if s == "PLAYER_B" then Some(PlayerB) else None
  }

  datatype AgentState = Init | Registered | Active | Suspended | Shutdown

  function AgentStateValue(a: AgentState): string
  {
    match a
    case Init => "INIT"
    case Registered => "REGISTERED"
    case Active => "ACTIVE"
    case Suspended => "SUSPENDED"
    case Shutdown => "SHUTDOWN"
  }

  function AgentStateOf(s: string): (r: Option<AgentState>)
    ensures r.Some? <==> s in {"INIT", "REGISTERED", "ACTIVE", "SUSPENDED", "SHUTDOWN"}
    ensures r.Some? ==> AgentStateValue(r.value) == s
  {
    if s == "INIT" then Some(Init)
    else if s == "REGISTERED" then Some(Registered)
    else if s == "ACTIVE" then Some(Active)
    else if s == "SUSPENDED" then Some(Suspended)
    else if s == "SHUTDOWN" then Some(Shutdown)
    else None
  }

  /** The ten protocol error codes of the SDK, named by their values. */
  datatype ErrorCode = E001 | E003 | E004 | E005 | E006 | E009 | E011 | E012 | E018 | E021

  function ErrorCodeValue(c: ErrorCode): string
  {
    match c
    case E001 => "E001"
    case E003 => "E003"
    case E004 => "E004"
    case E005 => "E005"
    case E006 => "E006"
    case E009 => "E009"
    case E011 => "E011"
    case E012 => "E012"
    case E018 => "E018"
    case E021 => "E021"
  }

  function ErrorCodeOf(s: string): (r: Option<ErrorCode>)
    ensures r.Some? <==> s in {"E001", "E003", "E004", "E005", "E006", "E009", "E011", "E012", "E018", "E021"}
    ensures r.Some? ==> ErrorCodeValue(r.value) == s
  {
    if s == "E001" then Some(E001)
    else if s == "E003" then Some(E003)
    else if s == "E004" then Some(E004)
    else if s == "E005" then Some(E005)
    else if s == "E006" then Some(E006)
    else if s == "E009" then Some(E009)
    else if s == "E011" then Some(E011)
    else if s == "E012" then Some(E012)
    else if s == "E018" then Some(E018)
    else if s == "E021" then Some(E021)
    else None
  }

  /** Every member is found again from its value, so the value sets above are the enums exactly. */
  lemma EnumValuesRoundTrip(g: GameResult, m: MatchRole, a: AgentState, c: ErrorCode)
    ensures GameResultOf(GameResultValue(g)) == Some(g)
    ensures MatchRoleOf(MatchRoleValue(m)) == Some(m)
    ensures AgentStateOf(AgentStateValue(a)) == Some(a)
    ensures ErrorCodeOf(ErrorCodeValue(c)) == Some(c)
  {
  }

  /**
   * `is_retryable_error` compares plain strings, yet it picks out exactly two
   * members of the enum: E001, the timeout, and E009, the connection error.
   */
  lemma RetryableErrorCodes(s: string)
    ensures Helpers.IsRetryableError(s) <==> ErrorCodeOf(s) == Some(E001) || ErrorCodeOf(s) == Some(E009)
  {
  }

  /** `validate_utc_timestamp`: the SDK's two UTC patterns, raising on anything else. */
  function ValidateUtcTimestamp(v: string): (r: Result<string, string>)
    ensures r.Ok? ==> r.value == v
    ensures r.Err? ==> r.error == "Timestamp must be UTC (Z or +00:00)"
    ensures r.Ok? <==> Helpers.ValidateUtc(v)
  {
    var t := Helpers.AnchoredText(v);
    if !(Helpers.ZForm(t) || Helpers.OffsetForm(t)) then Err("Timestamp must be UTC (Z or +00:00)")
    else Ok(v)
  }

  /** `MessageEnvelope.validate_sender`: only a ':' is required. */
  function ValidateSender(v: string): (r: Result<string, string>)
    ensures r.Ok? <==> ':' in v
    ensures r.Ok? ==> r.value == v
  {
    if ':' !in v then Err("Sender must be format 'type:id'") else Ok(v)
  }

  datatype MessageEnvelope = MessageEnvelope(
    protocol: string, messageType: string, sender: string,
    timestamp: string, conversationId: string, authToken: Option<string>)

  /**
   * Constructing a `MessageEnvelope`: the protocol field is the literal
   * "league.v2"; pydantic reports every failing field, in field order.
   */
  function MakeMessageEnvelope(
    protocol: string, messageType: string, sender: string,
    timestamp: string, conversationId: string, authToken: Option<string>): (r: Result<MessageEnvelope, seq<string>>)
    ensures r.Ok? <==> protocol == "league.v2" && ':' in sender && Helpers.ValidateUtc(timestamp)
    ensures r.Ok? ==> r.value == MessageEnvelope("league.v2", messageType, sender, timestamp, conversationId, authToken)
    ensures r.Err? ==> 1 <= |r.error| <= 3
  {
    var errors :=
      (if protocol != "league.v2" then ["Input should be 'league.v2'"] else [])
      + (match ValidateSender(sender) case Err(e) => [e] case Ok(_) => [])
      + (match ValidateUtcTimestamp(timestamp) case Err(e) => [e] case Ok(_) => []);
    if errors == [] then Ok(MessageEnvelope(protocol, messageType, sender, timestamp, conversationId, authToken))
    else Err(errors)
  }

  /**
   * The two envelope revisions disagree on senders: this one refuses the bare
   * "league_manager" that the player protocol accepts, and accepts
   * "manager:MANAGER", whose type the player protocol refuses.
   */
  lemma SenderRulesDiffer()
    ensures ValidateSender("league_manager").Err?
    ensures ProtocolEnvelope.ValidateSenderFormat("league_manager").Ok?
    ensures ValidateSender("manager:MANAGER").Ok?
    ensures ProtocolEnvelope.ValidateSenderFormat("manager:MANAGER").Err?
  {
    BareManagerSender("league_manager");
    TypedManagerSender("manager:MANAGER");
  }

  lemma BareManagerSender(v: string)
    requires v == "league_manager"
    ensures ValidateSender(v).Err? && ProtocolEnvelope.ValidateSenderFormat(v).Ok?
  {
    ProtocolEnvelope.BareManagerHasNoColon();
  }

  lemma TypedManagerSender(v: string)
    requires v == "manager:MANAGER"
    ensures ValidateSender(v).Ok? && ProtocolEnvelope.ValidateSenderFormat(v).Err?
  {
    assert v[7] == ':';
    assert v == "manager" + [':'] + "MANAGER";
    Text.SplitFirstAfter("manager", ':', "MANAGER");
    var senderType := "manager";
    assert senderType != "player" by { assert |senderType| != |"player"|; }
    assert senderType != "referee" by { assert senderType[0] != "referee"[0]; }
    assert v != "league_manager" by { assert |v| != |"league_manager"|; }
  }
}
