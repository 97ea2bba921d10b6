/**
 * The match-flow message vocabulary: the roles, the result statuses a
 * GAME_OVER may carry, and the validator of a CHOOSE_PARITY_RESPONSE choice.
 */
module GameMessages {
  import opened Wrappers
  import opened JsonValue
  import opened Text
  import Parity

  datatype RoleInMatch = PlayerA | PlayerB

  function RoleValue(r: RoleInMatch): string
  {
    match r
    case PlayerA => "PLAYER_A"
    case PlayerB => "PLAYER_B"
  }

  function RoleOf(s: string): (r: Option<RoleInMatch>)
    ensures r.Some? <==> s == "PLAYER_A" || s == "PLAYER_B"
    ensures r.Some? ==> RoleValue(r.value) == s
  {
    if s == "PLAYER_A" then Some(PlayerA) else if s == "PLAYER_B" then Some(PlayerB) else None
  }

  /** A GAME_OVER status: there is no plain LOSS. */
  datatype GameResultStatus = Win | Draw | TechnicalLoss

  function StatusValue(g: GameResultStatus): string
  {
    match g
    case Win => "WIN"
    case Draw => "DRAW"
    case TechnicalLoss => "TECHNICAL_LOSS"
  }

  function StatusOf(s: string): (r: Option<GameResultStatus>)
    ensures r.Some? <==> s in {"WIN", "DRAW", "TECHNICAL_LOSS"}
    ensures r.Some? ==> StatusValue(r.value) == s
    ensures s == "LOSS" ==> r.None?
  {
    if s == "WIN" then Some(Win)
    else if s == "DRAW" then Some(Draw)
    else if s == "TECHNICAL_LOSS" then Some(TechnicalLoss)
    else None
  }

  /**
   * `ChooseParityResponse.validate_parity`, followed by the enum validation
   * pydantic runs on what it returns: a string is lower-cased and must then
   * be "even" or "odd"; any other JSON value is handed on unchanged and fails
   * the enum check.
   */
  function ValidateParity(v: Json): (r: Result<Parity.Parity, string>)
    ensures r.Ok? <==> v.JStr? && (Lower(v.s) == "even" || Lower(v.s) == "odd")
    ensures r.Ok? ==> Parity.Name(r.value) == Lower(v.s)
    ensures v.JStr? && r.Err? ==> r.error == "parity_choice must be 'even' or 'odd'"
  {
    match v
    case JStr(s) =>
      var lowered := Lower(s);
      if lowered != "even" && lowered != "odd" then Err("parity_choice must be 'even' or 'odd'")
      else Ok(Parity.FromName(lowered).value)
    case _ => Err("Input should be 'even' or 'odd'")
  }

  /** Case does not matter: strings that lower-case alike validate alike, so "EVEN" is even. */
  lemma ValidateParityIgnoresCase(s: string, t: string)
    requires Lower(s) == Lower(t)
    ensures ValidateParity(JStr(s)) == ValidateParity(JStr(t))
    ensures ValidateParity(JStr("EVEN")) == Ok(Parity.Even)
  {
    assert Lower("EVEN") == "even";
  }
}
