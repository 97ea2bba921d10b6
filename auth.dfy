/**
 * Security helpers of the league SDK: a sliding-window rate limiter per
 * sender, the registry of agents' auth tokens, the set of message types that
 * need a token, and display-name sanitising.
 */
module Auth {
  import opened Wrappers
  import opened Text

  const DefaultRateLimit: int := 100
  const RateLimitWindowSeconds: int := 60
  const MaxDisplayNameLength: nat := 50
  const TokenMinLength: nat := 16

  /** `[t for t in ts if t > windowStart]`. */
  function Prune(ts: seq<int>, windowStart: int): (kept: seq<int>)
    ensures |kept| <= |ts|
    ensures forall t :: t in kept <==> t in ts && t > windowStart
    ensures forall i :: 0 <= i < |kept| ==> kept[i] > windowStart
  {
    if ts == [] then []
    else (if ts[0] > windowStart then [ts[0]] else []) + Prune(ts[1..], windowStart)
  }

  function Max0(n: int): nat
  {
    if n < 0 then 0 else n
  }

  /**
   * One `is_allowed(sender)` call at time `now` on the per-sender lists:
   * the sender's list is pruned to the window in every case, and `now` is
   * appended only when the pruned list is below the limit.
   */
  function Admit<K>(requests: map<K, seq<int>>, maxRequests: int, windowSeconds: int, sender: K, now: int)
    : (r: (bool, map<K, seq<int>>))
    ensures sender in r.1
    ensures forall k | k in requests && k != sender :: k in r.1 && r.1[k] == requests[k]
    ensures r.1.Keys == requests.Keys + {sender}
    ensures var kept := Prune(if sender in requests then requests[sender] else [], now - windowSeconds);
      (r.0 <==> |kept| < maxRequests)
      && r.1[sender] == (if r.0 then kept + [now] else kept)
  {
    var kept := Prune(if sender in requests then requests[sender] else [], now - windowSeconds);
    if |kept| >= maxRequests then (false, requests[sender := kept])
    else (true, requests[sender := kept + [now]])
  }

  /** `get_remaining`: what is left of the sender's quota at `now`; nothing is stored. */
  function Remaining<K>(requests: map<K, seq<int>>, maxRequests: int, windowSeconds: int, sender: K, now: int): (n: nat)
  {
    Max0(maxRequests - |Prune(if sender in requests then requests[sender] else [], now - windowSeconds)|)
  }

  /** A call is allowed exactly when some quota remains, and an allowed call uses up one unit. */
  lemma RemainingAgreesWithAdmit<K>(requests: map<K, seq<int>>, maxRequests: int, windowSeconds: int, sender: K, now: int)
    ensures Admit(requests, maxRequests, windowSeconds, sender, now).0
      <==> Remaining(requests, maxRequests, windowSeconds, sender, now) > 0
    ensures var r := Admit(requests, maxRequests, windowSeconds, sender, now);
      r.0 && windowSeconds > 0 ==>
        Remaining(r.1, maxRequests, windowSeconds, sender, now)
        == Remaining(requests, maxRequests, windowSeconds, sender, now) - 1
  {
    var kept := Prune(if sender in requests then requests[sender] else [], now - windowSeconds);
    var r := Admit(requests, maxRequests, windowSeconds, sender, now);
    assert r.0 <==> |kept| < maxRequests;
    assert Remaining(requests, maxRequests, windowSeconds, sender, now) == Max0(maxRequests - |kept|);
    if r.0 && windowSeconds > 0 {
      assert r.1[sender] == kept + [now];
      PruneKeepsRecent(kept, now - windowSeconds);
      PruneAppend(kept, now, now - windowSeconds);
      assert Prune(r.1[sender], now - windowSeconds) == kept + [now];
      assert Remaining(r.1, maxRequests, windowSeconds, sender, now) == Max0(maxRequests - |kept| - 1);
    }
  }

  /** Pruning an already pruned list changes nothing. */
  lemma {:induction false} PruneKeepsRecent(ts: seq<int>, windowStart: int)
    requires forall i :: 0 <= i < |ts| ==> ts[i] > windowStart
    ensures Prune(ts, windowStart) == ts
  {
    if ts != [] {
      PruneKeepsRecent(ts[1..], windowStart);
    }
  }

  lemma {:induction false} PruneAppend(ts: seq<int>, t: int, windowStart: int)
    ensures Prune(ts + [t], windowStart) == Prune(ts, windowStart) + (if t > windowStart then [t] else [])
  {
    if ts == [] {
      assert ts + [t] == [t];
    } else {
      assert (ts + [t])[1..] == ts[1..] + [t];
      PruneAppend(ts[1..], t, windowStart);
    }
  }

  /** The list comprehension of `is_allowed`, as the loop it is. */
  method PruneWindow(ts: seq<int>, windowStart: int) returns (kept: seq<int>)
    ensures kept == Prune(ts, windowStart)
  {
    kept := [];
    var i := 0;
    while i < |ts|
      invariant 0 <= i <= |ts|
      invariant kept == Prune(ts[..i], windowStart)
    {
      PruneAppend(ts[..i], ts[i], windowStart);
      assert ts[..i + 1] == ts[..i] + [ts[i]];
      if ts[i] > windowStart {
        kept := kept + [ts[i]];
      }
      i := i + 1;
    }
    assert ts[..i] == ts;
  }

  /** Every sender's stored list holds at most `max(0, maxRequests)` times. */
  predicate WithinLimit<K>(requests: map<K, seq<int>>, maxRequests: int)
  {
    forall k | k in requests :: |requests[k]| <= Max0(maxRequests)
  }

  lemma AdmitKeepsLimit<K>(requests: map<K, seq<int>>, maxRequests: int, windowSeconds: int, sender: K, now: int)
    requires WithinLimit(requests, maxRequests)
    ensures WithinLimit(Admit(requests, maxRequests, windowSeconds, sender, now).1, maxRequests)
  {
  }

  /** The rate limiter: `requests` is the `_requests` dictionary of per-sender request times. */
  class RateLimiter<K(==)> {
    var maxRequests: int
    var windowSeconds: int
    var requests: map<K, seq<int>>

    ghost predicate Valid()
      reads this
    {
      WithinLimit(requests, maxRequests)
    }

    constructor (maxRequests: int, windowSeconds: int)
      ensures this.maxRequests == maxRequests && this.windowSeconds == windowSeconds
      ensures requests == map[]
      ensures Valid()
    {
      this.maxRequests := maxRequests;
      this.windowSeconds := windowSeconds;
      requests := map[];
    }

    /** `is_allowed(sender)` with the clock read passed in as `now`. */
    method IsAllowed(sender: K, now: int) returns (allowed: bool)
      requires Valid()
      modifies this
      ensures Valid()
      ensures maxRequests == old(maxRequests) && windowSeconds == old(windowSeconds)
      ensures (allowed, requests) == Admit(old(requests), maxRequests, windowSeconds, sender, now)
    {
      AdmitKeepsLimit(requests, maxRequests, windowSeconds, sender, now);
      var kept := PruneWindow(if sender in requests then requests[sender] else [], now - windowSeconds);
      requests := requests[sender := kept];
      if |kept| >= maxRequests {
        return false;
      }
      requests := requests[sender := kept + [now]];
      assert requests == old(requests)[sender := kept + [now]];
      return true;
    }

    /** `get_remaining(sender)`. */
    function GetRemaining(sender: K, now: int): (n: nat)
      reads this
      ensures n <= Max0(maxRequests)
      ensures n > 0 <==> Admit(requests, maxRequests, windowSeconds, sender, now).0
    {
      RemainingAgreesWithAdmit(requests, maxRequests, windowSeconds, sender, now);
      Remaining(requests, maxRequests, windowSeconds, sender, now)
    }
  }

  /** The two token dictionaries: token to agent, and agent to its current token. */
  datatype TokenTables = TokenTables(validTokens: map<string, string>, agentTokens: map<string, string>)

  function RegisterSpec(t: TokenTables, agentId: string, token: string): (u: TokenTables)
    ensures u.validTokens == t.validTokens[token := agentId]
    ensures u.agentTokens == t.agentTokens[agentId := token]
  {
    TokenTables(t.validTokens[token := agentId], t.agentTokens[agentId := token])
  }

  /** `unregister_token`: the agent's current token is forgotten; an empty token stays valid because it is falsy. */
  function UnregisterSpec(t: TokenTables, agentId: string): (u: TokenTables)
    ensures u.agentTokens == t.agentTokens - {agentId}
    ensures agentId in t.agentTokens && t.agentTokens[agentId] != "" ==>
      u.validTokens == t.validTokens - {t.agentTokens[agentId]}
    ensures agentId !in t.agentTokens || t.agentTokens[agentId] == "" ==> u.validTokens == t.validTokens
  {
    var token := if agentId in t.agentTokens then t.agentTokens[agentId] else "";
    var agents := t.agentTokens - {agentId};
    if token != "" then TokenTables(t.validTokens - {token}, agents)
    else TokenTables(t.validTokens, agents)
  }

  /** `validate_token(token, expected_agent_id)`; None and "" are both falsy. */
  predicate ValidateSpec(t: TokenTables, token: Option<string>, expectedAgentId: Option<string>)
  {
    if token.None? || token.value == "" || |token.value| < TokenMinLength then false
    else if token.value !in t.validTokens then false
    else if expectedAgentId.Some? && expectedAgentId.value != "" then t.validTokens[token.value] == expectedAgentId.value
    else true
  }

  /** A freshly registered token names its agent and validates, with or without that agent, iff it is long enough. */
  lemma RegisterThenValidate(t: TokenTables, agentId: string, token: string)
    ensures var u := RegisterSpec(t, agentId, token);
      token in u.validTokens && u.validTokens[token] == agentId
      && (ValidateSpec(u, Some(token), None) <==> |token| >= 16)
      && (ValidateSpec(u, Some(token), Some(agentId)) <==> |token| >= 16)
  {
  }

  /** A token shorter than 16 characters never validates, whatever the tables hold. */
  lemma ShortTokensRejected(t: TokenTables, token: string, expected: Option<string>)
    requires |token| < 16
    ensures !ValidateSpec(t, Some(token), expected) && !ValidateSpec(t, None, expected)
  {
  }

  /**
   * Re-registering an agent does not revoke its earlier token, and
   * unregistering then removes only the newer one: the superseded token
   * still validates.
   */
  lemma SupersededTokenSurvives(t: TokenTables, agentId: string, first: string, second: string)
    requires |first| >= 16 && first != second && second != ""
    ensures var u := UnregisterSpec(RegisterSpec(RegisterSpec(t, agentId, first), agentId, second), agentId);
      ValidateSpec(u, Some(first), Some(agentId)) && !ValidateSpec(u, Some(second), None)
  {
  }

  /** The token registry of an agent's server. */
  class AuthTokenValidator {
    var validTokens: map<string, string>
    var agentTokens: map<string, string>

    function Tables(): TokenTables
      reads this
    {
      TokenTables(validTokens, agentTokens)
    }

    constructor ()
      ensures Tables() == TokenTables(map[], map[])
    {
      validTokens := map[];
      agentTokens := map[];
    }

    method RegisterToken(agentId: string, token: string)
      modifies this
      ensures Tables() == RegisterSpec(old(Tables()), agentId, token)
    {
      validTokens := validTokens[token := agentId];
      agentTokens := agentTokens[agentId := token];
    }

    method UnregisterToken(agentId: string)
      modifies this
      ensures Tables() == UnregisterSpec(old(Tables()), agentId)
    {
      var token := if agentId in agentTokens then agentTokens[agentId] else "";
      agentTokens := agentTokens - {agentId};
      if token != "" {
        validTokens := validTokens - {token};
      }
    }

    /** `validate_token`. */
    function ValidateToken(token: Option<string>, expectedAgentId: Option<string>): (ok: bool)
      reads this
      ensures ok ==> token.Some? && |token.value| >= TokenMinLength && token.value in validTokens
      ensures ok && expectedAgentId.Some? && expectedAgentId.value != "" ==> validTokens[token.value] == expectedAgentId.value
      ensures ok == ValidateSpec(Tables(), token, expectedAgentId)
    {
      if token.None? || token.value == "" || |token.value| < TokenMinLength then false
      else if token.value !in validTokens then false
      else if expectedAgentId.Some? && expectedAgentId.value != "" then validTokens[token.value] == expectedAgentId.value
      else true
    }

    /** `get_agent_for_token`. */
    function GetAgentForToken(token: string): (agent: Option<string>)
      reads this
      ensures agent.Some? <==> token in validTokens
      ensures agent.Some? ==> agent.value == validTokens[token]
    {
      if token in validTokens then Some(validTokens[token]) else None
    }
  }

  /** Message types that carry an auth token. */
  const AuthRequiredMessageTypes: set<string> := {
    "GAME_JOIN_ACK", "CHOOSE_PARITY_RESPONSE", "QUERY_STANDINGS_REQUEST",
    "QUERY_SCHEDULE_REQUEST", "LEAGUE_UNREGISTER_REQUEST", "REPORT_MATCH_RESULT",
    "CHOOSE_PARITY_CALL", "GAME_INVITATION", "GAME_OVER"
  }

  /** `requires_auth`: exact, case-sensitive membership; registration requests come without a token. */
  function RequiresAuth(messageType: string): (r: bool)
    ensures r <==> messageType in AuthRequiredMessageTypes
    ensures messageType == "LEAGUE_REGISTER_REQUEST" || messageType == "REFEREE_REGISTER_REQUEST" ==> !r
    ensures messageType == "game_over" ==> !r
  {
    messageType in AuthRequiredMessageTypes
  }

  /**
   * `sanitize_display_name`, with `html.escape` as the parameter `escape`:
   * empty input gives "", anything else is stripped, escaped and cut to 50
   * characters.
   */
  function SanitizeDisplayName(name: string, escape: string -> string): (r: string)
    ensures name == "" ==> r == ""
    ensures |r| <= MaxDisplayNameLength
    ensures name != "" ==> |r| <= |escape(Strip(name))|
    ensures name != "" ==> r == escape(Strip(name))[..|r|]
    ensures name != "" && |escape(Strip(name))| <= MaxDisplayNameLength ==> r == escape(Strip(name))
  {
    if name == "" then "" else Take(escape(Strip(name)), MaxDisplayNameLength)
  }
}
