/**
 * The request pipeline of an agent's MCP server: one JSON-RPC POST body goes
 * through a fixed sequence of checks (JSON-RPC version, rate limit, envelope,
 * auth token, handler lookup) and the first failing check decides the error
 * response.
 */
module McpServer {
  import opened Wrappers
  import opened JsonValue
  import opened Text
  import Helpers
  import Auth

  const ParseErrorCode: int := -32700
  const InvalidRequestCode: int := -32600
  const MethodNotFoundCode: int := -32601
  const InvalidParamsCode: int := -32602
  const InternalErrorCode: int := -32603
  const RateLimitedCode: int := -32000
  const AuthFailedCode: int := -32001

  /** What the server sends back for one POST: a JSON body, or an uncaught Python exception. */
  datatype Reply = Reply(body: map<string, Json>) | Crash(error: string)

  /** What a registered handler does with the params: return a result or raise. */
  datatype HandlerResult = Returned(result: Json) | Raised(message: string)

  /** `str(v)` for the scalar JSON values. */
  function PyStr(j: Json): string
    requires Hashable(j)
  {
    match j
    case JNull => "None"
    case JBool(b) => if b then "True" else "False"
    case JInt(n) => if n < 0 then "-" + Decimal(-n) else Decimal(n)
    case JStr(s) => s
  }

  /** `_error_response`: only a code and a message, always with the "id" key. */
  function ErrorResponse(requestId: Json, code: int, message: string): (m: map<string, Json>)
    ensures m.Keys == {"jsonrpc", "error", "id"} && m["id"] == requestId
    ensures m["error"] == JObj(map["code" := JInt(code), "message" := JStr(message)])
  {
    map["jsonrpc" := JStr("2.0"),
        "error" := JObj(map["code" := JInt(code), "message" := JStr(message)]),
        "id" := requestId]
  }

  /** The error code of a reply, when it is an error response. */
  function CodeOf(r: Reply): Option<int>
  {
    if r.Reply? && "error" in r.body && r.body["error"].JObj? && "code" in r.body["error"].fields
       && r.body["error"].fields["code"].JInt?
    then Some(r.body["error"].fields["code"].i)
    else None
  }

  const EnvelopeKeys: seq<string> := ["protocol", "message_type", "sender", "timestamp", "conversation_id"]

  /**
   * `_validate_envelope`. A truthy timestamp that is not a string makes the
   * regex raise `TypeError` (the `Err` case).
   */
  function ValidateEnvelope(params: map<string, Json>): (r: Result<bool, string>)
    ensures r == Ok(true) <==>
      (forall k | k in EnvelopeKeys :: k in params)
      && params["protocol"] == JStr("league.v2")
      && params["timestamp"].JStr? && Helpers.ValidateUtc(params["timestamp"].s)
    ensures r.Err? ==> forall k | k in EnvelopeKeys :: k in params
  {
    if !(forall k | k in EnvelopeKeys :: k in params) then Ok(false)
    else if Get(params, "protocol", JNull) != JStr("league.v2") then Ok(false)
    else
      var timestamp := Get(params, "timestamp", JStr(""));
      if !Truthy(timestamp) then Ok(false)
      else if !timestamp.JStr? then Err("TypeError: expected string or bytes-like object")
      else Ok(Helpers.ValidateUtc(timestamp.s))
  }

  /**
   * `_validate_auth_token(params.get("auth_token"), params)`: a falsy token
   * fails; a string is checked by the validator; `len` or the dictionary
   * lookup raises for the other types, except that a short list or dict is
   * refused by the length test first.
   */
  function CheckToken(tables: Auth.TokenTables, token: Json): (r: Result<bool, string>)
    ensures !Truthy(token) ==> r == Ok(false)
    ensures token.JStr? ==> r == Ok(Auth.ValidateSpec(tables, Some(token.s), None))
  {
    match token
    case JStr(s) => Ok(s != "" && Auth.ValidateSpec(tables, Some(s), None))
    case JArr(xs) =>
      if |xs| < Auth.TokenMinLength then Ok(false) else Err("TypeError: unhashable type: 'list'")
    case JObj(m) =>
      if |m| < Auth.TokenMinLength then Ok(false) else Err("TypeError: unhashable type: 'dict'")
    case JNull => Ok(false)
    case JBool(b) => if !b then Ok(false) else Err("TypeError: object of type 'bool' has no len()")
    case JInt(n) => if n == 0 then Ok(false) else Err("TypeError: object of type 'int' has no len()")
  }

  /** `requires_auth(method)` on whatever JSON the method field holds. */
  function MethodRequiresAuth(rpcMethod: Json): (r: Result<bool, string>)
    ensures r.Err? <==> !Hashable(rpcMethod)
    ensures r.Ok? && r.value ==> rpcMethod.JStr? && Auth.RequiresAuth(rpcMethod.s)
  {
    match rpcMethod
    case JStr(s) => Ok(Auth.RequiresAuth(s))
    case JArr(_) => Err("TypeError: unhashable type: 'list'")
    case JObj(_) => Err("TypeError: unhashable type: 'dict'")
    case _ => Ok(false)
  }

  /** What the server's state contributes to one request. */
  datatype ServerState = ServerState(
    enableRateLimiting: bool,
    maxRequests: int,
    windowSeconds: int,
    requests: map<Json, seq<int>>,
    tables: Auth.TokenTables,
    handlers: map<string, nat>)

  /** The checks after the rate limit: envelope, then the rest. */
  function AfterRateLimit(params: map<string, Json>, rpcMethod: Json, requestId: Json, st: ServerState,
                          run: (nat, map<string, Json>) -> HandlerResult): Reply
  {
    match ValidateEnvelope(params)
    case Err(e) => Crash(e)
    case Ok(false) => Reply(ErrorResponse(requestId, InvalidParamsCode, "Invalid envelope"))
    case Ok(true) => AfterEnvelope(params, rpcMethod, requestId, st, run)
  }

  /** The auth token check, for the methods that require one. */
  function AfterEnvelope(params: map<string, Json>, rpcMethod: Json, requestId: Json, st: ServerState,
                         run: (nat, map<string, Json>) -> HandlerResult): Reply
  {
    match MethodRequiresAuth(rpcMethod)
    case Err(e) => Crash(e)
    case Ok(needsToken) =>
      var tokenCheck := if needsToken then CheckToken(st.tables, Get(params, "auth_token", JNull)) else Ok(true);
      match tokenCheck
      case Err(e) => Crash(e)
      case Ok(false) => Reply(ErrorResponse(requestId, AuthFailedCode, "Auth failed"))
      case Ok(true) => Dispatch(params, rpcMethod, requestId, st, run)
  }

  /** Handler lookup and call. */
  function Dispatch(params: map<string, Json>, rpcMethod: Json, requestId: Json, st: ServerState,
                    run: (nat, map<string, Json>) -> HandlerResult): Reply
    requires Hashable(rpcMethod)
  {
    if rpcMethod.JStr? && rpcMethod.s in st.handlers then
      match run(st.handlers[rpcMethod.s], params)
      case Returned(result) =>
        Reply(map["jsonrpc" := JStr("2.0"), "result" := result, "id" := requestId])
      case Raised(message) => Reply(ErrorResponse(requestId, InternalErrorCode, message))
    else
      Reply(ErrorResponse(requestId, MethodNotFoundCode, "Unknown: " + PyStr(rpcMethod)))
  }

  /**
   * `_handle_request` for one body (None when it is not JSON) at time `now`:
   * the reply and the rate limiter's new per-sender lists.
   */
  function HandleSpec(body: Option<Json>, now: int, st: ServerState,
                      run: (nat, map<string, Json>) -> HandlerResult): (Reply, map<Json, seq<int>>)
  {
    if body.None? then (Reply(ErrorResponse(JNull, ParseErrorCode, "Parse error")), st.requests)
    else if !body.value.JObj? then (Crash("AttributeError: object has no attribute 'get'"), st.requests)
    else
      var b := body.value.fields;
      var requestId := Get(b, "id", JNull);
      if Get(b, "jsonrpc", JNull) != JStr("2.0") then
        (Reply(ErrorResponse(requestId, InvalidRequestCode, "Invalid Request")), st.requests)
      else
        var rpcMethod := Get(b, "method", JNull);
        var paramsValue := Get(b, "params", JObj(map[]));
        if !paramsValue.JObj? then (Crash("AttributeError: object has no attribute 'get'"), st.requests)
        else
          var params := paramsValue.fields;
          var sender := Get(params, "sender", JStr("unknown"));
          if st.enableRateLimiting && !Hashable(sender) then (Crash("TypeError: unhashable type"), st.requests)
          else
            var admitted :=
              if st.enableRateLimiting then Auth.Admit(st.requests, st.maxRequests, st.windowSeconds, HashKey(sender), now)
              else (true, st.requests);
            if !admitted.0 then (Reply(ErrorResponse(requestId, RateLimitedCode, "Rate limit exceeded")), admitted.1)
            else (AfterRateLimit(params, rpcMethod, requestId, st, run), admitted.1)
  }

  /** A well-formed JSON-RPC 2.0 object body with an object of params. */
  predicate WellFormed(body: Option<Json>)
  {
    body.Some? && body.value.JObj?
    && Get(body.value.fields, "jsonrpc", JNull) == JStr("2.0")
    && Get(body.value.fields, "params", JObj(map[])).JObj?
  }

  function ParamsOf(body: Option<Json>): map<string, Json>
    requires WellFormed(body)
  {
    Get(body.value.fields, "params", JObj(map[])).fields
  }

  /** A body that is not JSON, or not JSON-RPC 2.0, is refused before it can use up any quota. */
  lemma EarlyRejections(body: Option<Json>, now: int, st: ServerState, run: (nat, map<string, Json>) -> HandlerResult)
    ensures body.None? ==> HandleSpec(body, now, st, run) == (Reply(ErrorResponse(JNull, -32700, "Parse error")), st.requests)
    ensures body.Some? && body.value.JObj? && Get(body.value.fields, "jsonrpc", JNull) != JStr("2.0") ==>
      HandleSpec(body, now, st, run)
      == (Reply(ErrorResponse(Get(body.value.fields, "id", JNull), -32600, "Invalid Request")), st.requests)
  {
  }

  /**
   * Each error code is returned only when every earlier check passed:
   * rate limit, then envelope, then auth token, then handler lookup.
   */
  lemma RejectionOrder(body: Option<Json>, now: int, st: ServerState, run: (nat, map<string, Json>) -> HandlerResult)
    requires WellFormed(body)
    ensures var params := ParamsOf(body);
      var sender := HashKey(Get(params, "sender", JStr("unknown")));
      var rpcMethod := Get(body.value.fields, "method", JNull);
      var code := CodeOf(HandleSpec(body, now, st, run).0);
      (code == Some(-32000) ==> st.enableRateLimiting && !Auth.Admit(st.requests, st.maxRequests, st.windowSeconds, sender, now).0)
      && (code == Some(-32602) ==>
            (!st.enableRateLimiting || Auth.Admit(st.requests, st.maxRequests, st.windowSeconds, sender, now).0)
            && ValidateEnvelope(params) == Ok(false))
      && (code == Some(-32001) ==>
            (!st.enableRateLimiting || Auth.Admit(st.requests, st.maxRequests, st.windowSeconds, sender, now).0)
            && ValidateEnvelope(params) == Ok(true)
            && rpcMethod.JStr? && Auth.RequiresAuth(rpcMethod.s))
      && (code == Some(-32601) ==>
            (!st.enableRateLimiting || Auth.Admit(st.requests, st.maxRequests, st.windowSeconds, sender, now).0)
            && ValidateEnvelope(params) == Ok(true)
            && !(rpcMethod.JStr? && rpcMethod.s in st.handlers))
  {
    var params := ParamsOf(body);
    var rpcMethod := Get(body.value.fields, "method", JNull);
    var requestId := Get(body.value.fields, "id", JNull);
    AfterRateLimitCodes(params, rpcMethod, requestId, st, run);
  }

  /** The codes the checks after the rate limit can produce, each with the checks it implies. */
  lemma AfterRateLimitCodes(params: map<string, Json>, rpcMethod: Json, requestId: Json, st: ServerState,
                            run: (nat, map<string, Json>) -> HandlerResult)
    ensures var code := CodeOf(AfterRateLimit(params, rpcMethod, requestId, st, run));
      code != Some(-32000)
      && (code == Some(-32602) ==> ValidateEnvelope(params) == Ok(false))
      && (code == Some(-32001) ==> ValidateEnvelope(params) == Ok(true) && rpcMethod.JStr? && Auth.RequiresAuth(rpcMethod.s))
      && (code == Some(-32601) ==> ValidateEnvelope(params) == Ok(true) && !(rpcMethod.JStr? && rpcMethod.s in st.handlers))
  {
    var reply := AfterRateLimit(params, rpcMethod, requestId, st, run);
    match ValidateEnvelope(params)
    case Err(e) =>
      assert reply == Crash(e);
    case Ok(false) =>
      assert reply == Reply(ErrorResponse(requestId, InvalidParamsCode, "Invalid envelope"));
      ErrorResponseCode(requestId, InvalidParamsCode, "Invalid envelope");
    case Ok(true) =>
      assert reply == AfterEnvelope(params, rpcMethod, requestId, st, run);
      AfterEnvelopeCodes(params, rpcMethod, requestId, st, run);
  }

  lemma AfterEnvelopeCodes(params: map<string, Json>, rpcMethod: Json, requestId: Json, st: ServerState,
                           run: (nat, map<string, Json>) -> HandlerResult)
    ensures var code := CodeOf(AfterEnvelope(params, rpcMethod, requestId, st, run));
      code != Some(-32000) && code != Some(-32602)
      && (code == Some(-32001) ==> rpcMethod.JStr? && Auth.RequiresAuth(rpcMethod.s))
      && (code == Some(-32601) ==> !(rpcMethod.JStr? && rpcMethod.s in st.handlers))
  {
    match MethodRequiresAuth(rpcMethod)
    case Err(_) =>
    case Ok(needsToken) =>
      var tokenCheck := if needsToken then CheckToken(st.tables, Get(params, "auth_token", JNull)) else Ok(true);
      match tokenCheck
      case Err(_) =>
      case Ok(false) => ErrorResponseCode(requestId, AuthFailedCode, "Auth failed");
      case Ok(true) => DispatchCodes(params, rpcMethod, requestId, st, run);
  }

  lemma DispatchCodes(params: map<string, Json>, rpcMethod: Json, requestId: Json, st: ServerState,
                      run: (nat, map<string, Json>) -> HandlerResult)
    requires Hashable(rpcMethod)
    ensures var code := CodeOf(Dispatch(params, rpcMethod, requestId, st, run));
      (code == None || code == Some(-32603) || code == Some(-32601))
      && (code == Some(-32601) ==> !(rpcMethod.JStr? && rpcMethod.s in st.handlers))
  {
    if rpcMethod.JStr? && rpcMethod.s in st.handlers {
      match run(st.handlers[rpcMethod.s], params)
      case Returned(result) => SuccessHasNoCode(result, requestId);
      case Raised(message) => ErrorResponseCode(requestId, InternalErrorCode, message);
    } else {
      ErrorResponseCode(requestId, MethodNotFoundCode, "Unknown: " + PyStr(rpcMethod));
    }
  }

  lemma ErrorResponseCode(requestId: Json, code: int, message: string)
    ensures CodeOf(Reply(ErrorResponse(requestId, code, message))) == Some(code)
  {
  }

  lemma SuccessHasNoCode(result: Json, requestId: Json)
    ensures CodeOf(Reply(map["jsonrpc" := JStr("2.0"), "result" := result, "id" := requestId])) == None
  {
    var m := map["jsonrpc" := JStr("2.0"), "result" := result, "id" := requestId];
    assert "error" !in m by {
      assert "error"[0] != "jsonrpc"[0] && "error"[0] != "result"[0] && "error"[0] != "id"[0];
    }
  }

  /** The rate limit comes first: a counted request with a bad envelope still uses up its sender's quota. */
  lemma QuotaSpentOnInvalidEnvelope(body: Option<Json>, now: int, st: ServerState, run: (nat, map<string, Json>) -> HandlerResult)
    requires WellFormed(body) && st.enableRateLimiting
    requires Hashable(Get(ParamsOf(body), "sender", JStr("unknown")))
    requires ValidateEnvelope(ParamsOf(body)) == Ok(false)
    ensures var sender := HashKey(Get(ParamsOf(body), "sender", JStr("unknown")));
      var admitted := Auth.Admit(st.requests, st.maxRequests, st.windowSeconds, sender, now);
      HandleSpec(body, now, st, run).1 == admitted.1
      && (admitted.0 ==> CodeOf(HandleSpec(body, now, st, run).0) == Some(-32602)
                         && HandleSpec(body, now, st, run).1[sender][|HandleSpec(body, now, st, run).1[sender]| - 1] == now)
  {
  }

  /**
   * A protected method with a valid envelope and no token (or an empty one)
   * is refused with -32001; an unprotected method never is.
   */
  lemma TokenOnlyForProtected(body: Option<Json>, now: int, st: ServerState, run: (nat, map<string, Json>) -> HandlerResult)
    requires WellFormed(body)
    ensures var rpcMethod := Get(body.value.fields, "method", JNull);
      rpcMethod.JStr? && !Auth.RequiresAuth(rpcMethod.s) ==> CodeOf(HandleSpec(body, now, st, run).0) != Some(-32001)
    ensures var params := ParamsOf(body);
      var rpcMethod := Get(body.value.fields, "method", JNull);
      var sender := HashKey(Get(params, "sender", JStr("unknown")));
      rpcMethod.JStr? && Auth.RequiresAuth(rpcMethod.s) && ValidateEnvelope(params) == Ok(true)
      && !Truthy(Get(params, "auth_token", JNull))
      && (!st.enableRateLimiting || (Hashable(sender) && Auth.Admit(st.requests, st.maxRequests, st.windowSeconds, sender, now).0))
      ==> HandleSpec(body, now, st, run).0 == Reply(ErrorResponse(Get(body.value.fields, "id", JNull), -32001, "Auth failed"))
  {
    RejectionOrder(body, now, st, run);
    var params := ParamsOf(body);
    var rpcMethod := Get(body.value.fields, "method", JNull);
    var sender := HashKey(Get(params, "sender", JStr("unknown")));
    if rpcMethod.JStr? && Auth.RequiresAuth(rpcMethod.s) && ValidateEnvelope(params) == Ok(true)
       && !Truthy(Get(params, "auth_token", JNull))
       && (!st.enableRateLimiting || (Hashable(sender) && Auth.Admit(st.requests, st.maxRequests, st.windowSeconds, sender, now).0))
    {
      MissingTokenRefused(body, now, st, run);
    }
  }

  lemma MissingTokenRefused(body: Option<Json>, now: int, st: ServerState, run: (nat, map<string, Json>) -> HandlerResult)
    requires WellFormed(body)
    requires var params := ParamsOf(body);
      var rpcMethod := Get(body.value.fields, "method", JNull);
      var sender := HashKey(Get(params, "sender", JStr("unknown")));
      rpcMethod.JStr? && Auth.RequiresAuth(rpcMethod.s) && ValidateEnvelope(params) == Ok(true)
      && !Truthy(Get(params, "auth_token", JNull))
      && (!st.enableRateLimiting || (Hashable(sender) && Auth.Admit(st.requests, st.maxRequests, st.windowSeconds, sender, now).0))
    ensures HandleSpec(body, now, st, run).0 == Reply(ErrorResponse(Get(body.value.fields, "id", JNull), -32001, "Auth failed"))
  {
    var params := ParamsOf(body);
    var rpcMethod := Get(body.value.fields, "method", JNull);
    var requestId := Get(body.value.fields, "id", JNull);
    assert HandleSpec(body, now, st, run).0 == AfterRateLimit(params, rpcMethod, requestId, st, run);
    assert MethodRequiresAuth(rpcMethod) == Ok(true);
    assert CheckToken(st.tables, Get(params, "auth_token", JNull)) == Ok(false);
  }

  /** A request that passes every check is answered with the handler's result (and the request's id), or -32603 with the exception text. */
  lemma HandlerOutcome(body: Option<Json>, now: int, st: ServerState, run: (nat, map<string, Json>) -> HandlerResult)
    requires WellFormed(body)
    requires !st.enableRateLimiting
    requires ValidateEnvelope(ParamsOf(body)) == Ok(true)
    requires var rpcMethod := Get(body.value.fields, "method", JNull);
      rpcMethod.JStr? && rpcMethod.s in st.handlers && !Auth.RequiresAuth(rpcMethod.s)
    ensures var rpcMethod := Get(body.value.fields, "method", JNull).s;
      var requestId := Get(body.value.fields, "id", JNull);
      match run(st.handlers[rpcMethod], ParamsOf(body))
      case Returned(result) =>
        HandleSpec(body, now, st, run).0 == Reply(map["jsonrpc" := JStr("2.0"), "result" := result, "id" := requestId])
      case Raised(message) =>
        HandleSpec(body, now, st, run).0 == Reply(ErrorResponse(requestId, -32603, message))
  {
  }

  /** An agent's MCP server: handler table, rate limiter and token registry. */
  class Server {
    const agentType: string
    const agentId: string
    const sender: string
    var handlers: map<string, nat>
    const limiter: Auth.RateLimiter<Json>
    const validator: Auth.AuthTokenValidator
    const enableRateLimiting: bool

    ghost predicate Valid()
      reads this, limiter
    {
      limiter.Valid()
    }

    function State(): ServerState
      reads this, limiter, validator
    {
      ServerState(enableRateLimiting, limiter.maxRequests, limiter.windowSeconds, limiter.requests,
                  validator.Tables(), handlers)
    }

    constructor (agentType: string, agentId: string, enableRateLimiting: bool, rateLimit: int)
      ensures Valid()
      ensures this.agentType == agentType && this.agentId == agentId && sender == agentType + ":" + agentId
      ensures State() == ServerState(enableRateLimiting, rateLimit, 60, map[], Auth.TokenTables(map[], map[]), map[])
      ensures fresh(limiter) && fresh(validator)
    {
      this.agentType := agentType;
      this.agentId := agentId;
      this.sender := agentType + ":" + agentId;
      handlers := map[];
      limiter := new Auth.RateLimiter(rateLimit, Auth.RateLimitWindowSeconds);
      validator := new Auth.AuthTokenValidator();
      this.enableRateLimiting := enableRateLimiting;
    }

    /** `_handle_request`; the handler call is the oracle `run`. */
    method HandleRequest(body: Option<Json>, now: int, run: (nat, map<string, Json>) -> HandlerResult)
      returns (reply: Reply)
      requires Valid()
      modifies limiter
      ensures Valid()
      ensures (reply, limiter.requests) == HandleSpec(body, now, old(State()), run)
      ensures limiter.maxRequests == old(limiter.maxRequests) && limiter.windowSeconds == old(limiter.windowSeconds)
    {
      var st := State();
      if body.None? {
        return Reply(ErrorResponse(JNull, ParseErrorCode, "Parse error"));
      }
      if !body.value.JObj? {
        return Crash("AttributeError: object has no attribute 'get'");
      }
      var b := body.value.fields;
      var requestId := Get(b, "id", JNull);
      if Get(b, "jsonrpc", JNull) != JStr("2.0") {
        return Reply(ErrorResponse(requestId, InvalidRequestCode, "Invalid Request"));
      }
      var rpcMethod := Get(b, "method", JNull);
      var paramsValue := Get(b, "params", JObj(map[]));
      if !paramsValue.JObj? {
        return Crash("AttributeError: object has no attribute 'get'");
      }
      var params := paramsValue.fields;
      var from := Get(params, "sender", JStr("unknown"));
      if enableRateLimiting {
        if !Hashable(from) {
          return Crash("TypeError: unhashable type");
        }
        var allowed := limiter.IsAllowed(HashKey(from), now);
        if !allowed {
          return Reply(ErrorResponse(requestId, RateLimitedCode, "Rate limit exceeded"));
        }
      }
      reply := AfterRateLimit(params, rpcMethod, requestId, st, run);
    }

    /** `register_auth_token`. */
    method RegisterAuthToken(agentId: string, token: string)
      modifies validator
      ensures validator.Tables() == Auth.RegisterSpec(old(validator.Tables()), agentId, token)
    {
      validator.RegisterToken(agentId, token);
    }

    /** `register_handler`: a second registration for the same type replaces the first. */
    method RegisterHandler(messageType: string, handler: nat)
      modifies this
      ensures handlers == old(handlers)[messageType := handler]
    {
      handlers := handlers[messageType := handler];
    }

    /**
     * `build_response(message_type, **kwargs)` at clock reading `now` with a
     * fresh uuid `uuid`: the header, then the keyword fields spread over it. A
     * keyword field named after one of the method's own parameters (`self`,
     * `message_type`) is refused by Python with a TypeError before the body runs.
     */
    function BuildResponse(messageType: string, kwargs: map<string, Json>, now: Helpers.DateTime, uuid: string)
      : (r: Result<map<string, Json>, string>)
      requires now.Valid()
      reads this
      ensures r.Err? <==> !(kwargs.Keys !! ResponseParameters)
      ensures r.Ok? ==>
        var m := r.value;
        && m.Keys == {"protocol", "message_type", "sender", "timestamp", "conversation_id"} + kwargs.Keys
        && m["conversation_id"] == (if "conversation_id" in kwargs then kwargs["conversation_id"] else JStr(uuid))
        && (forall k | k in kwargs :: k in m && m[k] == kwargs[k])
        && m["message_type"] == JStr(messageType)
        && ("protocol" !in kwargs ==> m["protocol"] == JStr("league.v2"))
        && ("sender" !in kwargs ==> m["sender"] == JStr(sender))
        && ("timestamp" !in kwargs ==> m["timestamp"].JStr? && Helpers.ValidateUtc(m["timestamp"].s))
    {
      if !(kwargs.Keys !! ResponseParameters) then
        Err("TypeError: build_response() got multiple values for a bound argument")
      else
        var timestamp := Helpers.UtcNow(now);
        Helpers.UtcNowValidates(now);
        var conversationId := if "conversation_id" in kwargs then kwargs["conversation_id"] else JStr(uuid);
        SpreadFields(ResponseHeader(messageType, sender, timestamp, conversationId), kwargs);
        Ok(ResponseHeader(messageType, sender, timestamp, conversationId) + (kwargs - {"conversation_id"}))
    }
  }

  /** The five header fields `build_response` starts its dictionary with. */
  function ResponseHeader(messageType: string, sender: string, timestamp: string, conversationId: Json)
    : (h: map<string, Json>)
    ensures h.Keys == {"protocol", "message_type", "sender", "timestamp", "conversation_id"}
    ensures h["protocol"] == JStr("league.v2") && h["message_type"] == JStr(messageType)
    ensures h["sender"] == JStr(sender) && h["timestamp"] == JStr(timestamp)
    ensures h["conversation_id"] == conversationId
  {
    map["protocol" := JStr("league.v2"),
        "message_type" := JStr(messageType),
        "sender" := JStr(sender),
        "timestamp" := JStr(timestamp),
        "conversation_id" := conversationId]
  }

  /**
   * Spreading the keyword fields over the header, `conversation_id` popped
   * from them first: every keyword field is kept and every other header
   * field stays.
   */
  lemma SpreadFields(header: map<string, Json>, kwargs: map<string, Json>)
    requires "conversation_id" in header && ("conversation_id" in kwargs ==> header["conversation_id"] == kwargs["conversation_id"])
    ensures var m := header + (kwargs - {"conversation_id"});
      && m.Keys == header.Keys + kwargs.Keys
      && (forall k | k in kwargs :: m[k] == kwargs[k])
      && (forall k | k in header && k !in kwargs :: m[k] == header[k])
  {
    var m := header + (kwargs - {"conversation_id"});
    forall k | k in kwargs
      ensures m[k] == kwargs[k]
    {
      if k != "conversation_id" {
        assert k in kwargs - {"conversation_id"};
      }
    }
  }

  /** The parameter names of `build_response` that a keyword field may not repeat. */
  const ResponseParameters: set<string> := {"self", "message_type"}

  /** A response built without overriding the header passes the server's own envelope check. */
  lemma BuiltResponsePassesEnvelope(s: Server, messageType: string, kwargs: map<string, Json>, now: Helpers.DateTime, uuid: string)
    requires now.Valid()
    requires "protocol" !in kwargs && "timestamp" !in kwargs
    ensures s.BuildResponse(messageType, kwargs, now, uuid).Ok? ==>
              ValidateEnvelope(s.BuildResponse(messageType, kwargs, now, uuid).value) == Ok(true)
  {
    var r := s.BuildResponse(messageType, kwargs, now, uuid);
    if r.Ok? {
      assert forall k | k in EnvelopeKeys :: k in r.value;
    }
  }
}
