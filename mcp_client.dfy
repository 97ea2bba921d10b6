/**
 * The SDK's outgoing client: it builds the envelope for a message, asks the
 * endpoint's circuit breaker once whether calls may go out, then POSTs with a
 * linear backoff between attempts, telling the breaker about successes and
 * about the failures that look transient (timeouts, refused connections,
 * server errors). Each POST's outcome comes from an oracle indexed by
 * attempt; `clock(k)` is the time attempt k finished.
 */
module McpClient {
  import opened Wrappers
  import opened JsonValue
  import CircuitBreakers

  const DefaultMaxRetries: int := 3
  const DefaultBackoffSeconds: int := 2

  /** What one POST did. */
  datatype PostOutcome =
    | TimedOut
    | ConnectFailed
    | Responded(status: int, body: Option<Json>)
    | TransportError(message: string)

  /** What `send` raises. */
  datatype SendError =
    | CircuitOpen
    | Timeout
    | Connect
    | HttpStatus(status: int)
    | BodyNotJson
    | Transport(message: string)
    | MaxRetriesExceeded
    | DuplicateArgument

  /**
   * The names `_build_envelope` binds itself; `send` spreads the payload as
   * keyword arguments, so a payload key among them raises `TypeError`.
   */
  const BoundParameters: set<string> := {"self", "message_type", "conversation_id"}

  /** `raise_for_status` lets exactly the 2xx codes through. */
  predicate IsSuccess(o: PostOutcome)
  {
    o.Responded? && 200 <= o.status < 300
  }

  /** The failures that are recorded on the breaker and retried. */
  predicate Retryable(o: PostOutcome)
  {
    o.TimedOut? || o.ConnectFailed? || (o.Responded? && o.status >= 500)
  }

  predicate AllRetryable(outcome: nat -> PostOutcome, n: nat)
  {
    forall k | 0 <= k < n :: Retryable(outcome(k))
  }

  lemma AllRetryableExtend(outcome: nat -> PostOutcome, n: nat)
    requires AllRetryable(outcome, n) && Retryable(outcome(n))
    ensures AllRetryable(outcome, n + 1)
  {
  }

  /** How `send` ends after its last POST: the body, or the error that POST raised. */
  function Final(o: PostOutcome): (r: Result<Json, SendError>)
    ensures r.Ok? <==> IsSuccess(o) && o.body.Some?
  {
    match o
    case TimedOut => Err(Timeout)
    case ConnectFailed => Err(Connect)
    case Responded(status, body) =>
      if 200 <= status < 300 then (if body.Some? then Ok(body.value) else Err(BodyNotJson))
      else Err(HttpStatus(status))
    case TransportError(m) => Err(Transport(m))
  }

  /** What the breaker is told about one POST. */
  datatype BreakerEvent = RecordedSuccess(at: int) | RecordedFailure(at: int)

  function EventOf(o: PostOutcome, at: int): (r: seq<BreakerEvent>)
    ensures |r| <= 1
    ensures r == [RecordedSuccess(at)] <==> IsSuccess(o)
    ensures r == [RecordedFailure(at)] <==> Retryable(o)
  {
    if IsSuccess(o) then [RecordedSuccess(at)]
    else if Retryable(o) then [RecordedFailure(at)]
    else []
  }

  /** The breaker events of the first `n` POSTs, in order. */
  function Events(outcome: nat -> PostOutcome, clock: nat -> int, n: nat): (r: seq<BreakerEvent>)
    ensures |r| <= n
  {
    if n == 0 then [] else Events(outcome, clock, n - 1) + EventOf(outcome(n - 1), clock(n - 1))
  }

  /** The breaker after it has been told one event. */
  function Step(c: CircuitBreakers.Counters, e: BreakerEvent, failureThreshold: int, successThreshold: int)
    : (r: CircuitBreakers.Counters)
    requires CircuitBreakers.Consistent(c)
    ensures CircuitBreakers.Consistent(r)
  {
    match e
    case RecordedSuccess(at) => CircuitBreakers.Success(c, successThreshold, at)
    case RecordedFailure(at) => CircuitBreakers.Failure(c, failureThreshold, at)
  }

  /** The breaker after it has been told the events in order. */
  function Replay(c: CircuitBreakers.Counters, events: seq<BreakerEvent>, failureThreshold: int, successThreshold: int)
    : (r: CircuitBreakers.Counters)
    requires CircuitBreakers.Consistent(c)
    ensures CircuitBreakers.Consistent(r)
  {
    if events == [] then c
    else Step(Replay(c, events[..|events| - 1], failureThreshold, successThreshold), events[|events| - 1],
              failureThreshold, successThreshold)
  }

  lemma ReplayAppend(c: CircuitBreakers.Counters, events: seq<BreakerEvent>, e: BreakerEvent,
                     failureThreshold: int, successThreshold: int)
    requires CircuitBreakers.Consistent(c)
    ensures Replay(c, events + [e], failureThreshold, successThreshold)
            == Step(Replay(c, events, failureThreshold, successThreshold), e, failureThreshold, successThreshold)
  {
    assert (events + [e])[..|events|] == events;
  }

  /** The breaker after it has been told about one POST: a success, a transient failure, or nothing. */
  function Hear(c: CircuitBreakers.Counters, o: PostOutcome, at: int, failureThreshold: int, successThreshold: int)
    : (r: CircuitBreakers.Counters)
    requires CircuitBreakers.Consistent(c)
    ensures CircuitBreakers.Consistent(r)
  {
    if IsSuccess(o) then CircuitBreakers.Success(c, successThreshold, at)
    else if Retryable(o) then CircuitBreakers.Failure(c, failureThreshold, at)
    else c
  }

  /** The breaker after it has been told about the first `n` POSTs. */
  function Told(c: CircuitBreakers.Counters, outcome: nat -> PostOutcome, clock: nat -> int, n: nat,
                failureThreshold: int, successThreshold: int): (r: CircuitBreakers.Counters)
    requires CircuitBreakers.Consistent(c)
    ensures CircuitBreakers.Consistent(r)
  {
    if n == 0 then c
    else Hear(Told(c, outcome, clock, n - 1, failureThreshold, successThreshold), outcome(n - 1), clock(n - 1),
              failureThreshold, successThreshold)
  }

  /** Being told about the POSTs one by one is replaying exactly their breaker events, in order. */
  lemma {:induction false} ToldReplaysEvents(c: CircuitBreakers.Counters, outcome: nat -> PostOutcome, clock: nat -> int,
                                             n: nat, failureThreshold: int, successThreshold: int)
    requires CircuitBreakers.Consistent(c)
    ensures Told(c, outcome, clock, n, failureThreshold, successThreshold)
            == Replay(c, Events(outcome, clock, n), failureThreshold, successThreshold)
  {
    if n > 0 {
      var m := n - 1;
      ToldReplaysEvents(c, outcome, clock, m, failureThreshold, successThreshold);
      ReplayAppendEvents(c, outcome, clock, m, failureThreshold, successThreshold);
      assert Told(c, outcome, clock, m + 1, failureThreshold, successThreshold)
             == Hear(Told(c, outcome, clock, m, failureThreshold, successThreshold), outcome(m), clock(m),
                     failureThreshold, successThreshold);
    }
  }

  /**
   * Transient failures from HALF_OPEN reopen the breaker at the first one,
   * and since `send` asks the breaker only before its loop, the remaining
   * POSTs still go out and each one counts as a further failure.
   */
  lemma {:induction false} FailuresFromHalfOpen(c: CircuitBreakers.Counters, outcome: nat -> PostOutcome, clock: nat -> int,
                                                n: nat, failureThreshold: int, successThreshold: int)
    requires CircuitBreakers.Consistent(c) && c.state == CircuitBreakers.HalfOpen
    requires n >= 1 && AllRetryable(outcome, n)
    ensures var r := Told(c, outcome, clock, n, failureThreshold, successThreshold);
      r.state == CircuitBreakers.Open && r.failures == c.failures + n && r.lastFailure == Some(clock(n - 1))
  {
    assert Retryable(outcome(n - 1));
    if n > 1 {
      FailuresFromHalfOpen(c, outcome, clock, n - 1, failureThreshold, successThreshold);
    }
  }

  /** The wait after failed attempt k: linear, not exponential. */
  function Wait(backoff: int, k: nat): int
  {
    backoff * (k + 1)
  }

  /** The waits after the first `n` POSTs. */
  function LinearBackoffs(backoff: int, n: nat): (r: seq<int>)
    ensures |r| == n
    ensures forall k | 0 <= k < n :: r[k] == Wait(backoff, k)
  {
    if n == 0 then [] else LinearBackoffs(backoff, n - 1) + [Wait(backoff, n - 1)]
  }

  /**
   * `_build_envelope`: the five header fields, a generated conversation id
   * when the given one is missing or empty, the auth token only when it is
   * non-empty, then the payload over all of them. The keyword arguments
   * cannot name one of its own parameters.
   */
  function BuildEnvelope(sender: string, authToken: Option<string>, messageType: string,
                         conversationId: Option<string>, payload: map<string, Json>,
                         timestamp: string, uuid: string): (m: map<string, Json>)
    requires payload.Keys !! BoundParameters
    ensures m.Keys == {"protocol", "message_type", "sender", "timestamp", "conversation_id"} + payload.Keys
                      + (if authToken.Some? && authToken.value != "" then {"auth_token"} else {})
    ensures forall k | k in payload :: m[k] == payload[k]
    ensures m["conversation_id"] == JStr(if conversationId.Some? && conversationId.value != "" then conversationId.value else uuid)
    ensures "auth_token" !in payload && authToken.Some? && authToken.value != "" ==> m["auth_token"] == JStr(authToken.value)
    ensures "protocol" !in payload ==> m["protocol"] == JStr("league.v2")
    ensures "sender" !in payload ==> m["sender"] == JStr(sender)
    ensures "timestamp" !in payload ==> m["timestamp"] == JStr(timestamp)
    ensures m["message_type"] == JStr(messageType)
  {
    var header := map["protocol" := JStr("league.v2"),
                      "message_type" := JStr(messageType),
                      "sender" := JStr(sender),
                      "timestamp" := JStr(timestamp),
                      "conversation_id" :=
                        JStr(if conversationId.Some? && conversationId.value != "" then conversationId.value else uuid)];
    var withToken := if authToken.Some? && authToken.value != "" then header["auth_token" := JStr(authToken.value)] else header;
    withToken + payload
  }

  /**
   * The attempt loop of `send` on a breaker that has already allowed the call.
   * It POSTs at most `maxRetries + 1` times and stops at the first POST that is
   * not a transient failure; the breaker hears of every success and every
   * transient failure, and nothing else, even once it has opened again.
   */
  method PostWithRetries(circuit: CircuitBreakers.CircuitBreaker, maxRetries: int, backoff: int,
                         outcome: nat -> PostOutcome, clock: nat -> int)
    returns (r: Result<Json, SendError>, posts: nat, waits: seq<int>)
    requires circuit.Valid()
    modifies circuit
    ensures circuit.Valid()
    ensures posts <= if maxRetries < 0 then 0 else maxRetries + 1
    ensures AllRetryable(outcome, if posts == 0 then 0 else posts - 1)
    ensures waits == LinearBackoffs(backoff, if posts == 0 then 0 else posts - 1)
    ensures circuit.Snapshot()
            == Told(old(circuit.Snapshot()), outcome, clock, posts, circuit.failureThreshold, circuit.successThreshold)
    ensures posts == 0 ==> maxRetries < 0 && r == Err(MaxRetriesExceeded)
    ensures posts > 0 ==> r == Final(outcome(posts - 1))
    ensures posts > 0 && Retryable(outcome(posts - 1)) ==> posts == maxRetries + 1
  {
    var stop, attempt, lastError;
    stop, attempt, lastError, waits := AttemptLoop(circuit, maxRetries, backoff, outcome, clock);
    posts := attempt;
    r := if stop then Final(outcome(attempt - 1)) else Err(lastError.GetOr(MaxRetriesExceeded));
  }

  /**
   * The loop itself: it ends when a POST says to stop or when the attempts
   * run out; `lastError` is the error of the last transient failure.
   */
  method AttemptLoop(circuit: CircuitBreakers.CircuitBreaker, maxRetries: int, backoff: int,
                     outcome: nat -> PostOutcome, clock: nat -> int)
    returns (stop: bool, attempt: nat, lastError: Option<SendError>, waits: seq<int>)
    requires circuit.Valid()
    modifies circuit
    ensures attempt <= if maxRetries < 0 then 0 else maxRetries + 1
    ensures !stop ==> attempt == if maxRetries < 0 then 0 else maxRetries + 1
    ensures stop ==> attempt > 0 && (!Retryable(outcome(attempt - 1)) || attempt == maxRetries + 1)
    ensures AllRetryable(outcome, if stop then attempt - 1 else attempt)
    ensures waits == LinearBackoffs(backoff, if attempt == 0 then 0 else attempt - 1)
    ensures circuit.Valid()
    ensures circuit.Snapshot()
            == Told(old(circuit.Snapshot()), outcome, clock, attempt, circuit.failureThreshold, circuit.successThreshold)
    ensures !stop ==> lastError == if attempt == 0 then None else Some(Final(outcome(attempt - 1)).error)
  {
    ghost var start := circuit.Snapshot();
    waits := [];
    attempt := 0;
    lastError := None;
    stop := false;
    while attempt < maxRetries + 1 && !stop
      invariant attempt <= if maxRetries < 0 then 0 else maxRetries + 1
      invariant stop ==> attempt > 0 && (!Retryable(outcome(attempt - 1)) || attempt == maxRetries + 1)
      invariant AllRetryable(outcome, if stop then attempt - 1 else attempt)
      invariant waits == LinearBackoffs(backoff, if attempt == 0 || (attempt <= maxRetries && !stop) then attempt else attempt - 1)
      invariant circuit.Valid()
      invariant circuit.Snapshot() == Told(start, outcome, clock, attempt, circuit.failureThreshold, circuit.successThreshold)
      invariant !stop ==> lastError == if attempt == 0 then None else Some(Final(outcome(attempt - 1)).error)
    {
      stop, waits := Attempt(circuit, start, maxRetries, backoff, outcome, clock, attempt, waits);
      if !stop {
        AllRetryableExtend(outcome, attempt);
        lastError := Some(Final(outcome(attempt)).error);
      }
      attempt := attempt + 1;
    }
  }

  /**
   * One pass of the attempt loop: POST number `n`, tell the breaker, and
   * either stop (the POST was not a transient failure, or it was the last
   * allowed one and got a response) or record the wait before the next POST.
   */
  method Attempt(circuit: CircuitBreakers.CircuitBreaker, ghost start: CircuitBreakers.Counters, maxRetries: int,
                 backoff: int, outcome: nat -> PostOutcome, clock: nat -> int, n: nat, waits: seq<int>)
    returns (stop: bool, waits': seq<int>)
    requires circuit.Valid() && CircuitBreakers.Consistent(start)
    requires circuit.Snapshot() == Told(start, outcome, clock, n, circuit.failureThreshold, circuit.successThreshold)
    modifies circuit
    ensures circuit.Valid()
    ensures circuit.Snapshot() == Told(start, outcome, clock, n + 1, circuit.failureThreshold, circuit.successThreshold)
    ensures stop <==> !Retryable(outcome(n)) || (n >= maxRetries && outcome(n).Responded?)
    ensures waits' == if Retryable(outcome(n)) && n < maxRetries then waits + [Wait(backoff, n)] else waits
  {
    TellBreaker(circuit, outcome(n), clock(n));
    var o := outcome(n);
    if !Retryable(o) {
      return true, waits;
    }
    if n < maxRetries {
      return false, waits + [Wait(backoff, n)];
    }
    return o.Responded?, waits;
  }

  /** `record_success` after a 2xx, `record_failure` after a transient failure, nothing otherwise. */
  method TellBreaker(circuit: CircuitBreakers.CircuitBreaker, o: PostOutcome, at: int)
    requires circuit.Valid()
    modifies circuit
    ensures circuit.Valid()
    ensures circuit.Snapshot() == Hear(old(circuit.Snapshot()), o, at, circuit.failureThreshold, circuit.successThreshold)
  {
    if IsSuccess(o) {
      circuit.RecordSuccess(at);
    } else if Retryable(o) {
      circuit.RecordFailure(at);
    }
  }

  /** One more POST adds its event, if any, to the end of the replayed history. */
  lemma ReplayAppendEvents(start: CircuitBreakers.Counters, outcome: nat -> PostOutcome, clock: nat -> int, n: nat,
                           failureThreshold: int, successThreshold: int)
    requires CircuitBreakers.Consistent(start)
    ensures Replay(start, Events(outcome, clock, n + 1), failureThreshold, successThreshold)
            == Hear(Replay(start, Events(outcome, clock, n), failureThreshold, successThreshold), outcome(n), clock(n),
                    failureThreshold, successThreshold)
  {
    var events := Events(outcome, clock, n);
    assert Events(outcome, clock, n + 1) == events + EventOf(outcome(n), clock(n));
    if IsSuccess(outcome(n)) {
      ReplayAppend(start, events, RecordedSuccess(clock(n)), failureThreshold, successThreshold);
    } else if Retryable(outcome(n)) {
      ReplayAppend(start, events, RecordedFailure(clock(n)), failureThreshold, successThreshold);
    } else {
      assert Events(outcome, clock, n + 1) == events;
    }
  }

  class McpClient {
    const sender: string
    var authToken: Option<string>
    const maxRetries: int
    const backoffSeconds: int

    constructor(sender: string, authToken: Option<string>, maxRetries: int, backoffSeconds: int)
      ensures this.sender == sender && this.authToken == authToken
      ensures this.maxRetries == maxRetries && this.backoffSeconds == backoffSeconds
    {
      this.sender := sender;
      this.authToken := authToken;
      this.maxRetries := maxRetries;
      this.backoffSeconds := backoffSeconds;
    }

    /** `update_auth_token`, after registration. */
    method UpdateAuthToken(token: string)
      modifies this
      ensures authToken == Some(token)
    {
      authToken := Some(token);
    }

    /**
     * What `send` returns, sends and leaves in the breaker, from the counters
     * `gate` the breaker has once asked whether it may execute: an open
     * breaker raises with no request and no POST; a payload key that names a
     * parameter of `_build_envelope` raises `TypeError`, still with no POST;
     * otherwise the JSON-RPC request carries the built envelope and the
     * attempt loop decides the result and what the breaker hears.
     */
    ghost predicate SendsAs(gate: CircuitBreakers.Counters, failureThreshold: int, successThreshold: int,
                            messageType: string, payload: map<string, Json>, conversationId: Option<string>,
                            timestamp: string, conversationUuid: string, requestUuid: string,
                            outcome: nat -> PostOutcome, clock: nat -> int,
                            r: Result<Json, SendError>, request: Option<map<string, Json>>, posts: nat, waits: seq<int>,
                            after: CircuitBreakers.Counters)
      reads this
    {
      if gate.state == CircuitBreakers.Open then
        r == Err(CircuitOpen) && request == None && posts == 0 && waits == [] && after == gate
      else if !(payload.Keys !! BoundParameters) then
        r == Err(DuplicateArgument) && request == None && posts == 0 && waits == [] && after == gate
      else
        request == Some(map["jsonrpc" := JStr("2.0"), "method" := JStr(messageType),
                             "params" := JObj(BuildEnvelope(sender, authToken, messageType, conversationId, payload,
                                                            timestamp, conversationUuid)),
                             "id" := JStr(requestUuid)])
        && posts <= (if maxRetries < 0 then 0 else maxRetries + 1)
        && AllRetryable(outcome, if posts == 0 then 0 else posts - 1)
        && waits == LinearBackoffs(backoffSeconds, if posts == 0 then 0 else posts - 1)
        && after == Told(gate, outcome, clock, posts, failureThreshold, successThreshold)
        && (posts == 0 ==> r == Err(MaxRetriesExceeded))
        && (posts > 0 ==> r == Final(outcome(posts - 1)))
        && (posts > 0 && Retryable(outcome(posts - 1)) ==> posts == maxRetries + 1)
    }

    /**
     * `send`. The breaker comes from the registry every client shares, is
     * asked once, before any POST, and an open breaker raises with no POST.
     * A payload key that names a parameter of `_build_envelope` raises
     * `TypeError` next, still with no POST. Otherwise the JSON-RPC request
     * carries the built envelope as params and the attempt loop decides the
     * result.
     */
    method Send(registry: CircuitBreakers.CircuitBreakerRegistry, endpoint: string, messageType: string,
                payload: map<string, Json>, conversationId: Option<string>, now: int,
                timestamp: string, conversationUuid: string, requestUuid: string,
                outcome: nat -> PostOutcome, clock: nat -> int)
      returns (r: Result<Json, SendError>, request: Option<map<string, Json>>, posts: nat, waits: seq<int>,
               circuit: CircuitBreakers.CircuitBreaker)
      requires registry.Valid()
      modifies registry, registry.breakers.Values
      ensures registry.Valid() && endpoint in registry.breakers && circuit == registry.breakers[endpoint]
      ensures registry.breakers == old(registry.breakers)[endpoint := circuit]
      ensures endpoint in old(registry.breakers) ==> circuit == old(registry.breakers[endpoint])
      ensures endpoint !in old(registry.breakers) ==>
        fresh(circuit) && circuit.failureThreshold == CircuitBreakers.DefaultFailureThreshold
        && circuit.timeoutSeconds == CircuitBreakers.DefaultTimeoutSeconds
        && circuit.successThreshold == CircuitBreakers.DefaultSuccessThreshold
      ensures forall b | b in old(registry.breakers.Values) && b != circuit :: unchanged(b)
      ensures var gate := CircuitBreakers.Observe(
          if endpoint in old(registry.breakers) then old(registry.breakers[endpoint].Snapshot())
          else CircuitBreakers.Counters(CircuitBreakers.Closed, 0, 0, None, now),
          circuit.timeoutSeconds, now);
        SendsAs(gate, circuit.failureThreshold, circuit.successThreshold, messageType, payload, conversationId,
                timestamp, conversationUuid, requestUuid, outcome, clock, r, request, posts, waits, circuit.Snapshot())
    {
      circuit := registry.Get(endpoint, CircuitBreakers.DefaultFailureThreshold, CircuitBreakers.DefaultTimeoutSeconds, now);
      r, request, posts, waits := SendThrough(circuit, messageType, payload, conversationId, now, timestamp,
                                              conversationUuid, requestUuid, outcome, clock);
    }

    /** The body of `send` once the endpoint's breaker is known. */
    method SendThrough(circuit: CircuitBreakers.CircuitBreaker, messageType: string,
                       payload: map<string, Json>, conversationId: Option<string>, now: int,
                       timestamp: string, conversationUuid: string, requestUuid: string,
                       outcome: nat -> PostOutcome, clock: nat -> int)
      returns (r: Result<Json, SendError>, request: Option<map<string, Json>>, posts: nat, waits: seq<int>)
      requires circuit.Valid()
      modifies circuit
      ensures circuit.Valid()
      ensures SendsAs(CircuitBreakers.Observe(old(circuit.Snapshot()), circuit.timeoutSeconds, now),
                      circuit.failureThreshold, circuit.successThreshold, messageType, payload, conversationId,
                      timestamp, conversationUuid, requestUuid, outcome, clock, r, request, posts, waits, circuit.Snapshot())
    {
      var allowed := circuit.CanExecuteNow(now);
      if !allowed {
        return Err(CircuitOpen), None, 0, [];
      }
      if !(payload.Keys !! BoundParameters) {
        return Err(DuplicateArgument), None, 0, [];
      }
      var envelope := BuildEnvelope(sender, authToken, messageType, conversationId, payload, timestamp, conversationUuid);
      request := Some(map["jsonrpc" := JStr("2.0"), "method" := JStr(messageType),
                          "params" := JObj(envelope), "id" := JStr(requestUuid)]);
      r, posts, waits := PostWithRetries(circuit, maxRetries, backoffSeconds, outcome, clock);
    }
  }
}
