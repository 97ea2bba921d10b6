/**
 * The SDK's circuit breaker: CLOSED lets calls through and counts failures,
 * OPEN blocks calls until a timeout has passed since the last failure, and
 * HALF_OPEN lets calls through until enough successes close the circuit or
 * one failure opens it again. Reading the state is itself a transition.
 * Time is a parameter in seconds.
 */
module CircuitBreakers {
  import opened Wrappers

  datatype CircuitState = Closed | Open | HalfOpen

  const DefaultFailureThreshold: int := 5
  const DefaultSuccessThreshold: int := 2
  const DefaultTimeoutSeconds: int := 60

  /** The mutable part of a breaker. */
  datatype Counters = Counters(
    state: CircuitState,
    failures: nat,
    successes: nat,
    lastFailure: Option<int>,
    lastChange: int)

  /** An OPEN breaker always knows when it last failed. */
  predicate Consistent(c: Counters)
  {
    c.state == Open ==> c.lastFailure.Some?
  }

  /** `_transition_to`: CLOSED zeroes both counts, HALF_OPEN zeroes the successes. */
  function TransitionTo(c: Counters, s: CircuitState, now: int): (r: Counters)
    ensures r.state == s && r.lastChange == now && r.lastFailure == c.lastFailure
    ensures s == Closed ==> r.failures == 0 && r.successes == 0
    ensures s == HalfOpen ==> r.failures == c.failures && r.successes == 0
    ensures s == Open ==> r.failures == c.failures && r.successes == c.successes
  {
    match s
    case Closed => c.(state := s, lastChange := now, failures := 0, successes := 0)
    case HalfOpen => c.(state := s, lastChange := now, successes := 0)
    case Open => c.(state := s, lastChange := now)
  }

  /** The `state` property: an OPEN breaker whose timeout has elapsed turns HALF_OPEN. */
  function Observe(c: Counters, timeoutSeconds: int, now: int): (r: Counters)
    requires Consistent(c)
    ensures Consistent(r)
    ensures c.state != Open ==> r == c
    ensures c.state == Open && now - c.lastFailure.value >= timeoutSeconds ==>
      r.state == HalfOpen && r.successes == 0 && r.failures == c.failures && r.lastChange == now
    ensures c.state == Open && now - c.lastFailure.value < timeoutSeconds ==> r == c
  {
    if c.state == Open && now - c.lastFailure.value >= timeoutSeconds then TransitionTo(c, HalfOpen, now) else c
  }

  /** `record_success`: counts in HALF_OPEN, resets the failures in CLOSED, ignored in OPEN. */
  function Success(c: Counters, successThreshold: int, now: int): (r: Counters)
    requires Consistent(c)
    ensures Consistent(r)
    ensures c.state == Open ==> r == c
    ensures c.state == Closed ==> r == c.(failures := 0)
    ensures c.state == HalfOpen ==>
      if c.successes + 1 >= successThreshold then r.state == Closed && r.failures == 0 && r.successes == 0
      else r == c.(successes := c.successes + 1)
  {
    match c.state
    case HalfOpen =>
      var bumped := c.(successes := c.successes + 1);
      if bumped.successes >= successThreshold then TransitionTo(bumped, Closed, now) else bumped
    case Closed => c.(failures := 0)
    case Open => c
  }

  /**
   * `record_failure`: every failure counts and stamps the time; HALF_OPEN
   * reopens at once, CLOSED opens at the threshold.
   */
  function Failure(c: Counters, failureThreshold: int, now: int): (r: Counters)
    ensures Consistent(r)
    ensures r.failures == c.failures + 1 && r.lastFailure == Some(now)
    ensures c.state == HalfOpen ==> r.state == Open
    ensures c.state == Closed ==> (r.state == Open <==> c.failures + 1 >= failureThreshold)
    ensures c.state == Closed && r.state == Closed ==> r.successes == c.successes
    ensures c.state == Open ==> r.state == Open && r.successes == c.successes
  {
    var counted := c.(failures := c.failures + 1, lastFailure := Some(now));
    match c.state
    case HalfOpen => TransitionTo(counted, Open, now)
    case Closed => if counted.failures >= failureThreshold then TransitionTo(counted, Open, now) else counted
    case Open => counted
  }

  /** `can_execute`: false exactly when the state, after the timeout check, is OPEN. */
  function CanExecute(c: Counters, timeoutSeconds: int, now: int): (ok: bool)
    requires Consistent(c)
    ensures ok <==> !(c.state == Open && now - c.lastFailure.value < timeoutSeconds)
  {
    Observe(c, timeoutSeconds, now).state != Open
  }

  /** Successes in a row, each at the same time. */
  function Successes(c: Counters, successThreshold: int, now: int, k: nat): (r: Counters)
    requires Consistent(c)
    ensures Consistent(r)
  {
    if k == 0 then c else Success(Successes(c, successThreshold, now, k - 1), successThreshold, now)
  }

  /**
   * From a fresh HALF_OPEN state, k successes close the circuit exactly when
   * k reaches the success threshold (for a threshold of at least one); before
   * that the breaker stays HALF_OPEN having counted k.
   */
  lemma {:induction false} HalfOpenClosesAfterThreshold(c: Counters, successThreshold: int, now: int, k: nat)
    requires Consistent(c) && c.state == HalfOpen && c.successes == 0 && successThreshold >= 1
    requires k <= successThreshold
    ensures var r := Successes(c, successThreshold, now, k);
      (r.state == Closed <==> k == successThreshold)
      && (k < successThreshold ==> r.state == HalfOpen && r.successes == k && r.failures == c.failures)
      && (k == successThreshold ==> r.failures == 0 && r.successes == 0)
  {
    if k > 0 {
      HalfOpenClosesAfterThreshold(c, successThreshold, now, k - 1);
      var before := Successes(c, successThreshold, now, k - 1);
      assert before.state == HalfOpen && before.successes == k - 1;
      assert Successes(c, successThreshold, now, k) == Success(before, successThreshold, now);
    }
  }

  /**
   * A failure while OPEN restarts the timeout: just before the new timeout
   * has elapsed, the breaker still refuses calls, however long it had already
   * been open.
   */
  lemma OpenFailurePostpones(c: Counters, failureThreshold: int, timeoutSeconds: int, failedAt: int, later: int)
    requires Consistent(c) && c.state == Open && timeoutSeconds > 0
    requires failedAt <= later < failedAt + timeoutSeconds
    ensures !CanExecute(Failure(c, failureThreshold, failedAt), timeoutSeconds, later)
  {
  }

  /** HALF_OPEN is entered only by the timeout check, never by recording an outcome. */
  lemma {:induction false} HalfOpenOnlyByTimeout(c: Counters, successThreshold: int, failureThreshold: int, now: int)
    requires Consistent(c) && c.state != HalfOpen
    ensures Success(c, successThreshold, now).state != HalfOpen
    ensures Failure(c, failureThreshold, now).state != HalfOpen
  {
  }

  /** A closed breaker opens after `failureThreshold` failures in a row, not before. */
  lemma {:induction false} ClosedOpensAtThreshold(c: Counters, failureThreshold: int, times: seq<int>)
    requires c.state == Closed && c.failures == 0 && failureThreshold >= 1
    requires |times| <= failureThreshold
    ensures var r := Failures(c, failureThreshold, times);
      r.failures == |times| && (r.state == Open <==> |times| == failureThreshold)
  {
    if |times| > 0 {
      ClosedOpensAtThreshold(c, failureThreshold, times[..|times| - 1]);
    }
  }

  /** Failures in a row at the given times. */
  function Failures(c: Counters, failureThreshold: int, times: seq<int>): (r: Counters)
    ensures times != [] ==> Consistent(r)
  {
    if times == [] then c
    else Failure(Failures(c, failureThreshold, times[..|times| - 1]), failureThreshold, times[|times| - 1])
  }

  class CircuitBreaker {
    const failureThreshold: int
    const successThreshold: int
    const timeoutSeconds: int
    var state: CircuitState
    var failureCount: nat
    var successCount: nat
    var lastFailureTime: Option<int>
    var lastStateChange: int

    function Snapshot(): Counters
      reads this
    {
      Counters(state, failureCount, successCount, lastFailureTime, lastStateChange)
    }

    predicate Valid()
      reads this
    {
      Consistent(Snapshot())
    }

    constructor(failureThreshold: int, successThreshold: int, timeoutSeconds: int, now: int)
      ensures Valid()
      ensures this.failureThreshold == failureThreshold && this.successThreshold == successThreshold
      ensures this.timeoutSeconds == timeoutSeconds
      ensures Snapshot() == Counters(Closed, 0, 0, None, now)
    {
      this.failureThreshold := failureThreshold;
      this.successThreshold := successThreshold;
      this.timeoutSeconds := timeoutSeconds;
      state := Closed;
      failureCount := 0;
      successCount := 0;
      lastFailureTime := None;
      lastStateChange := now;
    }

    method SetCounters(c: Counters)
      modifies this
      ensures Snapshot() == c
    {
      state, failureCount, successCount := c.state, c.failures, c.successes;
      lastFailureTime, lastStateChange := c.lastFailure, c.lastChange;
    }

    /** The `state` property, which may move OPEN to HALF_OPEN. */
    method GetState(now: int) returns (s: CircuitState)
      requires Valid()
      modifies this
      ensures Valid()
      ensures Snapshot() == Observe(old(Snapshot()), timeoutSeconds, now) && s == state
    {
      if state == Open && now - lastFailureTime.value >= timeoutSeconds {
        state, lastStateChange, successCount := HalfOpen, now, 0;
      }
      s := state;
    }

    method RecordSuccess(now: int)
      requires Valid()
      modifies this
      ensures Valid()
      ensures Snapshot() == Success(old(Snapshot()), successThreshold, now)
    {
      if state == HalfOpen {
        successCount := successCount + 1;
        if successCount >= successThreshold {
          state, lastStateChange, failureCount, successCount := Closed, now, 0, 0;
        }
      } else if state == Closed {
        failureCount := 0;
      }
    }

    method RecordFailure(now: int)
      requires Valid()
      modifies this
      ensures Valid()
      ensures Snapshot() == Failure(old(Snapshot()), failureThreshold, now)
    {
      failureCount := failureCount + 1;
      lastFailureTime := Some(now);
      if state == HalfOpen {
        state, lastStateChange := Open, now;
      } else if state == Closed && failureCount >= failureThreshold {
        state, lastStateChange := Open, now;
      }
    }

    method CanExecuteNow(now: int) returns (ok: bool)
      requires Valid()
      modifies this
      ensures Valid()
      ensures ok == CanExecute(old(Snapshot()), timeoutSeconds, now)
      ensures Snapshot() == Observe(old(Snapshot()), timeoutSeconds, now)
    {
      var s := GetState(now);
      ok := s == Closed || s == HalfOpen;
    }
  }

  /** What the wrapped call did. */
  datatype CallOutcome<T> = Returned(value: T) | Raised(error: string)

  /**
   * The `with_circuit_breaker` wrapper for one call: an open circuit raises
   * without calling; otherwise the call's outcome is recorded (at `finishedAt`)
   * and passed on.
   */
  method WithCircuitBreaker<T>(circuit: CircuitBreaker, now: int, finishedAt: int, call: CallOutcome<T>)
    returns (r: Result<T, string>, called: bool)
    requires circuit.Valid()
    modifies circuit
    ensures circuit.Valid()
    ensures called == CanExecute(old(circuit.Snapshot()), circuit.timeoutSeconds, now)
    ensures !called ==> r.Err? && circuit.Snapshot() == Observe(old(circuit.Snapshot()), circuit.timeoutSeconds, now)
    ensures called && call.Returned? ==>
      r == Ok(call.value)
      && circuit.Snapshot() == Success(Observe(old(circuit.Snapshot()), circuit.timeoutSeconds, now), circuit.successThreshold, finishedAt)
    ensures called && call.Raised? ==>
      r == Err(call.error)
      && circuit.Snapshot() == Failure(Observe(old(circuit.Snapshot()), circuit.timeoutSeconds, now), circuit.failureThreshold, finishedAt)
  {
    called := circuit.CanExecuteNow(now);
    if !called {
      return Err("CircuitBreakerOpen"), called;
    }
    match call
    case Returned(v) =>
      circuit.RecordSuccess(finishedAt);
      r := Ok(v);
    case Raised(e) =>
      circuit.RecordFailure(finishedAt);
      r := Err(e);
  }

  /** One breaker per endpoint, created on first use. */
  class CircuitBreakerRegistry {
    var breakers: map<string, CircuitBreaker>

    predicate Valid()
      reads this, breakers.Values
    {
      forall e | e in breakers :: breakers[e].Valid()
    }

    constructor()
      ensures Valid() && breakers == map[]
    {
      breakers := map[];
    }

    /** `get`: an existing breaker is returned as is; the thresholds only shape a new one. */
    method Get(endpoint: string, failureThreshold: int, timeoutSeconds: int, now: int) returns (b: CircuitBreaker)
      requires Valid()
      modifies this
      ensures Valid() && endpoint in breakers && b == breakers[endpoint] && b.Valid()
      ensures endpoint in old(breakers) ==> b == old(breakers)[endpoint] && breakers == old(breakers)
      ensures endpoint !in old(breakers) ==>
        fresh(b) && breakers == old(breakers)[endpoint := b]
        && b.failureThreshold == failureThreshold && b.timeoutSeconds == timeoutSeconds
        && b.successThreshold == DefaultSuccessThreshold && b.Snapshot() == Counters(Closed, 0, 0, None, now)
    {
      if endpoint !in breakers {
        var created := new CircuitBreaker(failureThreshold, DefaultSuccessThreshold, timeoutSeconds, now);
        breakers := breakers[endpoint := created];
      }
      b := breakers[endpoint];
    }
  }
}
