/**
 * The utility resilience layer: a retry loop with exponential backoff and a
 * simpler circuit breaker than the SDK's. Each call of the retried function is
 * an outcome drawn from an oracle indexed by attempt number; sleeping is
 * recorded as the list of waits. Times are whole seconds.
 */
module Resilience {
  import opened Wrappers
  import CircuitBreakers

  /** What one call of the retried function did. */
  datatype Attempt<T> = Success(value: T) | Failure(error: string, retryable: bool)

  /** How `retry_with_backoff` ends. */
  datatype RetryOutcome<T> =
    | Succeeded(value: T)
    | Exhausted(attempts: int, lastError: string)
    | Propagated(error: string)

  function Pow2(k: nat): (r: nat)
    ensures r >= 1
  {
    if k == 0 then 1 else 2 * Pow2(k - 1)
  }

  /** The waits `backoff * 2^k` after the first `n` attempts. */
  function Backoffs(backoff: int, n: nat): (r: seq<int>)
    ensures |r| == n
    ensures forall k | 0 <= k < n :: r[k] == backoff * Pow2(k)
  {
    if n == 0 then [] else Backoffs(backoff, n - 1) + [backoff * Pow2(n - 1)]
  }

  /** The first `n` attempts all raised a retryable error. */
  predicate AllRetryable<T>(outcome: nat -> Attempt<T>, n: nat)
  {
    forall j | 0 <= j < n :: outcome(j).Failure? && outcome(j).retryable
  }

  /**
   * `retry_with_backoff` (and `sync_retry_with_backoff`, the same loop with a
   * blocking sleep): at most `maxRetries + 1` calls; the first success is
   * returned; a non-retryable error propagates at once; after failed attempt
   * k, when another attempt remains, it waits `backoff * 2^k`; when every
   * attempt fails it raises RetryExhausted with the attempt count and the last
   * error. A negative `maxRetries` makes no call at all.
   */
  method RetryWithBackoff<T>(outcome: nat -> Attempt<T>, maxRetries: int, backoff: int)
    returns (r: RetryOutcome<T>, calls: nat, waits: seq<int>)
    ensures calls <= if maxRetries < 0 then 0 else maxRetries + 1
    ensures AllRetryable(outcome, if calls == 0 then 0 else calls - 1)
    ensures waits == Backoffs(backoff, if calls == 0 then 0 else calls - 1)
    ensures r.Succeeded? ==> calls >= 1 && outcome(calls - 1) == Success(r.value)
    ensures r.Propagated? ==>
      calls >= 1 && outcome(calls - 1).Failure? && !outcome(calls - 1).retryable
      && r.error == outcome(calls - 1).error
    ensures r.Exhausted? ==>
      r.attempts == maxRetries + 1
      && (if maxRetries < 0 then calls == 0 && r.lastError == "Unknown error"
          else calls == maxRetries + 1 && AllRetryable(outcome, calls) && r.lastError == outcome(calls - 1).error)
    ensures maxRetries >= 0 && AllRetryable(outcome, maxRetries + 1) ==> r.Exhausted?
  {
    calls, waits := 0, [];
    var attempt: nat := 0;
    while attempt < maxRetries + 1
      invariant attempt == calls && attempt <= if maxRetries < 0 then 0 else maxRetries + 1
      invariant AllRetryable(outcome, attempt)
      invariant waits == Backoffs(backoff, attempt)
      invariant maxRetries >= 0 ==> attempt <= maxRetries
    {
      calls := calls + 1;
      match outcome(attempt)
      case Success(v) =>
        return Succeeded(v), calls, waits;
      case Failure(e, retryable) =>
        if !retryable {
          return Propagated(e), calls, waits;
        }
        if attempt < maxRetries {
          waits := waits + [backoff * Pow2(attempt)];
        } else {
          return Exhausted(attempt + 1, e), calls, waits;
        }
      attempt := attempt + 1;
    }
    r := Exhausted(maxRetries + 1, "Unknown error");
  }

  /** The simple breaker's states. */
  datatype SimpleState = Closed | Open | HalfOpen

  datatype SimpleCounters = SimpleCounters(state: SimpleState, failures: nat, lastFailure: Option<int>)

  /** A breaker that is not CLOSED has seen at least `threshold` failures since its last success. */
  predicate SimpleConsistent(c: SimpleCounters, threshold: int)
  {
    c.state != Closed ==> c.failures >= threshold
  }

  /**
   * The `state` property: OPEN turns HALF_OPEN only when a failure time is set
   * and truthy (a time of 0 is not) and strictly more than `resetTimeout` has
   * passed.
   */
  function SimpleObserve(c: SimpleCounters, resetTimeout: int, now: int): (r: SimpleCounters)
    ensures r.failures == c.failures && r.lastFailure == c.lastFailure
    ensures r.state == HalfOpen <==>
      c.state == HalfOpen
      || (c.state == Open && c.lastFailure.Some? && c.lastFailure.value != 0 && now - c.lastFailure.value > resetTimeout)
    ensures r.state == Closed <==> c.state == Closed
  {
    if c.state == Open && c.lastFailure.Some? && c.lastFailure.value != 0 && now - c.lastFailure.value > resetTimeout
    then c.(state := HalfOpen) else c
  }

  /** `record_success`: from any state, back to CLOSED with no failures. */
  function SimpleSuccess(c: SimpleCounters): (r: SimpleCounters)
    ensures r.state == Closed && r.failures == 0 && r.lastFailure == c.lastFailure
  {
    c.(state := Closed, failures := 0)
  }

  /** `record_failure`: count and stamp; OPEN once the count reaches the threshold. */
  function SimpleFailure(c: SimpleCounters, threshold: int, now: int): (r: SimpleCounters)
    ensures r.failures == c.failures + 1 && r.lastFailure == Some(now)
    ensures r.state == (if c.failures + 1 >= threshold then Open else c.state)
  {
    var counted := c.(failures := c.failures + 1, lastFailure := Some(now));
    if counted.failures >= threshold then counted.(state := Open) else counted
  }

  /** Every operation keeps a breaker consistent. */
  lemma SimpleOperationsKeepConsistent(c: SimpleCounters, threshold: int, resetTimeout: int, now: int)
    requires SimpleConsistent(c, threshold)
    ensures SimpleConsistent(SimpleObserve(c, resetTimeout, now), threshold)
    ensures SimpleConsistent(SimpleSuccess(c), threshold)
    ensures SimpleConsistent(SimpleFailure(c, threshold, now), threshold)
  {
  }

  /** So a failure in HALF_OPEN always reopens the simple breaker. */
  lemma HalfOpenFailureReopens(c: SimpleCounters, threshold: int, now: int)
    requires SimpleConsistent(c, threshold) && c.state == HalfOpen
    ensures SimpleFailure(c, threshold, now).state == Open
  {
  }

  /**
   * The two breakers disagree at the boundary: once exactly the timeout has
   * passed since the last failure, the SDK breaker lets a call through while
   * the simple one still refuses it.
   */
  lemma BreakersDisagreeAtTimeout(timeout: int, failedAt: int)
    requires failedAt != 0
    ensures var sdk := CircuitBreakers.Counters(CircuitBreakers.Open, 5, 0, Some(failedAt), failedAt);
      CircuitBreakers.CanExecute(sdk, timeout, failedAt + timeout)
    ensures var simple := SimpleCounters(Open, 5, Some(failedAt));
      SimpleObserve(simple, timeout, failedAt + timeout).state == Open
  {
  }

  /**
   * And on closing: one success closes the simple breaker from HALF_OPEN,
   * while the SDK breaker with its default threshold of two stays HALF_OPEN.
   */
  lemma BreakersDisagreeOnClosing(failures: nat, now: int)
    ensures SimpleSuccess(SimpleCounters(HalfOpen, failures, Some(now))).state == Closed
    ensures var sdk := CircuitBreakers.Counters(CircuitBreakers.HalfOpen, failures, 0, Some(now), now);
      CircuitBreakers.Success(sdk, CircuitBreakers.DefaultSuccessThreshold, now).state == CircuitBreakers.HalfOpen
  {
  }

  /** A failure time of 0 is falsy, so such a breaker never leaves OPEN by waiting. */
  lemma ZeroFailureTimeStaysOpen(failures: nat, resetTimeout: int, now: int)
    ensures SimpleObserve(SimpleCounters(Open, failures, Some(0)), resetTimeout, now).state == Open
  {
  }

  class SimpleCircuitBreaker {
    const failureThreshold: int
    const resetTimeout: int
    var failureCount: nat
    var lastFailureTime: Option<int>
    var state: SimpleState

    function Snapshot(): SimpleCounters
      reads this
    {
      SimpleCounters(state, failureCount, lastFailureTime)
    }

    predicate Valid()
      reads this
    {
      SimpleConsistent(Snapshot(), failureThreshold)
    }

    constructor(failureThreshold: int, resetTimeout: int)
      ensures Valid()
      ensures this.failureThreshold == failureThreshold && this.resetTimeout == resetTimeout
      ensures Snapshot() == SimpleCounters(Closed, 0, None)
    {
      this.failureThreshold := failureThreshold;
      this.resetTimeout := resetTimeout;
      failureCount := 0;
      lastFailureTime := None;
      state := Closed;
    }

    /** The `state` property. */
    method GetState(now: int) returns (s: SimpleState)
      requires Valid()
      modifies this
      ensures Valid()
      ensures Snapshot() == SimpleObserve(old(Snapshot()), resetTimeout, now) && s == state
    {
      if state == Open && lastFailureTime.Some? && lastFailureTime.value != 0 && now - lastFailureTime.value > resetTimeout {
        state := HalfOpen;
      }
      s := state;
    }

    method RecordSuccess()
      requires Valid()
      modifies this
      ensures Valid()
      ensures Snapshot() == SimpleSuccess(old(Snapshot()))
    {
      failureCount := 0;
      state := Closed;
    }

    method RecordFailure(now: int)
      requires Valid()
      modifies this
      ensures Valid()
      ensures Snapshot() == SimpleFailure(old(Snapshot()), failureThreshold, now)
    {
      failureCount := failureCount + 1;
      lastFailureTime := Some(now);
      if failureCount >= failureThreshold {
        state := Open;
      }
    }

    /** `is_open`: the state, after the timeout check, is OPEN. */
    method IsOpen(now: int) returns (r: bool)
      requires Valid()
      modifies this
      ensures Valid()
      ensures Snapshot() == SimpleObserve(old(Snapshot()), resetTimeout, now)
      ensures r <==> state == Open
    {
      var s := GetState(now);
      r := s == Open;
    }

    /** `can_execute`: the state, after the timeout check, is CLOSED or HALF_OPEN. */
    method CanExecute(now: int) returns (r: bool)
      requires Valid()
      modifies this
      ensures Valid()
      ensures Snapshot() == SimpleObserve(old(Snapshot()), resetTimeout, now)
      ensures r <==> state != Open
    {
      var s := GetState(now);
      r := s == Closed || s == HalfOpen;
    }
  }
}
