/** The circuit breaker of the oracle caller (cli/agentcore_caller.py):
    three states, a consecutive-failure counter and the time of the last
    failure. Each method body runs under the breaker's lock in the source, so
    each is one atomic step here. The clock is passed in as `now` (seconds). */
module CircuitBreaker {
  import opened Json

  datatype CircuitState = Closed | Open | HalfOpen

  /** The breaker's mutable fields as one value. */
  datatype Snapshot = Snapshot(state: CircuitState, failureCount: nat, lastFailureTime: Option<int>)

  const Initial := Snapshot(Closed, 0, None)

  /** State after `record_success`. */
  function AfterSuccess(s: Snapshot): Snapshot {
    Snapshot(Closed, 0, s.lastFailureTime)
  }

  /** State after `record_failure` at time `now`. */
  function AfterFailure(s: Snapshot, now: int, threshold: int): Snapshot {
    var count := s.failureCount + 1;
    Snapshot(if count >= threshold then Open else s.state, count, Some(now))
  }

  /** The recovery timeout has elapsed since the last recorded failure. */
  predicate Recovered(s: Snapshot, now: int, recovery: int) {
    s.lastFailureTime.Some? && now - s.lastFailureTime.value >= recovery
  }

  /** Answer and state after `is_open` at time `now`. */
  function CheckOpen(s: Snapshot, now: int, recovery: int): (bool, Snapshot) {
    match s.state
    case Closed => (false, s)
    case HalfOpen => (false, s)
    case Open =>
      if Recovered(s, now, recovery) then
        (false, s.(state := HalfOpen))
      else
        (true, s)
  }

  /** `n` consecutive failures at time `now`, starting from `s`. */
  function Failures(s: Snapshot, n: nat, now: int, threshold: int): Snapshot
    decreases n
  {
    if n == 0 then s else AfterFailure(Failures(s, n - 1, now, threshold), now, threshold)
  }

  class Breaker {
    const failureThreshold: int
    const recoveryTimeout: int
    var state: CircuitState
    var failureCount: nat
    var lastFailureTime: Option<int>

    function Snap(): Snapshot
      reads this
    {
      Snapshot(state, failureCount, lastFailureTime)
    }

    constructor (threshold: int, recovery: int)
      ensures failureThreshold == threshold && recoveryTimeout == recovery
      ensures Snap() == Initial
    {
      failureThreshold := threshold;
      recoveryTimeout := recovery;
      state := Closed;
      failureCount := 0;
      lastFailureTime := None;
    }

    /** `record_success`: the counter goes back to zero and the circuit closes. */
    method RecordSuccess()
      modifies this
      ensures failureCount == 0 && state == Closed
      ensures lastFailureTime == old(lastFailureTime)
      ensures Snap() == AfterSuccess(old(Snap()))
    {
      failureCount := 0;
      state := Closed;
    }

    /** `record_failure`: one more consecutive failure, stamped `now`; the
        circuit opens once the count reaches the threshold and otherwise
        keeps its state. */
    method RecordFailure(now: int)
      modifies this
      ensures failureCount == old(failureCount) + 1
      ensures lastFailureTime == Some(now)
      ensures state == if failureCount >= failureThreshold then Open else old(state)
      ensures Snap() == AfterFailure(old(Snap()), now, failureThreshold)
    {
      failureCount := failureCount + 1;
      lastFailureTime := Some(now);
      if failureCount >= failureThreshold {
        state := Open;
      }
    }

    /** `is_open`: closed and half-open circuits let the call through; an open
        circuit whose recovery time has elapsed turns half-open and lets it
        through; otherwise the circuit stays open. The counter never changes. */
    method IsOpen(now: int) returns (open: bool)
      modifies this
      ensures failureCount == old(failureCount) && lastFailureTime == old(lastFailureTime)
      ensures old(state) == Closed ==> !open && state == Closed
      ensures old(state) == HalfOpen ==> !open && state == HalfOpen
      ensures old(state) == Open && Recovered(old(Snap()), now, recoveryTimeout) ==> !open && state == HalfOpen
      ensures old(state) == Open && !Recovered(old(Snap()), now, recoveryTimeout) ==> open && state == Open
      ensures (open, Snap()) == CheckOpen(old(Snap()), now, recoveryTimeout)
    {
      if state == Closed {
        return false;
      }
      if state == Open {
        if lastFailureTime.Some? {
          var elapsed := now - lastFailureTime.value;
          if elapsed >= recoveryTimeout {
            state := HalfOpen;
            return false;
          }
        }
        return true;
      }
      return false;
    }
  }

  /** `n` failures in a row add exactly `n` to the counter and leave the last
      failure stamped; the circuit is open afterwards iff it was already open
      or the counter reached the threshold. */
  lemma {:induction false} FailuresCount(s: Snapshot, n: nat, now: int, threshold: int)
    requires n >= 1
    ensures Failures(s, n, now, threshold).failureCount == s.failureCount + n
    ensures Failures(s, n, now, threshold).lastFailureTime == Some(now)
    ensures Failures(s, n, now, threshold).state ==
              if s.failureCount + n >= threshold then Open else s.state
    decreases n
  {
    if n > 1 {
      FailuresCount(s, n - 1, now, threshold);
    }
  }

  /** From a closed breaker with no failures, `threshold` consecutive
      failures make the next `is_open` (within the recovery time) answer true,
      and `threshold - 1` failures do not. */
  lemma {:induction false} ThresholdFailuresOpen(threshold: nat, recovery: int, failedAt: int, now: int)
    requires threshold >= 1
    requires now - failedAt < recovery
    ensures CheckOpen(Failures(Initial, threshold, failedAt, threshold), now, recovery).0
    ensures !CheckOpen(Failures(Initial, threshold - 1, failedAt, threshold), now, recovery).0
  {
    FailuresCount(Initial, threshold, failedAt, threshold);
    if threshold > 1 {
      FailuresCount(Initial, threshold - 1, failedAt, threshold);
    }
  }

  /** Once the recovery time has elapsed an open breaker answers false and
      turns half-open; it keeps answering false on every later check until a
      success or failure is recorded, and the counter is not reset. */
  lemma HalfOpenLetsEveryCallThrough(s: Snapshot, t1: int, t2: int, recovery: int)
    requires s.state == Open && s.lastFailureTime.Some?
    requires t1 - s.lastFailureTime.value >= recovery
    ensures var (open1, s1) := CheckOpen(s, t1, recovery);
            !open1 && s1.state == HalfOpen && s1.failureCount == s.failureCount
            && !CheckOpen(s1, t2, recovery).0 && CheckOpen(s1, t2, recovery).1 == s1
  {
  }

  /** A failed trial in the half-open state reopens the circuit at once when
      the counter was already at the threshold, because the counter was not
      reset by the transition to half-open. */
  lemma HalfOpenFailureReopens(s: Snapshot, now: int, threshold: int)
    requires s.state == HalfOpen && s.failureCount >= threshold
    ensures AfterFailure(s, now, threshold).state == Open
  {
  }

  /** A success after any history closes the circuit with a zero counter,
      and the next check lets the call through. */
  lemma SuccessCloses(s: Snapshot, now: int, recovery: int)
    ensures AfterSuccess(s).state == Closed && AfterSuccess(s).failureCount == 0
    ensures CheckOpen(AfterSuccess(s), now, recovery) == (false, AfterSuccess(s))
  {
  }
}
