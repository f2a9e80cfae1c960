/** The retry and slow-call decorators of the command-line tool. The wrapped
    function is an oracle `call` from the attempt index (0-based, as in the
    source's `range`) to its outcome; the jitter drawn for a delay is an
    oracle `jitter` with values in [0, 0.5]. Sleeping is reported as the
    sequence of delays slept. */
module TimeoutHandler {
  import opened Json
  import opened Numeric

  /** What one call of the wrapped function did: returned a value or raised
      an exception (its message). */
  datatype Outcome<T> = Ok(value: T) | Raised(error: string)

  /** What the retrying wrapper did: returned the first successful value, or
      raised `TimeoutError` naming the last error (none when no attempt was
      made). */
  datatype Retried<T> = Returned(value: T) | TimedOut(lastError: Option<string>)

  /** A full run of the wrapper: its result, how many times the function
      was called and the delays slept, in order. */
  datatype Run<T> = Run(result: Retried<T>, calls: nat, delays: seq<real>)

  ghost predicate JitterInRange(jitter: nat -> real) {
    forall k :: 0.0 <= jitter(k) <= 0.5
  }

  /** The delay after failed attempt `attempt`. */
  function Delay(baseDelay: real, attempt: nat, jitter: nat -> real): real {
    baseDelay * Pow2(attempt) as real + jitter(attempt)
  }

  /** The wrapper from attempt `attempt` on, with `lastError` the error of
      the previous attempt. */
  function RetryFrom<T>(attempt: nat, maxRetries: int, baseDelay: real, call: nat -> Outcome<T>,
                        jitter: nat -> real, lastError: Option<string>): Run<T>
    decreases if attempt < maxRetries then maxRetries - attempt else 0
  {
    if attempt >= maxRetries then Run(TimedOut(lastError), 0, [])
    else match call(attempt)
      case Ok(v) => Run(Returned(v), 1, [])
      case Raised(e) =>
        var pause := if attempt < maxRetries - 1 then [Delay(baseDelay, attempt, jitter)] else [];
        var rest := RetryFrom(attempt + 1, maxRetries, baseDelay, call, jitter, Some(e));
        Run(rest.result, rest.calls + 1, pause + rest.delays)
  }

  /** `retry_with_backoff(max_retries, base_delay)(func)()`. */
  method RetryWithBackoff<T>(maxRetries: int, baseDelay: real, call: nat -> Outcome<T>, jitter: nat -> real)
    returns (result: Retried<T>, calls: nat, delays: seq<real>)
    ensures Run(result, calls, delays) == RetryFrom(0, maxRetries, baseDelay, call, jitter, None)
  {
    var lastError: Option<string> := None;
    calls := 0;
    delays := [];
    var attempt: nat := 0;
    ghost var goal := RetryFrom(0, maxRetries, baseDelay, call, jitter, None);
    while attempt < maxRetries
      invariant calls == attempt
      invariant var rest := RetryFrom(attempt, maxRetries, baseDelay, call, jitter, lastError);
                goal == Run(rest.result, calls + rest.calls, delays + rest.delays)
      decreases maxRetries - attempt
    {
      var outcome := call(attempt);
      calls := calls + 1;
      if outcome.Ok? {
        assert delays + [] == delays;
        return Returned(outcome.value), calls, delays;
      }
      lastError := Some(outcome.error);
      ghost var rest := RetryFrom(attempt + 1, maxRetries, baseDelay, call, jitter, lastError);
      if attempt < maxRetries - 1 {
        ghost var before := delays;
        delays := delays + [Delay(baseDelay, attempt, jitter)];
        assert before + ([Delay(baseDelay, attempt, jitter)] + rest.delays) == delays + rest.delays;
      } else {
        assert [] + rest.delays == rest.delays;
      }
      attempt := attempt + 1;
    }
    assert delays + [] == delays;
    return TimedOut(lastError), calls, delays;
  }

  /** The wrapper returns the first successful value, after exactly as many
      calls as it took; it raises only when every one of the `maxRetries`
      attempts raised, after calling the function that many times. */
  lemma {:induction false} FirstSuccessWins<T>(attempt: nat, maxRetries: int, baseDelay: real, call: nat -> Outcome<T>,
                                               jitter: nat -> real, lastError: Option<string>)
    ensures var run := RetryFrom(attempt, maxRetries, baseDelay, call, jitter, lastError);
            && (run.result.Returned? ==>
                  && attempt + run.calls <= maxRetries
                  && call(attempt + run.calls - 1) == Ok(run.result.value)
                  && forall k :: attempt <= k < attempt + run.calls - 1 ==> call(k).Raised?)
            && (run.result.TimedOut? <==>
                  forall k :: attempt <= k < maxRetries ==> call(k).Raised?)
            && (run.result.TimedOut? ==> run.calls == if attempt < maxRetries then maxRetries - attempt else 0)
    decreases if attempt < maxRetries then maxRetries - attempt else 0
  {
    if attempt < maxRetries && call(attempt).Raised? {
      FirstSuccessWins(attempt + 1, maxRetries, baseDelay, call, jitter, Some(call(attempt).error));
    }
  }

  /** There is a sleep between consecutive attempts and none after the
      last: one fewer delay than calls. The delay after attempt `k` is
      `base_delay * 2^k` plus that attempt's jitter. */
  lemma {:induction false} DelaysBetweenAttempts<T>(attempt: nat, maxRetries: int, baseDelay: real,
                                                     call: nat -> Outcome<T>, jitter: nat -> real,
                                                     lastError: Option<string>)
    ensures var run := RetryFrom(attempt, maxRetries, baseDelay, call, jitter, lastError);
            && |run.delays| == (if run.calls > 0 then run.calls - 1 else 0)
            && forall i :: 0 <= i < |run.delays| ==> run.delays[i] == Delay(baseDelay, attempt + i, jitter)
    decreases if attempt < maxRetries then maxRetries - attempt else 0
  {
    if attempt < maxRetries && call(attempt).Raised? {
      var e := call(attempt).error;
      DelaysBetweenAttempts(attempt + 1, maxRetries, baseDelay, call, jitter, Some(e));
      var rest := RetryFrom(attempt + 1, maxRetries, baseDelay, call, jitter, Some(e));
      var run := RetryFrom(attempt, maxRetries, baseDelay, call, jitter, lastError);
      if attempt < maxRetries - 1 {
        assert run.delays == [Delay(baseDelay, attempt, jitter)] + rest.delays;
        assert rest.calls >= 1;
        forall i | 1 <= i < |run.delays|
          ensures run.delays[i] == Delay(baseDelay, attempt + i, jitter)
        {
          assert run.delays[i] == rest.delays[i - 1];
          assert attempt + 1 + (i - 1) == attempt + i;
        }
      } else {
        assert rest.calls == 0 && rest.delays == [];
        assert run.delays == [] + rest.delays;
      }
    }
  }

  /** Each delay is at least `base_delay * 2^k` and at most half a second
      more. */
  lemma DelayBounds(baseDelay: real, attempt: nat, jitter: nat -> real)
    requires JitterInRange(jitter)
    ensures var floor := baseDelay * Pow2(attempt) as real;
            floor <= Delay(baseDelay, attempt, jitter) <= floor + 0.5
  {
    assert 0.0 <= jitter(attempt) <= 0.5;
  }

  /** Two failures and then a success: three calls, two sleeps, the
      successful value. */
  lemma TwoFailuresThenSuccess<T>(baseDelay: real, call: nat -> Outcome<T>, jitter: nat -> real, v: T)
    requires call(0).Raised? && call(1).Raised? && call(2) == Ok(v)
    ensures var run := RetryFrom(0, 3, baseDelay, call, jitter, None);
            run.result == Returned(v) && run.calls == 3
            && run.delays == [Delay(baseDelay, 0, jitter), Delay(baseDelay, 1, jitter)]
  {
    var third := RetryFrom(2, 3, baseDelay, call, jitter, Some(call(1).error));
    assert third == Run(Returned(v), 1, []);
    var second := RetryFrom(1, 3, baseDelay, call, jitter, Some(call(0).error));
    assert second == Run(Returned(v), 2, [Delay(baseDelay, 1, jitter)] + third.delays);
  }

  /** With no retries allowed the function is never called. */
  lemma NoAttemptsNoCall<T>(maxRetries: int, baseDelay: real, call: nat -> Outcome<T>, jitter: nat -> real)
    requires maxRetries <= 0
    ensures RetryFrom(0, maxRetries, baseDelay, call, jitter, None) == Run(TimedOut(None), 0, [])
  {
  }

  /** `warn_if_slow(timeout_seconds)(func)()`: the wrapped call's outcome,
      passed through unchanged, and the decorator's only other effect, the
      warning it logs: `r.1` holds exactly when the call returned (an
      exception propagates before the check) and took longer than
      `timeoutSeconds`. The decorator promises nothing beyond this
      pass-through and threshold test, so the contract is that promise
      itself. */
  function WarnIfSlow<T>(outcome: Outcome<T>, elapsed: real, timeoutSeconds: real): (r: (Outcome<T>, bool))
    ensures r.0 == outcome
    ensures r.1 <==> outcome.Ok? && elapsed > timeoutSeconds
  {
    (outcome, outcome.Ok? && elapsed > timeoutSeconds)
  }
}
