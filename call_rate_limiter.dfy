/** The command-line rate limiter: at most `maxCalls` calls in any 60-second
    window, tracked in a deque of call times bounded by `maxCalls`, plus
    running counts of calls and tokens. `now` is the clock reading at the
    start of `wait_if_needed` and `stamp` the reading after any wait; the
    sleep itself is reported as the wait time it would last. */
module CallRateLimiter {
  import opened SlidingWindow

  /** The outcome of `wait_if_needed`: the call went ahead after waiting
      `wait` seconds (0 when under the limit) with the new window, or it
      raised `IndexError` (`max_calls == 0`: the check passes on an empty
      window, whose first element it then reads). */
  datatype Waited = Proceeded(window: seq<real>, wait: real) | IndexError

  /** The window and wait of one `wait_if_needed`. */
  function AfterWait(times: seq<real>, maxCalls: nat, now: real, stamp: real): Waited {
    var kept := Purge(times, now);
    if |kept| >= maxCalls then
      if kept == [] then IndexError
      else Proceeded([stamp], Window - (now - kept[0]))
    else Proceeded(kept + [stamp], 0.0)
  }

  /** The summary dictionary. */
  datatype UsageSummary = UsageSummary(totalCalls: nat, totalTokens: int, maxCallsPerMinute: nat)

  class RateLimiter {
    const maxCalls: nat
    var callTimes: seq<real>
    var totalTokens: int
    var totalCalls: nat

    /** The deque never holds more than its `maxlen`. */
    predicate Valid()
      reads this
    {
      |callTimes| <= maxCalls
    }

    constructor (maxCallsPerMinute: nat)
      ensures Valid()
      ensures maxCalls == maxCallsPerMinute && callTimes == [] && totalTokens == 0 && totalCalls == 0
    {
      maxCalls := maxCallsPerMinute;
      callTimes := [];
      totalTokens := 0;
      totalCalls := 0;
    }

    /** `wait_if_needed`: drop stale stamps, wait and clear the window when
        it is full, then record this call. `raised` is the `IndexError` of
        a zero limit, after which nothing is recorded. */
    method WaitIfNeeded(now: real, stamp: real) returns (raised: bool, wait: real)
      requires Valid()
      modifies this
      ensures Valid()
      ensures totalTokens == old(totalTokens)
      ensures var w := AfterWait(old(callTimes), maxCalls, now, stamp);
              && (raised <==> w.IndexError?)
              && (raised ==> callTimes == Purge(old(callTimes), now) && totalCalls == old(totalCalls))
              && (!raised ==> callTimes == w.window && wait == w.wait && totalCalls == old(totalCalls) + 1)
    {
      ghost var w := AfterWait(callTimes, maxCalls, now, stamp);
      var window := DropExpired(callTimes, now);
      callTimes := window;
      wait := 0.0;
      if |window| >= maxCalls {
        if window == [] {
          assert w.IndexError?;
          return true, 0.0;
        }
        wait := Window - (now - window[0]);
        window := [];
      }
      callTimes := window + [stamp];
      totalCalls := totalCalls + 1;
      raised := false;
      assert w.Proceeded? && callTimes == w.window && wait == w.wait;
    }

    /** `record_tokens`: add the count to the running total. */
    method RecordTokens(tokenCount: int)
      modifies this
      ensures totalTokens == old(totalTokens) + tokenCount
      ensures callTimes == old(callTimes) && totalCalls == old(totalCalls)
    {
      totalTokens := totalTokens + tokenCount;
    }

    /** `summary`. */
    function Summary(): (s: UsageSummary)
      reads this
      ensures s.totalCalls == totalCalls && s.totalTokens == totalTokens && s.maxCallsPerMinute == maxCalls
    {
      UsageSummary(totalCalls, totalTokens, maxCalls)
    }
  }

  /** After a call that goes ahead the window is non-empty, ends with the
      call's stamp and still fits the bound; a zero limit always raises. */
  lemma WindowBounded(times: seq<real>, maxCalls: nat, now: real, stamp: real)
    requires |times| <= maxCalls
    ensures var w := AfterWait(times, maxCalls, now, stamp);
            && (w.IndexError? <==> maxCalls == 0)
            && (w.Proceeded? ==> 1 <= |w.window| <= maxCalls && w.window[|w.window| - 1] == stamp)
  {
  }

  /** Under the limit the call is recorded after the surviving stamps with
      no wait; at the limit the caller waits until the oldest surviving
      stamp leaves the window, a wait of 0 to 60 seconds, and the window
      restarts with this call alone. */
  lemma LimitReachedWaitsAndClears(times: seq<real>, maxCalls: nat, now: real, stamp: real)
    requires maxCalls > 0
    ensures var kept := Purge(times, now);
            var w := AfterWait(times, maxCalls, now, stamp);
            && (|kept| < maxCalls ==> w == Proceeded(kept + [stamp], 0.0))
            && (|kept| >= maxCalls ==>
                  w.Proceeded? && w.window == [stamp] && w.wait == Window - (now - kept[0]) && w.wait >= 0.0)
  {
  }

  /** With a limit of 3, three calls in the same second all go ahead without
      waiting and leave three stamps; a fourth in that second waits. */
  lemma ThreeCallsThenWait(t: real)
    ensures AfterWait([], 3, t, t) == Proceeded([t], 0.0)
    ensures AfterWait([t], 3, t, t) == Proceeded([t, t], 0.0)
    ensures AfterWait([t, t], 3, t, t) == Proceeded([t, t, t], 0.0)
    ensures AfterWait([t, t, t], 3, t, t + 60.0) == Proceeded([t + 60.0], Window)
  {
    assert Purge([t], t) == [t];
    assert Purge([t, t], t) == [t, t];
    assert Purge([t, t, t], t) == [t, t, t];
  }
}
