/** The 60-second sliding window shared by the call-rate limiter and the
    request guardrails: a sequence of timestamps, oldest first, from whose
    front every stamp more than 60 s before `now` is dropped. */
module SlidingWindow {

  const Window: real := 60.0

  /** What is left of `times` after popping from the front while the front
      stamp is more than `Window` seconds before `now`. */
  function Purge(times: seq<real>, now: real): (r: seq<real>)
    ensures |r| <= |times|
    decreases |times|
  {
    if times != [] && now - times[0] > Window then Purge(times[1..], now) else times
  }

  /** `Purge` drops exactly the longest run of stale stamps at the front:
      what is left is a suffix, every dropped stamp is stale and the first
      kept one is not. */
  lemma {:induction false} PurgeDropsStalePrefix(times: seq<real>, now: real)
    ensures var r := Purge(times, now);
            && r == times[|times| - |r|..]
            && (r != [] ==> now - r[0] <= Window)
            && (forall i :: 0 <= i < |times| - |r| ==> now - times[i] > Window)
    decreases |times|
  {
    if times != [] && now - times[0] > Window {
      PurgeDropsStalePrefix(times[1..], now);
      var r := Purge(times, now);
      assert times[1..][|times[1..]| - |r|..] == times[|times| - |r|..];
      forall i | 1 <= i < |times| - |r|
        ensures now - times[i] > Window
      {
        assert times[i] == times[1..][i - 1];
      }
    }
  }

  /** A stamp within the window of `now` is never dropped, wherever it
      stands in the sequence. */
  lemma {:induction false} RecentStampsKept(times: seq<real>, now: real, i: nat)
    requires i < |times| && now - times[i] <= Window
    ensures times[i] in Purge(times, now)
    ensures i >= |times| - |Purge(times, now)|
  {
    PurgeDropsStalePrefix(times, now);
    var r := Purge(times, now);
    assert times[i] == r[i - (|times| - |r|)];
  }

  /** Purging twice at the same time drops nothing more. */
  lemma PurgeIdempotent(times: seq<real>, now: real)
    ensures Purge(Purge(times, now), now) == Purge(times, now)
  {
    PurgeDropsStalePrefix(times, now);
  }

  /** The front-popping loop itself. */
  method DropExpired(times: seq<real>, now: real) returns (kept: seq<real>)
    ensures kept == Purge(times, now)
  {
    kept := times;
    while kept != [] && now - kept[0] > Window
      invariant Purge(kept, now) == Purge(times, now)
      decreases |kept|
    {
      kept := kept[1..];
    }
  }
}
