/** `_calculate_backoff` of the oracle caller: exponential backoff from 1 s,
    capped at 8 s, plus up to 10 % random jitter. The random draw is the
    parameter `u`, the fraction of the jitter range that `random.uniform`
    returned. */
module Backoff {
  import opened Numeric

  const InitialBackoff: nat := 1
  const MaxBackoff: nat := 8

  /** `min(INITIAL_BACKOFF * 2 ** (attempt - 1), MAX_BACKOFF)`. */
  function BaseBackoff(attempt: nat): (b: nat)
    requires attempt >= 1
    ensures InitialBackoff <= b <= MaxBackoff
  {
    var exp := InitialBackoff * Pow2(attempt - 1);
    if exp < MaxBackoff then exp else MaxBackoff
  }

  /** Seconds to wait before retrying after attempt `attempt`. */
  function CalculateBackoff(attempt: nat, u: real): (seconds: real)
    requires attempt >= 1 && 0.0 <= u <= 1.0
    ensures BaseBackoff(attempt) as real <= seconds <= BaseBackoff(attempt) as real * 1.1
  {
    var b := BaseBackoff(attempt) as real;
    b + u * (b * 0.1)
  }

  /** The base delay doubles with each attempt until it reaches the cap. */
  lemma {:induction false} BaseBackoffDoubles(attempt: nat)
    requires attempt >= 1
    ensures BaseBackoff(attempt + 1) == if 2 * BaseBackoff(attempt) < MaxBackoff then 2 * BaseBackoff(attempt) else MaxBackoff
  {
    assert Pow2(attempt) == 2 * Pow2(attempt - 1);
  }

  /** Later attempts never wait less (before jitter). */
  lemma {:induction false} BaseBackoffMonotone(a: nat, b: nat)
    requires 1 <= a <= b
    ensures BaseBackoff(a) <= BaseBackoff(b)
  {
    Pow2Monotone(a - 1, b - 1);
  }

  /** The first attempts back off 1, 2, 4 and 8 seconds, and the cap holds
      from the fourth attempt on. */
  lemma BackoffSchedule(attempt: nat)
    requires attempt >= 4
    ensures BaseBackoff(1) == 1 && BaseBackoff(2) == 2 && BaseBackoff(3) == 4
    ensures BaseBackoff(attempt) == MaxBackoff
  {
    assert Pow2(3) == 8;
    Pow2Monotone(3, attempt - 1);
  }
}
