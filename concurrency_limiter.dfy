/** The concurrency limiter of the oracle caller: a counting semaphore with
    `max_concurrent` permits. Acquiring waits at most 0.1 s in the source;
    the model is sequential, so no other holder can release a permit during
    the wait and an acquire succeeds exactly when a permit is free. */
module ConcurrencyLimiter {

  class RateLimiter {
    const maxConcurrent: nat
    var available: nat

    constructor (maxConcurrent: nat)
      ensures this.maxConcurrent == maxConcurrent && available == maxConcurrent
    {
      this.maxConcurrent := maxConcurrent;
      available := maxConcurrent;
    }

    /** `acquire`: take a permit if one is free. */
    method Acquire() returns (ok: bool)
      modifies this
      ensures ok <==> old(available) > 0
      ensures available == if ok then old(available) - 1 else old(available)
    {
      if available == 0 {
        return false;
      }
      available := available - 1;
      return true;
    }

    /** `release`: give a permit back. A plain semaphore does not check that
        the permit was taken, so the count is not capped at `maxConcurrent`. */
    method Release()
      modifies this
      ensures available == old(available) + 1
    {
      available := available + 1;
    }
  }
}
