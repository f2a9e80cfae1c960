/** `AgentCoreCaller` of the command-line client: cache, then circuit
    breaker, then configuration, then up to three attempts at the oracle,
    each under a concurrency permit; a validated answer is tagged "real",
    recorded as a success and cached, anything else is recorded as a failure
    and replaced by the mock analysis.

    The oracle's reply to attempt `k` is `reply(k)`; `parse` stands for
    `json.loads`; `jitter(k)` is the fraction of the jitter range drawn by
    `random.uniform` after attempt `k`. Two clock readings serve the call:
    `now` before the attempts (cache lookup, circuit check) and `done`
    after them (cache write, failure time). Sleeps are recorded in the
    returned trace instead of taken. */
module AgentCoreCaller {
  import opened Json
  import opened ResponseValidator
  import opened CircuitBreaker
  import opened CacheManager
  import opened ConcurrencyLimiter
  import opened Backoff
  import opened JsonExtraction
  import opened MockAnalysis
  import Sequences

  const MaxRetries: nat := 3
  const FailureThreshold: int := 3
  const RecoveryTimeout: int := 60
  const CacheTtlSeconds: int := 86400
  const MaxConcurrentCalls: nat := 2
  /** Seconds slept between the two tries at a permit. */
  const PermitRetryWait: real := 0.5
  /** Service error codes that end the attempts at once. */
  const NonRetryableCodes: set<string> := {"ValidationException", "ResourceNotFoundException"}

  /** What one invocation of the oracle produced. */
  datatype Reply =
    | Text(body: string)
    | ConnectTimeout
    | ReadTimeout
    | ServiceError(code: string)
    | OtherError

  /** Observable steps of the attempts: permit requests, oracle invocations,
      permit releases and sleeps. */
  datatype Event = Acquire(granted: bool) | Invoke(attempt: nat) | Release | Sleep(seconds: real)

  /** How an attempt ends once its permit is released. */
  datatype Step = Done(result: Json) | Continue | BackOff | Stop

  /** The body of one attempt after the oracle replied. Text that does not
      yield a truthy value, or whose value the validator rejects, goes on to
      the next attempt without sleeping; timeouts, retryable service errors
      and other errors back off first; two service error codes stop. */
  function Classify(reply: Reply, parse: string -> Option<Json>): (step: Step)
    ensures step.Done? ==> Validate(step.result) == Accepted && step.result.Obj?
                           && "source" in step.result.fields && step.result.fields["source"] == Str("real")
    ensures step.Stop? <==> reply.ServiceError? && reply.code in NonRetryableCodes
    ensures step.BackOff? <==> !reply.Text? && !(reply.ServiceError? && reply.code in NonRetryableCodes)
  {
    match reply
    case Text(body) =>
      var response := ExtractJson(body, parse);
      if response.Some? && Truthy(response.value) && Validate(response.value) == Accepted then
        TagKeepsValid(response.value, "real");
        Done(Tag(response.value, "real"))
      else Continue
    case ServiceError(code) => if code in NonRetryableCodes then Stop else BackOff
    case _ => BackOff
  }

  ghost predicate JitterInRange(jitter: nat -> real) {
    forall k :: 0.0 <= jitter(k) <= 1.0
  }

  /** The events of one attempt that got its permit: the request, the
      invocation, the release in `finally`, and the backoff sleep when the
      attempt backs off and is not the last. */
  function AttemptTrace(attempt: nat, step: Step, jitter: nat -> real): seq<Event>
    requires attempt >= 1 && JitterInRange(jitter)
  {
    [Acquire(true), Invoke(attempt), Release]
      + (if step.BackOff? && attempt < MaxRetries then [Sleep(CalculateBackoff(attempt, jitter(attempt)))] else [])
  }

  const PermitRefused: seq<Event> := [Acquire(false), Sleep(PermitRetryWait), Acquire(false)]

  /** `_analyze_with_retries` from attempt `attempt` on, with `available`
      free permits; in a sequential run every acquired permit is released
      before the next attempt, so the count is the same at every attempt. */
  function RetryLoop(attempt: nat, available: nat, reply: nat -> Reply, parse: string -> Option<Json>,
                     jitter: nat -> real): (Option<Json>, seq<Event>)
    requires 1 <= attempt <= MaxRetries + 1 && JitterInRange(jitter)
    decreases MaxRetries + 1 - attempt
  {
    if attempt > MaxRetries then (None, [])
    else if available == 0 then (None, PermitRefused)
    else
      var step := Classify(reply(attempt), parse);
      var events := AttemptTrace(attempt, step, jitter);
      if step.Done? then (Some(step.result), events)
      else if step.Stop? then (None, events)
      else
        var rest := RetryLoop(attempt + 1, available, reply, parse, jitter);
        (rest.0, events + rest.1)
  }

  /** One attempt of `RetryLoop`, the rest of the attempts left folded. */
  lemma RetryLoopUnfold(attempt: nat, available: nat, reply: nat -> Reply, parse: string -> Option<Json>,
                        jitter: nat -> real)
    requires 1 <= attempt <= MaxRetries && JitterInRange(jitter)
    ensures available == 0 ==> RetryLoop(attempt, available, reply, parse, jitter) == (None, PermitRefused)
    ensures available > 0 ==>
      var step := Classify(reply(attempt), parse);
      var events := AttemptTrace(attempt, step, jitter);
      var rest := RetryLoop(attempt + 1, available, reply, parse, jitter);
      RetryLoop(attempt, available, reply, parse, jitter) ==
        if step.Done? then (Some(step.result), events)
        else if step.Stop? then (None, events)
        else (rest.0, events + rest.1)
  {
  }

  /** The attempt numbers of the oracle invocations in a trace, in order. */
  function Invocations(t: seq<Event>): seq<nat> {
    if t == [] then [] else (if t[0].Invoke? then [t[0].attempt] else []) + Invocations(t[1..])
  }

  lemma {:induction false} InvocationsAppend(a: seq<Event>, b: seq<Event>)
    ensures Invocations(a + b) == Invocations(a) + Invocations(b)
    decreases |a|
  {
    if a == [] {
      assert a + b == b;
    } else {
      assert (a + b)[0] == a[0];
      assert (a + b)[1..] == a[1..] + b;
      InvocationsAppend(a[1..], b);
    }
  }

  /** From attempt `attempt` on, the oracle is invoked at most once per
      remaining attempt, with consecutive attempt numbers: at most three
      invocations in all. */
  lemma {:induction false} AtMostOneInvocationPerAttempt(attempt: nat, available: nat, reply: nat -> Reply,
                                                         parse: string -> Option<Json>, jitter: nat -> real)
    requires 1 <= attempt <= MaxRetries + 1 && JitterInRange(jitter)
    ensures var calls := Invocations(RetryLoop(attempt, available, reply, parse, jitter).1);
            |calls| <= MaxRetries + 1 - attempt
            && forall i :: 0 <= i < |calls| ==> calls[i] == attempt + i
    decreases MaxRetries + 1 - attempt
  {
    if attempt <= MaxRetries && available > 0 {
      var step := Classify(reply(attempt), parse);
      var events := AttemptTrace(attempt, step, jitter);
      RetryLoopUnfold(attempt, available, reply, parse, jitter);
      InvocationsOfAttempt(attempt, step, jitter);
      if !step.Done? && !step.Stop? {
        AtMostOneInvocationPerAttempt(attempt + 1, available, reply, parse, jitter);
        InvocationsAppend(events, RetryLoop(attempt + 1, available, reply, parse, jitter).1);
      }
    } else if attempt <= MaxRetries {
      assert PermitRefused[1..] == [Sleep(PermitRetryWait), Acquire(false)] && PermitRefused[1..][1..] == [Acquire(false)];
      assert Invocations([Acquire(false)]) == [];
    }
  }

  lemma InvocationsOfAttempt(attempt: nat, step: Step, jitter: nat -> real)
    requires attempt >= 1 && JitterInRange(jitter)
    ensures Invocations(AttemptTrace(attempt, step, jitter)) == [attempt]
  {
    var head := [Acquire(true), Invoke(attempt), Release];
    assert head[1..] == [Invoke(attempt), Release] && head[1..][1..] == [Release] && [Release][1..] == [];
    assert Invocations([Release]) == [];
    assert Invocations(head) == [attempt];
    var pause := if step.BackOff? && attempt < MaxRetries then [Sleep(CalculateBackoff(attempt, jitter(attempt)))] else [];
    assert Invocations(pause) == [] by {
      if pause != [] { assert pause[1..] == []; }
    }
    InvocationsAppend(head, pause);
  }

  /** The number of occurrences of `e` in `t`. */
  function Occurrences(t: seq<Event>, e: Event): nat {
    if t == [] then 0 else (if t[0] == e then 1 else 0) + Occurrences(t[1..], e)
  }

  lemma {:induction false} OccurrencesAppend(a: seq<Event>, b: seq<Event>, e: Event)
    ensures Occurrences(a + b, e) == Occurrences(a, e) + Occurrences(b, e)
    decreases |a|
  {
    if a == [] {
      assert a + b == b;
    } else {
      assert (a + b)[0] == a[0];
      assert (a + b)[1..] == a[1..] + b;
      OccurrencesAppend(a[1..], b, e);
    }
  }

  lemma OccurrencesOfThree(x: Event, y: Event, z: Event, e: Event)
    ensures Occurrences([x, y, z], e) == (if x == e then 1 else 0) + (if y == e then 1 else 0) + (if z == e then 1 else 0)
  {
    assert [x, y, z][1..] == [y, z] && [y, z][1..] == [z] && [z][1..] == [];
    assert Occurrences([z], e) == if z == e then 1 else 0;
    assert Occurrences([y, z], e) == (if y == e then 1 else 0) + Occurrences([z], e);
  }

  lemma PermitsOfAttempt(attempt: nat, step: Step, jitter: nat -> real)
    requires attempt >= 1 && JitterInRange(jitter)
    ensures Occurrences(AttemptTrace(attempt, step, jitter), Acquire(true)) == 1
    ensures Occurrences(AttemptTrace(attempt, step, jitter), Release) == 1
  {
    var head := [Acquire(true), Invoke(attempt), Release];
    OccurrencesOfThree(Acquire(true), Invoke(attempt), Release, Acquire(true));
    OccurrencesOfThree(Acquire(true), Invoke(attempt), Release, Release);
    var pause := if step.BackOff? && attempt < MaxRetries then [Sleep(CalculateBackoff(attempt, jitter(attempt)))] else [];
    assert Occurrences(pause, Acquire(true)) == 0 && Occurrences(pause, Release) == 0 by {
      if pause != [] { assert pause[1..] == []; }
    }
    OccurrencesAppend(head, pause, Acquire(true));
    OccurrencesAppend(head, pause, Release);
  }

  /** Every granted permit is released exactly once: the trace holds as
      many releases as granted requests. */
  lemma {:induction false} PermitsBalanced(attempt: nat, available: nat, reply: nat -> Reply,
                                           parse: string -> Option<Json>, jitter: nat -> real)
    requires 1 <= attempt <= MaxRetries + 1 && JitterInRange(jitter)
    ensures var t := RetryLoop(attempt, available, reply, parse, jitter).1;
            Occurrences(t, Acquire(true)) == Occurrences(t, Release)
    decreases MaxRetries + 1 - attempt
  {
    if attempt <= MaxRetries && available > 0 {
      var step := Classify(reply(attempt), parse);
      var events := AttemptTrace(attempt, step, jitter);
      RetryLoopUnfold(attempt, available, reply, parse, jitter);
      PermitsOfAttempt(attempt, step, jitter);
      if !step.Done? && !step.Stop? {
        PermitsBalanced(attempt + 1, available, reply, parse, jitter);
        var rest := RetryLoop(attempt + 1, available, reply, parse, jitter).1;
        OccurrencesAppend(events, rest, Acquire(true));
        OccurrencesAppend(events, rest, Release);
      }
    } else if attempt <= MaxRetries {
      OccurrencesOfThree(Acquire(false), Sleep(PermitRetryWait), Acquire(false), Acquire(true));
      OccurrencesOfThree(Acquire(false), Sleep(PermitRetryWait), Acquire(false), Release);
    }
  }

  /** When no permit is free the attempts end at once: two refused
      requests half a second apart, no invocation and no release. */
  lemma RefusedPermitReleasesNothing(attempt: nat, reply: nat -> Reply, parse: string -> Option<Json>, jitter: nat -> real)
    requires 1 <= attempt <= MaxRetries && JitterInRange(jitter)
    ensures RetryLoop(attempt, 0, reply, parse, jitter) == (None, PermitRefused)
    ensures PermitRefused == [Acquire(false), Sleep(PermitRetryWait), Acquire(false)]
  {
  }

  /** Every sleep in `t` is the half-second wait for a permit or a backoff
      of 1 to 2.2 seconds. */
  predicate SleepsOk(t: seq<Event>) {
    forall i :: 0 <= i < |t| && t[i].Sleep? ==> t[i].seconds == PermitRetryWait || 1.0 <= t[i].seconds <= 2.2
  }

  lemma SleepsOkAppend(a: seq<Event>, b: seq<Event>)
    requires SleepsOk(a) && SleepsOk(b)
    ensures SleepsOk(a + b)
  {
    forall i | 0 <= i < |a + b| && (a + b)[i].Sleep?
      ensures (a + b)[i].seconds == PermitRetryWait || 1.0 <= (a + b)[i].seconds <= 2.2
    {
      if i >= |a| {
        assert (a + b)[i] == b[i - |a|];
      }
    }
  }

  /** Only an attempt that backs off and is not the last sleeps, for the
      base delay of attempt one or two plus at most 10 % jitter. */
  lemma AttemptSleepsOk(attempt: nat, step: Step, jitter: nat -> real)
    requires attempt >= 1 && JitterInRange(jitter)
    ensures SleepsOk(AttemptTrace(attempt, step, jitter))
  {
    if step.BackOff? && attempt < MaxRetries {
      assert BaseBackoff(attempt) <= 2 by {
        if attempt == 2 { assert Numeric.Pow2(1) == 2; }
      }
    }
  }

  /** Sleeps are the half-second wait for a permit or a backoff of 1 to
      2.2 seconds (the base delays of attempts one and two plus at most
      10 % jitter); nothing sleeps after the last attempt. */
  lemma {:induction false} SleepsBounded(attempt: nat, available: nat, reply: nat -> Reply,
                                         parse: string -> Option<Json>, jitter: nat -> real)
    requires 1 <= attempt <= MaxRetries + 1 && JitterInRange(jitter)
    ensures SleepsOk(RetryLoop(attempt, available, reply, parse, jitter).1)
    decreases MaxRetries + 1 - attempt
  {
    if attempt <= MaxRetries {
      RetryLoopUnfold(attempt, available, reply, parse, jitter);
      if available > 0 {
        var step := Classify(reply(attempt), parse);
        AttemptSleepsOk(attempt, step, jitter);
        if !step.Done? && !step.Stop? {
          SleepsBounded(attempt + 1, available, reply, parse, jitter);
          SleepsOkAppend(AttemptTrace(attempt, step, jitter), RetryLoop(attempt + 1, available, reply, parse, jitter).1);
        }
      }
    }
  }

  /** When every reply is text, failed parses and rejected records move on
      to the next attempt without any backoff sleep. */
  lemma {:induction false} NoBackoffWithoutErrors(attempt: nat, available: nat, reply: nat -> Reply,
                                                  parse: string -> Option<Json>, jitter: nat -> real)
    requires 1 <= attempt <= MaxRetries + 1 && JitterInRange(jitter)
    requires available > 0
    requires forall k :: reply(k).Text?
    ensures var t := RetryLoop(attempt, available, reply, parse, jitter).1;
            forall i :: 0 <= i < |t| ==> !t[i].Sleep?
    decreases MaxRetries + 1 - attempt
  {
    if attempt <= MaxRetries {
      NoBackoffWithoutErrors(attempt + 1, available, reply, parse, jitter);
    }
  }

  /** A result of the attempts passed the validator and is tagged "real". */
  lemma {:induction false} RetryResultValid(attempt: nat, available: nat, reply: nat -> Reply,
                                            parse: string -> Option<Json>, jitter: nat -> real)
    requires 1 <= attempt <= MaxRetries + 1 && JitterInRange(jitter)
    ensures var r := RetryLoop(attempt, available, reply, parse, jitter).0;
            r.Some? ==> Validate(r.value) == Accepted && r.value.Obj? && "source" in r.value.fields
                        && r.value.fields["source"] == Str("real")
    decreases MaxRetries + 1 - attempt
  {
    if attempt <= MaxRetries && available > 0 {
      RetryResultValid(attempt + 1, available, reply, parse, jitter);
    }
  }

  /** A non-retryable service error on the first attempt ends the attempts
      after one invocation, with the permit released and no sleep. */
  lemma NonRetryableStopsAtOnce(available: nat, reply: nat -> Reply, parse: string -> Option<Json>, jitter: nat -> real)
    requires JitterInRange(jitter) && available > 0
    requires reply(1).ServiceError? && reply(1).code in NonRetryableCodes
    ensures RetryLoop(1, available, reply, parse, jitter) == (None, [Acquire(true), Invoke(1), Release])
  {
    assert Classify(reply(1), parse) == Stop;
    RetryLoopUnfold(1, available, reply, parse, jitter);
    var head := [Acquire(true), Invoke(1), Release];
    assert head + [] == head;
    assert AttemptTrace(1, Stop, jitter) == head;
  }

  /** Three timeouts in a row: three invocations, a backoff after the first
      two only, and no result. */
  lemma ExhaustedAfterThreeTimeouts(available: nat, reply: nat -> Reply, parse: string -> Option<Json>, jitter: nat -> real)
    requires JitterInRange(jitter) && available > 0
    requires forall k :: 1 <= k <= 3 ==> reply(k) == ConnectTimeout
    ensures RetryLoop(1, available, reply, parse, jitter) ==
      (None, [Acquire(true), Invoke(1), Release, Sleep(CalculateBackoff(1, jitter(1))),
              Acquire(true), Invoke(2), Release, Sleep(CalculateBackoff(2, jitter(2))),
              Acquire(true), Invoke(3), Release])
  {
    assert reply(1) == ConnectTimeout && reply(2) == ConnectTimeout && reply(3) == ConnectTimeout;
    assert Classify(reply(1), parse) == BackOff && Classify(reply(2), parse) == BackOff;
    assert Classify(reply(3), parse) == BackOff;
    assert RetryLoop(4, available, reply, parse, jitter) == (None, []);
    var third := RetryLoop(3, available, reply, parse, jitter);
    assert third.0 == None && third.1 == [Acquire(true), Invoke(3), Release];
    var second := RetryLoop(2, available, reply, parse, jitter);
    assert second.0 == None;
    assert second.1 == [Acquire(true), Invoke(2), Release, Sleep(CalculateBackoff(2, jitter(2)))] + third.1;
    var first := RetryLoop(1, available, reply, parse, jitter);
    assert first.0 == second.0;
    assert first.1 == [Acquire(true), Invoke(1), Release, Sleep(CalculateBackoff(1, jitter(1)))] + second.1;
    assert first.1 == [Acquire(true), Invoke(1), Release, Sleep(CalculateBackoff(1, jitter(1))),
                       Acquire(true), Invoke(2), Release, Sleep(CalculateBackoff(2, jitter(2))),
                       Acquire(true), Invoke(3), Release];
  }

  /** Two timeouts and then an acceptable answer: the answer, tagged
      "real", after three invocations and two backoffs. */
  lemma TimeoutsThenSuccess(available: nat, reply: nat -> Reply, parse: string -> Option<Json>,
                            jitter: nat -> real, record: Json)
    requires JitterInRange(jitter) && available > 0
    requires reply(1) == ConnectTimeout && reply(2) == ReadTimeout && reply(3).Text? && reply(3).body != []
    requires parse(reply(3).body) == Some(record) && Truthy(record) && Validate(record) == Accepted
    ensures record.Obj?
    ensures RetryLoop(1, available, reply, parse, jitter) ==
      (Some(Tag(record, "real")),
       [Acquire(true), Invoke(1), Release, Sleep(CalculateBackoff(1, jitter(1))),
        Acquire(true), Invoke(2), Release, Sleep(CalculateBackoff(2, jitter(2))),
        Acquire(true), Invoke(3), Release])
  {
    assert Classify(reply(3), parse) == Done(Tag(record, "real"));
    assert Classify(reply(1), parse) == BackOff && Classify(reply(2), parse) == BackOff;
    var third := RetryLoop(3, available, reply, parse, jitter);
    assert third.0 == Some(Tag(record, "real")) && third.1 == [Acquire(true), Invoke(3), Release];
    var second := RetryLoop(2, available, reply, parse, jitter);
    assert second.0 == third.0;
    assert second.1 == [Acquire(true), Invoke(2), Release, Sleep(CalculateBackoff(2, jitter(2)))] + third.1;
    var first := RetryLoop(1, available, reply, parse, jitter);
    assert first.0 == second.0;
    assert first.1 == [Acquire(true), Invoke(1), Release, Sleep(CalculateBackoff(1, jitter(1)))] + second.1;
    assert first.1 == [Acquire(true), Invoke(1), Release, Sleep(CalculateBackoff(1, jitter(1))),
                       Acquire(true), Invoke(2), Release, Sleep(CalculateBackoff(2, jitter(2))),
                       Acquire(true), Invoke(3), Release];
  }

  /** `_validate_config`: agent id, agent alias and client must all be set. */
  function ValidateConfig(agentId: string, agentAlias: string, clientReady: bool): (ok: bool)
    ensures ok ==> agentId != [] && agentAlias != [] && clientReady
    ensures agentId == [] || agentAlias == [] || !clientReady ==> !ok
  {
    agentId != [] && agentAlias != [] && clientReady
  }

  /** The caller's mutable state: breaker, cache table and free permits. */
  datatype CallerState = CallerState(breaker: Snapshot, entries: map<string, Entry>, available: nat)

  /** Every cached record passes the validator. */
  predicate CacheValid(entries: map<string, Entry>) {
    forall k :: k in entries ==> Validate(entries[k].result) == Accepted
  }

  /** `analyze_repository` for a path with cache key `key` and base name
      `repoName`: the record returned, the new state and the trace. `now`
      is the clock reading of the cache lookup and the circuit check;
      `done` is the later reading, taken after the attempts and their
      sleeps, that stamps the cache entry or the failure. */
  function Analyze(s: CallerState, key: string, repoName: string, now: int, done: int, configOk: bool,
                   reply: nat -> Reply, parse: string -> Option<Json>, jitter: nat -> real)
    : (Json, CallerState, seq<Event>)
    requires JitterInRange(jitter)
    requires now <= done
  {
    var (cached, entries1) := Lookup(s.entries, key, now, CacheTtlSeconds);
    if cached.Some? && Truthy(cached.value) then
      (cached.value, s.(entries := entries1), [])
    else
      var (open, breaker1) := CheckOpen(s.breaker, now, RecoveryTimeout);
      var s1 := CallerState(breaker1, entries1, s.available);
      if open || !configOk then
        (MockAnalysisFor(repoName), s1, [])
      else
        var (result, trace) := RetryLoop(1, s.available, reply, parse, jitter);
        if result.Some? && Truthy(result.value) then
          (result.value, s1.(breaker := AfterSuccess(breaker1), entries := Store(entries1, key, result.value, done)), trace)
        else
          (MockAnalysisFor(repoName), s1.(breaker := AfterFailure(breaker1, done, FailureThreshold)), trace)
  }

  /** Whatever happens, the record returned passes the validator and the
      cache keeps holding only records that do. */
  lemma AnalyzeAlwaysValid(s: CallerState, key: string, repoName: string, now: int, done: int, configOk: bool,
                           reply: nat -> Reply, parse: string -> Option<Json>, jitter: nat -> real)
    requires JitterInRange(jitter) && CacheValid(s.entries)
    requires now <= done
    ensures var (r, s', _) := Analyze(s, key, repoName, now, done, configOk, reply, parse, jitter);
            Validate(r) == Accepted && CacheValid(s'.entries)
  {
    MockAlwaysValid(repoName);
    var (cached, entries1) := Lookup(s.entries, key, now, CacheTtlSeconds);
    LookupOnlyShrinks(s.entries, key, now, CacheTtlSeconds);
    assert CacheValid(entries1);
    var after := Analyze(s, key, repoName, now, done, configOk, reply, parse, jitter).1.entries;
    if !(cached.Some? && Truthy(cached.value)) {
      var (open, breaker1) := CheckOpen(s.breaker, now, RecoveryTimeout);
      if !open && configOk {
        RetryResultValid(1, s.available, reply, parse, jitter);
        var result := RetryLoop(1, s.available, reply, parse, jitter).0;
        if result.Some? && Truthy(result.value) {
          assert after == Store(entries1, key, result.value, done);
          StoreKeepsValid(entries1, key, result.value, done);
        } else {
          assert after == entries1;
        }
      } else {
        assert after == entries1;
      }
    } else {
      assert after == entries1;
    }
  }

  lemma StoreKeepsValid(entries: map<string, Entry>, key: string, result: Json, now: int)
    requires CacheValid(entries) && Validate(result) == Accepted
    ensures CacheValid(Store(entries, key, result, now))
  {
  }

  /** A cache hit returns the stored record as it is (its tag stays "real"),
      invokes nothing and leaves breaker and permits alone. */
  lemma CacheHitShortCircuits(s: CallerState, key: string, repoName: string, now: int, done: int, configOk: bool,
                              reply: nat -> Reply, parse: string -> Option<Json>, jitter: nat -> real)
    requires JitterInRange(jitter)
    requires now <= done
    requires key in s.entries && now - s.entries[key].storedAt <= CacheTtlSeconds && Truthy(s.entries[key].result)
    ensures Analyze(s, key, repoName, now, done, configOk, reply, parse, jitter) == (s.entries[key].result, s, [])
  {
  }

  /** An open circuit within its recovery time, or an invalid
      configuration, yields the mock analysis without invoking the oracle
      and without recording a success or failure. */
  lemma NoCallWhenOpenOrMisconfigured(s: CallerState, key: string, repoName: string, now: int, done: int, configOk: bool,
                                      reply: nat -> Reply, parse: string -> Option<Json>, jitter: nat -> real)
    requires JitterInRange(jitter)
    requires now <= done
    requires key !in s.entries
    requires CheckOpen(s.breaker, now, RecoveryTimeout).0 || !configOk
    ensures var (r, s', t) := Analyze(s, key, repoName, now, done, configOk, reply, parse, jitter);
            r == MockAnalysisFor(repoName) && t == [] && s'.entries == s.entries
            && s'.breaker == CheckOpen(s.breaker, now, RecoveryTimeout).1
            && s'.breaker.failureCount == s.breaker.failureCount
  {
  }

  /** A call that reaches the oracle and gets an answer records one
      success: the circuit closes and the "real" record is returned and
      cached. */
  lemma FreshCallSucceeds(s: CallerState, key: string, repoName: string, now: int, done: int,
                          reply: nat -> Reply, parse: string -> Option<Json>, jitter: nat -> real)
    requires JitterInRange(jitter)
    requires now <= done
    requires key !in s.entries
    requires !CheckOpen(s.breaker, now, RecoveryTimeout).0
    requires RetryLoop(1, s.available, reply, parse, jitter).0.Some?
    ensures var (r, s', t) := Analyze(s, key, repoName, now, done, true, reply, parse, jitter);
            var attempts := RetryLoop(1, s.available, reply, parse, jitter);
            && t == attempts.1
            && r == attempts.0.value && r.Obj? && "source" in r.fields && r.fields["source"] == Str("real")
            && s'.breaker == AfterSuccess(CheckOpen(s.breaker, now, RecoveryTimeout).1) && s'.breaker.state == Closed
            && s'.entries == s.entries[key := Entry(r, done)]
  {
    RetryResultValid(1, s.available, reply, parse, jitter);
    var attempts := RetryLoop(1, s.available, reply, parse, jitter);
    var r := attempts.0.value;
    var b1 := CheckOpen(s.breaker, now, RecoveryTimeout).1;
    assert Truthy(r);
    assert Analyze(s, key, repoName, now, done, true, reply, parse, jitter) ==
      (r, CallerState(AfterSuccess(b1), s.entries[key := Entry(r, done)], s.available), attempts.1);
  }

  /** A call that reaches the oracle and gets no answer records one
      failure: the "mock" record is returned and nothing is cached. */
  lemma FreshCallFails(s: CallerState, key: string, repoName: string, now: int, done: int,
                       reply: nat -> Reply, parse: string -> Option<Json>, jitter: nat -> real)
    requires JitterInRange(jitter)
    requires now <= done
    requires key !in s.entries
    requires !CheckOpen(s.breaker, now, RecoveryTimeout).0
    requires RetryLoop(1, s.available, reply, parse, jitter).0.None?
    ensures var (r, s', t) := Analyze(s, key, repoName, now, done, true, reply, parse, jitter);
            var b1 := CheckOpen(s.breaker, now, RecoveryTimeout).1;
            && t == RetryLoop(1, s.available, reply, parse, jitter).1
            && r == MockAnalysisFor(repoName) && r.fields["source"] == Str("mock")
            && s'.breaker == AfterFailure(b1, done, FailureThreshold)
            && s'.breaker.failureCount == s.breaker.failureCount + 1
            && s'.entries == s.entries
  {
  }

  class Caller {
    const breaker: Breaker
    const cache: Cache
    const limiter: RateLimiter
    const configOk: bool
    /** `Path(repo_path).name`. */
    const baseName: string -> string

    ghost predicate Valid()
      reads this, breaker, cache
    {
      && breaker.failureThreshold == FailureThreshold
      && breaker.recoveryTimeout == RecoveryTimeout
      && cache.ttl == CacheTtlSeconds
      && CacheValid(cache.entries)
    }

    function State(): CallerState
      reads this, breaker, cache, limiter
    {
      CallerState(breaker.Snap(), cache.entries, limiter.available)
    }

    constructor (agentId: string, agentAlias: string, clientReady: bool,
                 keyOf: string -> string, baseName: string -> string)
      ensures Valid()
      ensures State() == CallerState(Initial, map[], MaxConcurrentCalls)
      ensures configOk == ValidateConfig(agentId, agentAlias, clientReady)
      ensures cache.keyOf == keyOf && this.baseName == baseName
      ensures fresh(breaker) && fresh(cache) && fresh(limiter)
    {
      breaker := new Breaker(FailureThreshold, RecoveryTimeout);
      cache := new Cache(CacheTtlSeconds, keyOf);
      limiter := new RateLimiter(MaxConcurrentCalls);
      configOk := ValidateConfig(agentId, agentAlias, clientReady);
      this.baseName := baseName;
    }

    /** One pass of the loop of `_analyze_with_retries`: take a permit
        (waiting once when none is free), invoke the oracle, release the
        permit and sleep the backoff when the attempt backs off and is not
        the last. */
    method Attempt(attempt: nat, reply: nat -> Reply, parse: string -> Option<Json>, jitter: nat -> real)
      returns (granted: bool, step: Step, events: seq<Event>)
      requires 1 <= attempt <= MaxRetries && JitterInRange(jitter)
      modifies limiter
      ensures limiter.available == old(limiter.available)
      ensures granted <==> old(limiter.available) > 0
      ensures !granted ==> events == PermitRefused
      ensures granted ==> step == Classify(reply(attempt), parse) && events == AttemptTrace(attempt, step, jitter)
    {
      step := Stop;
      granted := limiter.Acquire();
      events := [Acquire(granted)];
      if !granted {
        events := events + [Sleep(PermitRetryWait)];
        granted := limiter.Acquire();
        events := events + [Acquire(granted)];
        if !granted {
          return;
        }
      }
      events := events + [Invoke(attempt)];
      step := Classify(reply(attempt), parse);
      limiter.Release();
      events := events + [Release];
      if step.BackOff? && attempt < MaxRetries {
        events := events + [Sleep(CalculateBackoff(attempt, jitter(attempt)))];
      }
    }

    /** `_analyze_with_retries`. */
    method AnalyzeWithRetries(reply: nat -> Reply, parse: string -> Option<Json>, jitter: nat -> real)
      returns (result: Option<Json>, trace: seq<Event>)
      requires JitterInRange(jitter)
      modifies limiter
      ensures limiter.available == old(limiter.available)
      ensures (result, trace) == RetryLoop(1, old(limiter.available), reply, parse, jitter)
    {
      ghost var permits := limiter.available;
      ghost var goal := RetryLoop(1, permits, reply, parse, jitter);
      trace := [];
      var attempt := 1;
      assert trace + goal.1 == goal.1;
      while attempt <= MaxRetries
        invariant 1 <= attempt <= MaxRetries + 1
        invariant limiter.available == permits
        invariant goal.0 == RetryLoop(attempt, permits, reply, parse, jitter).0
        invariant goal.1 == trace + RetryLoop(attempt, permits, reply, parse, jitter).1
        decreases MaxRetries + 1 - attempt
      {
        var granted, step, events := Attempt(attempt, reply, parse, jitter);
        RetryLoopUnfold(attempt, permits, reply, parse, jitter);
        ghost var before := trace;
        trace := trace + events;
        if !granted {
          return None, trace;
        }
        if step.Done? {
          return Some(step.result), trace;
        }
        if step.Stop? {
          return None, trace;
        }
        Sequences.AppendAssoc(before, events, RetryLoop(attempt + 1, permits, reply, parse, jitter).1);
        attempt := attempt + 1;
      }
      assert RetryLoop(attempt, permits, reply, parse, jitter) == (None, []);
      assert trace + [] == trace;
      return None, trace;
    }

    /** `analyze_repository`. */
    method AnalyzeRepository(repoPath: string, now: int, done: int, reply: nat -> Reply, parse: string -> Option<Json>,
                             jitter: nat -> real)
      returns (result: Json, trace: seq<Event>)
      requires Valid() && JitterInRange(jitter)
      requires now <= done
      modifies breaker, cache, limiter
      ensures Valid()
      ensures Validate(result) == Accepted
      ensures (result, State(), trace) ==
              Analyze(old(State()), cache.keyOf(repoPath), baseName(repoPath), now, done, configOk, reply, parse, jitter)
    {
      ghost var s := State();
      AnalyzeAlwaysValid(s, cache.keyOf(repoPath), baseName(repoPath), now, done, configOk, reply, parse, jitter);
      var cached := cache.Get(repoPath, now);
      if cached.Some? && Truthy(cached.value) {
        return cached.value, [];
      }
      var open := breaker.IsOpen(now);
      if open || !configOk {
        return MockAnalysisFor(baseName(repoPath)), [];
      }
      var attempts;
      attempts, trace := AnalyzeWithRetries(reply, parse, jitter);
      if attempts.Some? && Truthy(attempts.value) {
        breaker.RecordSuccess();
        cache.Set(repoPath, attempts.value, done);
        return attempts.value, trace;
      }
      breaker.RecordFailure(done);
      return MockAnalysisFor(baseName(repoPath)), trace;
    }
  }
}
