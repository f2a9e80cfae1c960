# janus-clew, resilient analysis core, in Dafny

janus-clew analyses a developer's repositories and reports their skills,
patterns and growth. It asks a reasoning service ("AgentCore", or Amazon Q
on the command line) for each analysis. This project models the parts of
janus-clew that decide what happens around those calls, and it proves
properties of that model:

- **The oracle caller** of the command-line tool (`cli/agentcore_caller.py`):
  - the circuit breaker, the result cache, the concurrency permits and the backoff;
  - the response validator, the JSON extraction and the mock analysis;
  - the orchestration of all of these: cache, then circuit, then configuration,
    then up to three attempts, then validation, then a cache write or the fallback.
- **The command-line guardrails:**
  - the sliding-window call-rate limiter (`cli/rate_limiter.py`);
  - the retry and slow-call decorators (`cli/timeout_handler.py`);
  - prompt sanitising and the file filter (`cli/validators.py`).
- **The backend request guardrails** (`backend/guardrails.py`): a body-size cap
  and a per-client limit of requests per 60 seconds.
- **The backend services:**
  - the oracle client wrapper and its mock (`backend/services/agentcore_integration.py`);
  - the pattern detector and the recommendation engine;
  - the read services over stored analyses (`backend/services/__init__.py`).
    `backend/services.py` is an earlier copy of four of these read services.
    The same Services members model both copies, and rows citing either file
    name the same member.
- **The Amazon Q client's retry loop and metric heuristics** (`cli/aws_q_client.py`).
- **The batch part of the analysis engine** (`cli/analyzer.py`).

Classes whose fields the code updates in place are Dafny classes:
`CircuitBreaker`, `CacheManager`, the semaphore, both rate limiters and the
guardrails middleware. Loops that build lists and dictionaries are methods.
Each such method is proved against a specification function, and the
properties the code promises are lemmas about those functions.

Everything the code gets from outside is a parameter:

- the clock is a timestamp argument; the oracle caller takes two, one read before its attempts and one read after them and their sleeps;
- random jitter is a draw known to lie in its range;
- `json.loads` is an abstract `parse`;
- the cache key (SHA-256 of the resolved path) is an abstract `keyOf`;
- the reasoning service is a function from attempt number to reply;
- storage is the list of analyses it returned.

Sleeps are not taken. Each method reports them as the sequence of waits it
would sleep.

Some of the code's behaviour differs from the system's own description.
The model follows the code in each case:

- A cache hit returns the stored record unchanged. It still carries
  `source: "real"`; nothing tags it as cached.
- In `HALF_OPEN`, `is_open` returns false on every call until the next
  success or failure is recorded, not just once.
- Parse and validation failures of an attempt go straight to the next
  attempt, without a backoff sleep.
- `release` of the permit pool is not capped, because the pool is a plain
  semaphore.
- The validator never checks `readiness` values.
- The Amazon Q mock for "ticketglass" reports the skill level "expert".
  `_estimate_skill_level` never produces that level.
- With `max_length` < 3, `sanitize_for_prompt` returns text longer than
  `max_length`.
- `_invoke_agentcore_with_fallback` also falls back when `detect_patterns`
  returns something other than a dictionary. The `.get` call on it raises
  inside the `try`.

## Model

| member | source | states |
|---|---|---|
| CircuitBreaker.Breaker.constructor | cli/agentcore_caller.py:81-93 | a new breaker is CLOSED with no failures and no failure time, and keeps the given threshold and recovery timeout |
| CircuitBreaker.Breaker.RecordSuccess | cli/agentcore_caller.py:96-100 | the counter becomes 0 and the state CLOSED; the last failure time is kept |
| CircuitBreaker.Breaker.RecordFailure | cli/agentcore_caller.py:103-113 | the counter rises by exactly 1, the failure time becomes `now`, and the state becomes OPEN iff the new count reaches the threshold (otherwise it is unchanged) |
| CircuitBreaker.Breaker.IsOpen | cli/agentcore_caller.py:115-136 | CLOSED and HALF_OPEN answer false and stay put; OPEN past the recovery time turns HALF_OPEN and answers false; OPEN within it answers true; counter and failure time never change |
| CircuitBreaker.FailuresCount | cli/agentcore_caller.py:103-113 | n consecutive failures raise the counter by n, stamp the last time, and leave the state OPEN iff the count reached the threshold |
| CircuitBreaker.ThresholdFailuresOpen | cli/agentcore_caller.py:103-133 | from a fresh breaker, `threshold` failures make the next check within the recovery time answer open, and `threshold - 1` failures do not |
| CircuitBreaker.HalfOpenLetsEveryCallThrough | cli/agentcore_caller.py:125-136 | once the recovery time has passed, the breaker answers false, turns HALF_OPEN without resetting the counter, and answers false on every later check |
| CircuitBreaker.HalfOpenFailureReopens | cli/agentcore_caller.py:106-110 | a failure in HALF_OPEN with the counter already at the threshold reopens the circuit |
| CircuitBreaker.SuccessCloses | cli/agentcore_caller.py:96-100 | after any history a success closes the circuit with a zero counter, and the next check answers false |
| ResponseValidator.CheckFields | cli/agentcore_caller.py:147-154 | the field loop finds nothing iff every listed field is present with an allowed type; otherwise it names the first bad field, reporting a missing field before a wrong type |
| ResponseValidator.CheckRecommendations | cli/agentcore_caller.py:214-227 | the recommendation loop finds nothing iff every item is a dict holding title, description, readiness and why; otherwise it names the first bad index |
| ResponseValidator.Validate | cli/agentcore_caller.py:160-229 | the error names `root` exactly when the input is not a dict |
| ResponseValidator.ValidateAcceptsExactlyWellFormed | cli/agentcore_caller.py:160-229 | the validator accepts a value iff it is a well-formed record (both directions) |
| ResponseValidator.ExtraKeyIrrelevant | cli/agentcore_caller.py:176-227 | a key outside the six required ones does not change the verdict |
| ResponseValidator.CheckFieldsAgree | cli/agentcore_caller.py:176-184 | two dicts that agree on the listed fields get the same answer from the field loop |
| ResponseValidator.MissingSkillLevelNamed | cli/agentcore_caller.py:176-178 | with the first three fields well typed and `skill_level` missing, the error is "missing field" for `skill_level`, whatever the later fields hold |
| ResponseValidator.ScoreCheckedFirst | cli/agentcore_caller.py:186-192 | once all fields are present and well typed, an out-of-range score is the first error, before any content check |
| ResponseValidator.RecordVerdict | cli/agentcore_caller.py:186-229 | a record with the six keys is accepted iff its score is in [0, 10], its lower-cased skill level is known, its technologies are non-empty strings, its patterns are strings, and each recommendation is a dict with the four keys |
| ResponseValidator.ScoreBoundaries | cli/agentcore_caller.py:186-200 | scores 10, 0 and `True` are accepted and 11 and -0.5 rejected; "Advanced" passes after lower-casing |
| ResponseValidator.StringScoreWrongType | cli/agentcore_caller.py:180-184 | a string score is a type error on `complexity_score`, not a range error |
| CacheManager.Cache.constructor | cli/agentcore_caller.py:239-246 | a new cache is empty and keeps the ttl and the key function |
| CacheManager.Cache.Get | cli/agentcore_caller.py:261-285 | a missing key gives nothing and changes nothing; an entry older than ttl (strictly) is deleted and gives nothing; otherwise the stored result is returned and the table is unchanged |
| CacheManager.Cache.Set | cli/agentcore_caller.py:287-298 | the key now maps to the result stamped `now`; every other key is unchanged |
| CacheManager.HitWithinTtl | cli/agentcore_caller.py:261-285 | a stored result is returned unchanged by any lookup up to ttl seconds later, and that lookup leaves the table alone |
| CacheManager.ExpiredEvicted | cli/agentcore_caller.py:277-282 | a lookup more than ttl seconds later misses and removes the entry, so every later lookup misses too |
| CacheManager.OtherKeysUntouched | cli/agentcore_caller.py:273-297 | storing or looking up one key never changes the entry of another |
| CacheManager.LookupOnlyShrinks | cli/agentcore_caller.py:272-285 | a lookup either leaves the table alone or deletes exactly the looked-up key; a hit returns the stored result |
| ConcurrencyLimiter.RateLimiter.constructor | cli/agentcore_caller.py:308-315 | a new limiter has `maxConcurrent` free permits |
| ConcurrencyLimiter.RateLimiter.Acquire | cli/agentcore_caller.py:317-323 | succeeds iff a permit was free, and then takes exactly one |
| ConcurrencyLimiter.RateLimiter.Release | cli/agentcore_caller.py:325-327 | gives exactly one permit back |
| Backoff.BaseBackoff | cli/agentcore_caller.py:575 | the base delay lies between the initial backoff (1) and the cap (8) |
| Backoff.CalculateBackoff | cli/agentcore_caller.py:565-579 | the delay lies in [base, 1.1 · base] for any jitter draw |
| Backoff.BaseBackoffDoubles | cli/agentcore_caller.py:575 | each attempt doubles the base delay until the cap is reached |
| Backoff.BaseBackoffMonotone | cli/agentcore_caller.py:575 | the base delay never decreases with the attempt number |
| Backoff.BackoffSchedule | cli/agentcore_caller.py:574-575 | attempts 1, 2 and 3 get 1, 2 and 4 seconds; from attempt 4 on the delay is the cap |
| JsonExtraction.BraceSpan | cli/agentcore_caller.py:661-665 | a span exists iff some `{` comes before some `}`; it runs from the first `{` to the last `}` inclusive |
| JsonExtraction.ExtractJson | cli/agentcore_caller.py:641-670 | empty text gives nothing; text that parses gives its value; otherwise the result is the parse of the brace span when there is one, and nothing when there is none |
| JsonExtraction.GreedyAcrossObjects | cli/agentcore_caller.py:661-665 | with two objects in the text, the span runs from the first `{` to the last `}` |
| JsonExtraction.ReversedBracesNoSpan | cli/agentcore_caller.py:664 | a `}` before the only `{` gives no span |
| JsonExtraction.RegexMatchesBraceSpan | backend/services/agentcore_integration.py:122-124 | the greedy search for `{.*}` across lines picks exactly the span from the first `{` to the last `}`, and finds nothing exactly when that `find`/`rfind` span does not exist |
| MockAnalysis.MockAnalysisFor | cli/agentcore_caller.py:672-746 | the fallback record is a dict tagged `source: "mock"` |
| MockAnalysis.RenderValid | cli/agentcore_caller.py:684-743 | any mock entry whose data is in range renders to a record the validator accepts |
| MockAnalysis.MockDataOk | cli/agentcore_caller.py:684-743 | the two named entries and the generic one (readiness "now" included) are in range |
| MockAnalysis.MockRecordValid | cli/agentcore_caller.py:726-743 | every untagged mock record passes the validator |
| MockAnalysis.SourceNotRequired | cli/agentcore_caller.py:147-154 | `source` is not one of the six required fields |
| MockAnalysis.TagKeepsValid | cli/agentcore_caller.py:493 | tagging an accepted record with `source` keeps it accepted |
| MockAnalysis.MockAlwaysValid | cli/agentcore_caller.py:672-746 | for every repository name, the fallback passes the validator and is tagged "mock" |
| AgentCoreCaller.Classify | cli/agentcore_caller.py:484-527 | a finished attempt carries an accepted dict; the attempt stops iff the service error code is non-retryable; it backs off iff the call raised a retryable error |
| AgentCoreCaller.AtMostOneInvocationPerAttempt | cli/agentcore_caller.py:466-530 | the oracle is invoked at most once per remaining attempt, with consecutive attempt numbers, so at most three times from attempt 1 |
| AgentCoreCaller.PermitsBalanced | cli/agentcore_caller.py:469-501 | the trace holds as many releases as granted permits |
| AgentCoreCaller.RefusedPermitReleasesNothing | cli/agentcore_caller.py:469-474 | with no free permit: two refused requests half a second apart, no invocation, no release, no result |
| AgentCoreCaller.SleepsBounded | cli/agentcore_caller.py:471-527 | every sleep is the half-second permit wait or a backoff between 1 and 2.2 seconds; there is no backoff after attempt 3 |
| AgentCoreCaller.NoBackoffWithoutErrors | cli/agentcore_caller.py:486-498 | when every reply is text, failed parses and rejected records go on to the next attempt without any sleep |
| AgentCoreCaller.RetryResultValid | cli/agentcore_caller.py:491-495 | a result of the loop passed the validator and is tagged `source: "real"` |
| AgentCoreCaller.NonRetryableStopsAtOnce | cli/agentcore_caller.py:510-517 | a ValidationException or ResourceNotFoundException on attempt 1 ends the loop after one invocation, with the permit released and no sleep |
| AgentCoreCaller.ExhaustedAfterThreeTimeouts | cli/agentcore_caller.py:503-530 | three timeouts: three invocations, a backoff after the first two only, and no result |
| AgentCoreCaller.TimeoutsThenSuccess | cli/agentcore_caller.py:466-508 | two timeouts and then an acceptable answer: that answer tagged "real", after three invocations and two backoffs |
| AgentCoreCaller.ValidateConfig | cli/agentcore_caller.py:378-401 | true iff the agent id and alias are non-empty and the client exists |
| AgentCoreCaller.AnalyzeAlwaysValid | cli/agentcore_caller.py:403-453 | whatever happens, the returned record passes the validator and the cache keeps holding only records that do |
| AgentCoreCaller.CacheHitShortCircuits | cli/agentcore_caller.py:424-427 | a live, truthy cache entry is returned as stored (still tagged "real"), with no invocation and no change to breaker, cache or permits |
| AgentCoreCaller.NoCallWhenOpenOrMisconfigured | cli/agentcore_caller.py:430-437 | an open circuit or an invalid config gives the mock record with no invocation, no cache write and an unchanged failure counter |
| AgentCoreCaller.FreshCallSucceeds | cli/agentcore_caller.py:440-448 | when the loop returns an answer: that "real" record is returned, the breaker records a success (CLOSED) and the cache stores the record stamped with the clock reading taken after the attempts |
| AgentCoreCaller.FreshCallFails | cli/agentcore_caller.py:449-453 | when the loop returns nothing: the "mock" record is returned, the failure counter rises by 1 with the failure time read after the attempts, and nothing is cached |
| AgentCoreCaller.Caller.constructor | cli/agentcore_caller.py:347-362 | a new caller has a fresh CLOSED breaker, an empty cache, two free permits, and the config verdict |
| AgentCoreCaller.Caller.Attempt | cli/agentcore_caller.py:467-527 | one loop pass: the permit count ends where it started; a refused permit yields the refusal trace; otherwise the attempt is classified from the reply and its trace is acquire, invoke, release, then an optional backoff |
| AgentCoreCaller.Caller.AnalyzeWithRetries | cli/agentcore_caller.py:455-530 | the result and event trace are those of the attempt loop from attempt 1, and all permits are back afterwards |
| AgentCoreCaller.Caller.AnalyzeRepository | cli/agentcore_caller.py:403-453 | the returned record passes the validator, and the result, the new breaker/cache/permit state and the trace are those of the reference sequence `Analyze`, which reads the clock before the attempts for the lookup and circuit check and after them for the cache write or failure time |
| CallRateLimiter.RateLimiter.constructor | cli/rate_limiter.py:21-30 | a new limiter has an empty window and zero calls and tokens |
| CallRateLimiter.RateLimiter.WaitIfNeeded | cli/rate_limiter.py:32-48 | stale stamps are dropped first; a zero limit raises and records nothing; otherwise the window and the wait are those of `AfterWait`, the call count rises by 1, the tokens are unchanged, and the window stays within the limit |
| CallRateLimiter.RateLimiter.RecordTokens | cli/rate_limiter.py:50-56 | the token total rises by exactly the argument; window and call count are unchanged |
| CallRateLimiter.RateLimiter.Summary | cli/rate_limiter.py:58-74 | reports the call count, the token total and the limit as they are |
| CallRateLimiter.WindowBounded | cli/rate_limiter.py:28-47 | a zero limit always raises; after a call that goes ahead, the window is non-empty, within the limit, and ends with this call's stamp |
| CallRateLimiter.LimitReachedWaitsAndClears | cli/rate_limiter.py:41-47 | under the limit the stamp is appended with no wait; at the limit the wait is 60 minus the age of the oldest surviving stamp, at least 0, and the window restarts with this call alone |
| CallRateLimiter.ThreeCallsThenWait | cli/rate_limiter.py:32-48 | with a limit of 3, three calls in one instant go ahead without waiting; a fourth waits the full minute |
| SlidingWindow.Purge | cli/rate_limiter.py:38-39 | purging never lengthens the window |
| SlidingWindow.PurgeDropsStalePrefix | cli/rate_limiter.py:38-39 | exactly the longest stale prefix is dropped: the rest is a suffix, every dropped stamp is more than 60 s old, and the first kept one is not |
| SlidingWindow.RecentStampsKept | backend/guardrails.py:29-30 | a stamp within 60 s of `now` is never dropped |
| SlidingWindow.PurgeIdempotent | backend/guardrails.py:29-30 | purging twice at the same time drops nothing more |
| SlidingWindow.DropExpired | cli/rate_limiter.py:38-39 | the pop-from-the-front loop leaves exactly `Purge` of the window |
| Guardrails.Status | backend/guardrails.py:24-33 | 413 exactly for a too-large request and 429 exactly for a rate-limited one |
| Guardrails.SizeRefusal | backend/guardrails.py:21-24 | the size check only ever refuses a request as malformed (`int()` fails) or too large |
| Guardrails.GuardrailsMiddleware.constructor | backend/guardrails.py:12-16 | keeps the two limits and starts with no windows |
| Guardrails.GuardrailsMiddleware.Dispatch | backend/guardrails.py:18-38 | the decision and the new windows are those of the reference functions `Decide` and `WindowsAfter` |
| Guardrails.OversizeUntouched | backend/guardrails.py:21-24 | a declared size above the cap gets 413 and no window changes |
| Guardrails.RateDecision | backend/guardrails.py:26-35 | a request passes the rate check iff it passed the size check and the client's purged window is below the limit; a refusal (429) only purges the client's window; a forward appends `now` to it |
| Guardrails.DispatchKeepsBound | backend/guardrails.py:32-35 | no client's window grows past the limit |
| Guardrails.OtherClientsUntouched | backend/guardrails.py:27-35 | only the requesting client's window changes |
| Guardrails.ThirdRequestRefused | backend/guardrails.py:19-35 | with a limit of 2, a client's third request within a minute is refused, and a request without a client is counted under "unknown" |
| TimeoutHandler.RetryWithBackoff | cli/timeout_handler.py:93-118 | the loop's result, call count and sleeps are those of the reference `RetryFrom` from attempt 0 |
| TimeoutHandler.FirstSuccessWins | cli/timeout_handler.py:98-118 | the wrapper returns the first successful value after exactly the calls it took; it raises iff every one of the `max_retries` attempts raised, after that many calls |
| TimeoutHandler.DelaysBetweenAttempts | cli/timeout_handler.py:104-111 | there is one delay fewer than calls (none after the last), and delay k is `base_delay * 2^k` plus that attempt's jitter |
| TimeoutHandler.DelayBounds | cli/timeout_handler.py:106 | each delay lies in [`base_delay * 2^k`, `base_delay * 2^k + 0.5`] |
| TimeoutHandler.TwoFailuresThenSuccess | cli/timeout_handler.py:98-111 | two failures and then a success: the value, after three calls and two sleeps |
| TimeoutHandler.NoAttemptsNoCall | cli/timeout_handler.py:98-118 | with `max_retries <= 0` the function is never called and the wrapper raises |
| TimeoutHandler.WarnIfSlow | cli/timeout_handler.py:48-61 | the outcome (value or exception) passes through unchanged; the boolean result is the logged warning, which holds iff the call returned and took longer than the threshold |
| Validators.ShouldAnalyzeFileCases | cli/validators.py:73-79 | a file over 10 MiB and a file under `node_modules` are skipped; a small `.py` file is analysed; a `.md` file is not |
| Validators.ShouldAnalyzeFileExactly | cli/validators.py:73-79 | a file is analysed iff it is at most 10 MiB, no path component is a skipped directory, and its suffix is one of the seven source suffixes |
| Validators.ShouldAnalyzeFileMonotone | cli/validators.py:73-79 | a skipped file stays skipped when it grows or its path gains components; an analysed file stays analysed when it shrinks |
| Validators.SliceEnd | cli/validators.py:115 | Python's `s[:stop]` end index: `stop` itself when in range, `len + stop` for a negative one |
| Validators.SanitizeIsSafe | cli/validators.py:103-117 | the output never holds a null byte, `"""` or `'''`; the empty string stays empty |
| Validators.SanitizeLength | cli/validators.py:113-115 | for `max_length >= 3`, an over-long escaped text becomes its first `max_length - 3` characters plus `...`, exactly `max_length` long; shorter text is kept whole |
| Validators.ShortLimitOverflows | cli/validators.py:114-115 | for `max_length < 3`, the slice bound counts from the end and the output is longer than `max_length` |
| Validators.SanitizeUnchanged | cli/validators.py:103-117 | text within the limit with no null byte and no triple quote comes back unchanged |
| AgentCoreIntegration.Preview | backend/services/agentcore_integration.py:129 | `response[:100]` is a prefix of at most 100 characters, and the whole reply when it is that short |
| AgentCoreIntegration.ParseJsonResponse | backend/services/agentcore_integration.py:104-129 | a reply that parses gives its value; otherwise only the greedy `{...}` span is tried; the error arises iff neither parses (or there is no span) and quotes the first 100 characters |
| AgentCoreIntegration.ParseAgreesWithExtract | backend/services/agentcore_integration.py:116-129 | the backend parser and the command-line `_extract_json` (cli/agentcore_caller.py) accept the same replies and give the same value |
| AgentCoreIntegration.Wrapped | backend/services/agentcore_integration.py:54-74 | an answer comes back iff the client replied and the reply parsed; any failure becomes an integration error whose message is the prefix and the original message |
| AgentCoreIntegration.DetectPatterns | backend/services/agentcore_integration.py:42-74 | a client exception always becomes an error starting "Pattern detection failed: " |
| AgentCoreIntegration.AnalyzePreferences | backend/services/agentcore_integration.py:76-102 | a client exception always becomes an error starting "Preference analysis failed: " |
| AgentCoreIntegration.MockDispatchOrder | backend/services/agentcore_integration.py:172-189 | the mock client answers with the pattern payload iff the prompt holds "Pattern" or "pattern"; else the preference payload iff it holds "Preference" or "preference"; else the default |
| AgentCoreIntegration.BothWordsGivePatterns | backend/services/agentcore_integration.py:184-187 | a prompt naming both words gets the pattern payload, because that test comes first |
| AgentCoreIntegration.EntryJson | backend/services/agentcore_integration.py:195-212 | a pattern entry is a dict with exactly name, evidence, confidence and impact, holding the entry's values |
| AgentCoreIntegration.MockConfidencesInUnit | backend/services/agentcore_integration.py:191-214 | the mock pattern payload has three patterns, each with a confidence in [0, 1] |
| AgentCoreIntegration.MockScoresInUnit | backend/services/agentcore_integration.py:216-239 | the mock preference payload has three preferences, each with a score in [0, 1] |
| AgentCoreIntegration.MockDetectPatterns | backend/services/agentcore_integration.py:42-70 | with the mock client, detecting patterns on a prompt that mentions patterns returns the mock pattern payload |
| PatternDetector.CountUsing | backend/services/pattern_detector.py:99-124 | the number of projects naming one of the technologies is at most the number of projects |
| PatternDetector.CountUsingPositive | backend/services/pattern_detector.py:99-104 | that count is positive iff some project names one of the technologies |
| PatternDetector.Scores | backend/services/pattern_detector.py:88-93 | one complexity per project |
| PatternDetector.SetOf | backend/services/pattern_detector.py:94 | `set(xs)` holds one element per item of `xs`, with `True` and `1` (and `False` and `0`) as one element |
| PatternDetector.GatherOne | backend/services/pattern_detector.py:90-94 | gathering one more project appends its score and adds its technologies |
| PatternDetector.Rules | backend/services/pattern_detector.py:133-142 | "Rapid Learning" fires only when the first score is positive and the last is more than twice it |
| PatternDetector.RuleNamesDistinct | backend/services/pattern_detector.py:105-151 | different rules report different names |
| PatternDetector.Confidence | backend/services/pattern_detector.py:108-149 | every rule's confidence lies in [0, 1] |
| PatternDetector.RuleEntry | backend/services/pattern_detector.py:105-151 | a rule's entry carries its name and a confidence in [0, 1] |
| PatternDetector.FallbackPatternDetection | backend/services/pattern_detector.py:71-157 | the `TypeError` of `set.update` is raised exactly when some technology of some project is a list or a dictionary; otherwise the nested gathering loops and the rules produce exactly the reference report `FallbackResult` of all projects |
| PatternDetector.ExactlyOneDatabasePattern | backend/services/pattern_detector.py:98-117 | exactly one of "Database Usage" and "Database Avoidance" is reported, first, and it is "Database Usage" iff some project names a database |
| PatternDetector.RuleConditions | backend/services/pattern_detector.py:119-151 | "Async-First Thinking" iff at least 2 projects name an async framework; "Rapid Learning" iff the scores grow more than twofold; "Generalist Approach" iff at least 4 distinct technologies |
| PatternDetector.FallbackCountsProjects | backend/services/pattern_detector.py:153-157 | `data_points` is the number of projects and `fallback` is true |
| PatternDetector.ValidatePatterns | backend/services/pattern_detector.py:168-172 | a non-dict and a dict without "patterns" are refused with their messages |
| PatternDetector.CheckPatternsPassed | backend/services/pattern_detector.py:178-184 | the loop passes iff every pattern has name, evidence and a confidence in [0, 1] |
| PatternDetector.ValidatePatternsExactly | backend/services/pattern_detector.py:159-187 | validation passes iff the value is a dict whose "patterns" is a list of well-formed patterns |
| PatternDetector.ConfidenceBoundary | backend/services/pattern_detector.py:183-184 | confidence 1 passes and 1.5 is refused |
| PatternDetector.EntryOk | backend/services/pattern_detector.py:179-184 | an entry with a confidence in [0, 1] is a well-formed pattern |
| PatternDetector.RuleEntriesOk | backend/services/pattern_detector.py:96-151 | every entry the rules report is a well-formed pattern |
| PatternDetector.ReportValidates | backend/services/pattern_detector.py:153-157 | whatever was gathered, the report passes `validate_patterns` |
| PatternDetector.FallbackValidates | backend/services/pattern_detector.py:71-157 | the fallback's output always passes `validate_patterns` |
| PatternDetector.MockPayloadValidates | backend/services/agentcore_integration.py:191-214 | the mock client's pattern payload passes `validate_patterns` |
| PatternDetector.DetectPatterns | backend/services/pattern_detector.py:42-55 | an empty list is refused (iff), before the oracle; a usable oracle answer is returned as it came; any other answer, an integration error included, gives the fallback report, or the fallback's `TypeError` when some technology is a list or a dictionary |
| PatternDetector.DetectPatternsNeverRaisesOnData | backend/services/pattern_detector.py:47-55 | for a non-empty list whose technologies can all go in a set, an unusable oracle answer still yields a result that passes `validate_patterns` |
| PatternDetector.ListTechnologyRaises | backend/services/pattern_detector.py:90-94 | a project listing a list among its technologies makes `detect_patterns` raise when the oracle fails |
| PatternDetector.TrueIsOneTechnology | backend/services/pattern_detector.py:94 | `True`, `1.0` and `"Go"` count as two distinct technologies |
| RecommendationEngine.HasPatternExactly | backend/services/recommendation_engine.py:156-169 | over patterns with readable names, `_has_pattern` holds iff the lower-cased keyword occurs in some lower-cased name |
| RecommendationEngine.ImpactOfFirstMatch | backend/services/recommendation_engine.py:171-184 | `_get_pattern_impact` is the truthiness of the `impact` of the first pattern whose name matches |
| RecommendationEngine.NoMatchNoImpact | backend/services/recommendation_engine.py:181-184 | without a matching name the impact lookup is false |
| RecommendationEngine.EventDrivenOf | backend/services/recommendation_engine.py:68-82 | when rule 2 fires, the recommendation it makes quotes a growth rate above 2 |
| RecommendationEngine.Appended | backend/services/recommendation_engine.py:49-113 | the PostgreSQL item is there iff rule 1 fired, the event-driven item iff rule 2 fired, the specialization item iff rule 4 fired, and the leadership item always |
| RecommendationEngine.CreateRecommendation | backend/services/recommendation_engine.py:122-154 | the record has exactly the seven keys, with the given skill, status and evidence and the confidence rounded to two decimals |
| RecommendationEngine.RoundKeepsCents | backend/services/recommendation_engine.py:149 | rounding to two decimals keeps a value that already has at most two |
| RecommendationEngine.Cents | backend/services/recommendation_engine.py:56-104 | each rule's confidence (in hundredths) is at most 1 |
| RecommendationEngine.EvidenceOf | backend/services/recommendation_engine.py:58-110 | every recommendation quotes three evidence lines |
| RecommendationEngine.AdviceJsonShape | backend/services/recommendation_engine.py:53-154 | each recommendation is a dict with the seven keys, its rule's skill and status, its confidence exactly, and three evidence lines |
| RecommendationEngine.AppendIfFired | backend/services/recommendation_engine.py:50-113 | one `if rule: append(...)` step extends the list by the rule's record exactly when the rule fired |
| RecommendationEngine.InOrder | backend/services/recommendation_engine.py:49-113 | the four append steps, in source order, build the list `Appended` |
| RecommendationEngine.RuleOutcomes | backend/services/recommendation_engine.py:46-120 | with truthy inputs: a rule that raises on malformed input makes generation fail; otherwise the result is the list of the rules that fired |
| RecommendationEngine.AppendRecommendations | backend/services/recommendation_engine.py:47-113 | the append sequence produces the records of `Appended`, in order |
| RecommendationEngine.GenerateRecommendations | backend/services/recommendation_engine.py:22-120 | the result is that of the reference `Generate` |
| RecommendationEngine.MissingInputsExactly | backend/services/recommendation_engine.py:41-42 | generation is refused for missing inputs iff one of the three inputs is falsy |
| RecommendationEngine.LeadershipAlwaysIncluded | backend/services/recommendation_engine.py:84-97 | whenever the rules can be evaluated, "Team Leadership / Mentoring" is included with status `not_yet` |
| RecommendationEngine.EventDrivenExactly | backend/services/recommendation_engine.py:67-82 | the event-driven item appears iff the growth rate is above 2 and the trend is "accelerating" or "steady", and it then quotes that rate and trend |
| RecommendationEngine.ValidateRecommendations | backend/services/recommendation_engine.py:220-224 | a non-dict and a dict without "recommendations" are refused with their messages |
| RecommendationEngine.CheckRecommendationsPassed | backend/services/recommendation_engine.py:230-239 | the loop passes iff every item has skill, status, confidence and reasoning, a known status and a confidence in [0, 1] |
| RecommendationEngine.ValidateRecommendationsExactly | backend/services/recommendation_engine.py:211-241 | validation passes iff the value is a dict whose "recommendations" is a list of well-formed items |
| RecommendationEngine.AdviceOk | backend/services/recommendation_engine.py:53-113 | every recommendation the engine makes is well formed (known status, confidence in [0, 1]) |
| RecommendationEngine.GeneratedValidates | backend/services/recommendation_engine.py:22-241 | whatever `generate_recommendations` returns passes `validate_recommendations` |
| StoredAnalysis.AllProjects | backend/services/__init__.py:86-87 | no analyses, no projects |
| StoredAnalysis.AllProjectsCount | backend/services/pattern_detector.py:90-92 | flattening the projects of all analyses yields as many projects as they hold together |
| StoredAnalysis.NextProject | backend/services/pattern_detector.py:91-92 | taking one more project of the current analysis appends it to the projects seen so far |
| StoredAnalysis.NextAnalysis | backend/services/pattern_detector.py:90-92 | finishing an analysis leaves exactly the projects of the analyses so far |
| Services.GetLatestAnalysis | backend/services/__init__.py:39-54 | the latest analysis is returned iff it exists and is non-empty (truthy); otherwise `NotFoundError("No analyses found")`, whose message is "No analyses found not found" because `NotFoundError` appends " not found" (exceptions.py:213-214) |
| Services.PairsNext | backend/services/__init__.py:86-87 | finishing an analysis appends the (analysis, project) pairs of its projects |
| Services.PairNext | backend/services/__init__.py:87 | one more project appends one pair |
| Services.PairsFollowProjects | backend/services/__init__.py:86-87 | the pairs list every project of every analysis in order, each with the analysis it belongs to |
| Services.AppendProjectPoints | backend/services/__init__.py:87-94 | the inner loop appends one point per project of the analysis, in order |
| Services.ForEachProject | backend/services/__init__.py:86-94 | the nested loops produce one point per (analysis, project) pair, in input order |
| Services.TimelinePoint | backend/services/__init__.py:88-93 | a point has exactly date, project_name, complexity and skills, with the defaults "unknown", "unknown", 0 and [] |
| Services.GetTimeline | backend/services/__init__.py:75-97 | the timeline is one `TimelinePoint` per pair, in order |
| Services.TimelineOnePointPerProject | backend/services.py:70-92 | the timeline has exactly one point per project of every analysis, in input order, each built from that project and its own analysis |
| Services.DistinctMembers | backend/services/__init__.py:121-126 | the keys of the skills dict are exactly the technologies seen |
| Services.DistinctNoRepeats | backend/services/__init__.py:121 | no technology becomes a key twice |
| Services.FirstIndex | backend/services/__init__.py:121 | the position where a technology is first seen |
| Services.DistinctInFirstSeenOrder | backend/services/__init__.py:119-129 | the keys come in the order their technologies are first seen (dict insertion order) |
| Services.NamesForExactly | backend/services/__init__.py:127 | a project name is listed under a technology iff that project lists it, once per listing |
| Services.NamesForUnseen | backend/services/__init__.py:121-126 | a technology not seen yet has no names |
| Services.SkillJson | backend/services/__init__.py:122-127 | an entry has exactly name, confidence 0.8 and the list of project names |
| Services.TableOrder | backend/services/__init__.py:119-126 | the insertion order of the dict is the distinct technologies in first-seen order, and its keys are exactly those technologies |
| Services.TableNames | backend/services/__init__.py:127 | under each key the dict lists the names paired with it |
| Services.TableLists | backend/services/__init__.py:119-127 | every key in insertion order has its list of names |
| Services.InsertAllTable | backend/services/__init__.py:120-127 | the inner loop over one project's technologies inserts exactly its (technology, name) pairs |
| Services.GroupAllTable | backend/services/__init__.py:119-127 | the nested loops insert exactly all (technology, name) pairs of the latest analysis |
| Services.GroupTechnologies | backend/services/__init__.py:120-127 | the inner loop completes iff every technology can be a dict key, and then its table is the reference insertion |
| Services.GroupByTechnology | backend/services/__init__.py:119-127 | the outer loop completes iff all technologies can be dict keys, and then its table is the reference grouping |
| Services.SkillValues | backend/services/__init__.py:129 | `list(skills.values())` is one entry per key, in insertion order |
| Services.GetSkills | backend/services/__init__.py:108-131 | the result is that of the reference function `Skills` |
| Services.SkillsExactly | backend/services.py:103-126 | `get_skills` names every technology of the latest analysis exactly once, in first-seen order, with confidence 0.8 and the names of the projects that list it, once per listing |
| Services.FirstMatch | backend/services/__init__.py:190-191 | the index of the first project whose name matches ignoring case, or the list's length when none does |
| Services.FirstMatchAt | backend/services/__init__.py:190-205 | a loop that stops at the first match, or runs out, finds that index |
| Services.BreakdownJson | backend/services/__init__.py:192-203 | the breakdown has the seven keys, the project's name (None when absent), its score and four component scores of 0.0 |
| Services.GetComplexityBreakdown | backend/services/__init__.py:171-207 | the result is that of the reference function `ComplexityBreakdown` |
| Services.BreakdownExactly | backend/services.py:166-202 | a breakdown is found iff the latest analysis has a project with that name ignoring case, and it is the first such project's; otherwise the message is "No analyses available to find project X not found" without analyses, or "Project X not found not found" without a match, since `NotFoundError` appends " not found" (exceptions.py:213-214) |
| Services.CountedExactly | backend/services/__init__.py:353-355 | exactly the non-blank strings are counted, each by its number of occurrences |
| Services.TechsOfSnoc | backend/services/__init__.py:351-353 | one more project appends its technologies |
| Services.CountedNext | backend/services/__init__.py:353-355 | counting one more technology updates the counts as the loop body does |
| Services.CountTechnologies | backend/services/__init__.py:353-355 | the innermost loop adds the counts of one project's technologies |
| Services.ExtractAmazonQTechnologies | backend/services/__init__.py:331-358 | the nested loops give the counts of all technologies of all projects |
| Services.TechnologyCounts | backend/services/__init__.py:346-358 | each non-blank string technology maps to the number of times it is listed over all projects; nothing else is a key |
| Services.PayloadProject | backend/services/__init__.py:403-408 | a payload project has exactly name, complexity_score, skills and timestamp, with "unknown" and 0 as defaults |
| Services.InvokeAgentCoreWithFallback | backend/services/__init__.py:364-459 | the result is that of the reference function `InvokeWithFallback` |
| Services.AgentCoreAvailableExactly | backend/services/__init__.py:422-459 | `agentcore_available` is true iff AgentCore answered with a dict; otherwise the local patterns and recommendations are used; the engine's error escapes iff AgentCore failed and the engine refused |
| Services.CallerFailureFallsBack | backend/services/__init__.py:441-459 | a raised or unparsable AgentCore reply selects the fallback, with the caller's message as the reason |
| Services.FallbackRecommendationsValidate | backend/services/__init__.py:445-459 | in the fallback, the local recommendations pass `validate_recommendations` |
| Services.FallbackKeepsRecommendations | backend/services/__init__.py:450-459 | the fallback carries the local recommendations unchanged |
| AmazonQClient.AtLeastOne | cli/aws_q_client.py:305-306 | the divisor `max(functions, 1)` is positive and no smaller than the function count |
| AmazonQClient.EstimateSkillLevel | cli/aws_q_client.py:294-316 | the estimate is always one of "beginner", "intermediate", "advanced" |
| AmazonQClient.RatiosInIntegers | cli/aws_q_client.py:305-311 | the two ratio tests (classes per function over 0.3, lines per function under 30) are the whole-number comparisons 10·classes > 3·max(functions,1) and lines < 30·max(functions,1) |
| AmazonQClient.SkillLevelExactly | cli/aws_q_client.py:303-316 | an empty repository is a beginner's; otherwise "advanced" iff more than 3 classes per 10 functions and fewer than 30 lines per function, "intermediate" iff not advanced and over 5000 lines or over 50 functions, "beginner" otherwise |
| AmazonQClient.Capped | cli/aws_q_client.py:331-334 | each capped term is at most both its cap and the raw term, and equals one of them |
| AmazonQClient.ComplexityFromMetrics | cli/aws_q_client.py:318-337 | an empty repository scores 3; every score lies in [1, 10] |
| AmazonQClient.ComplexityCapNeverBinds | cli/aws_q_client.py:327-337 | the four capped terms add up to at most 10, so the upper clamp never changes the score: it is the truncated total raised to 1 |
| AmazonQClient.ComplexityMonotone | cli/aws_q_client.py:327-337 | a non-empty repository with no fewer files, functions, classes and lines never scores lower |
| AmazonQClient.DetectPatterns | cli/aws_q_client.py:339-364 | the list is never empty; each of the four labels is present iff its rule fires (Async/Await technology; Bedrock or AgentCore; over 10 classes; over 50 functions); "Clean code practices" is present iff no rule fires; labels appear in rule order without repeats, and no string other than the five labels ever appears |
| AmazonQClient.RuleLabelsMembers | cli/aws_q_client.py:339-364 | the label list is non-empty, each rule's label is present iff its rule fires, and "Clean code practices" iff none does |
| AmazonQClient.RuleLabelsRanked | cli/aws_q_client.py:339-364 | the labels are strictly in rule order and are only the five known labels |
| AmazonQClient.RenderMock | cli/aws_q_client.py:418-426 | the canned dictionary is marked `source: "mock"` and its `repo_metrics.name` is the repository name |
| AmazonQClient.FirstMatching | cli/aws_q_client.py:414-416 | the index found is that of the first entry whose key and the name contain one another ignoring case, no earlier entry matches, and it is past the table iff none matches |
| AmazonQClient.LookupFirstMatch | cli/aws_q_client.py:374-426 | when some key matches, the first matching entry's analysis is used; the default analysis is used only when no key matches |
| AmazonQClient.GetMockAnalysis | cli/aws_q_client.py:367-426 | every canned analysis is a dictionary marked `source: "mock"` |
| AmazonQClient.EmptyNameMatchesFirstEntry | cli/aws_q_client.py:414-416 | an empty base name is contained in every key, so the first table entry is returned |
| AmazonQClient.RetryLoop | cli/aws_q_client.py:73-115 | the loop's result, call count, waits and last error are those of the attempt-by-attempt definition from attempt 1, with the canned analysis after the last failure |
| AmazonQClient.AnalyzeRepository | cli/aws_q_client.py:54-115 | the run is the one `analyze_repository` defines: canned analysis in mock mode or without a client, otherwise rate limiting followed by the retry loop |
| AmazonQClient.MockModeSkipsService | cli/aws_q_client.py:66-68 | in mock mode or without a client the canned analysis is returned with no rate limiting, no call and no sleep |
| AmazonQClient.FirstSuccessOrMock | cli/aws_q_client.py:75-115 | the rate limiter is consulted; at most `max_retries` calls are made; if some attempt succeeds, the first success's result is returned after exactly the calls up to it, all earlier ones having failed; if every attempt fails, the canned analysis is returned after all of them |
| AmazonQClient.WaitsBetweenAttempts | cli/aws_q_client.py:85-111 | every failure but the last attempt's is followed by a sleep: one fewer sleep than calls, the i-th lasting `backoff ** (i)` counted from attempt 1 |
| Analyzer.Run | cli/analyzer.py:96-153 | the result is the one `run` defines: projects and error entries in repository order, average complexity rounded to 2 places, project count and growth rate; `AnalysisError("batch_analysis", ...)` when no project succeeded |
| Analyzer.RunPartition | cli/analyzer.py:111-132 | every repository lands in exactly one list: the counts add up, a project is listed iff some repository's analysis returned it, an error entry iff that repository's analysis raised that message |
| Analyzer.RunRaisesIffAllFailed | cli/analyzer.py:134-150 | `run` raises iff every repository failed (in particular for none); otherwise `total_projects` is the number of projects and, with the errors, accounts for every repository |
| Analyzer.RunTwoRepos | cli/analyzer.py:140-148 | two repositories scoring 6.0 and 8.0 give average 7.0, growth 33.3 and no errors |
| Analyzer.GrowthRateExamples | cli/analyzer.py:399-410 | scores 5.0, 7.5, 10.0 grow by 100.0; a single project grows by 0.0 |
| Analyzer.GrowthRateSign | cli/analyzer.py:399-410 | with a positive first score the growth rate is non-negative when the last score is no lower and non-positive when it is no higher |
| Analyzer.MaxNestingDepth | cli/analyzer.py:327-341 | the depth returned is the starting depth plus the height of the tree below the node |
| Analyzer.HeightIsTallestChild | cli/analyzer.py:337-341 | the height is 0 for a leaf, otherwise one more than the tallest child's: no child is higher and some child attains it |
| Analyzer.NestedChainDepth | cli/analyzer.py:327-341 | three nested nodes give a depth of 2 below the root |
| Analyzer.AllTechsSorted | cli/analyzer.py:361-387 | the technology names the detector can produce, listed in one order, are strictly sorted |
| Analyzer.Keep | cli/analyzer.py:387 | keeping the elements of a list that are in a set yields exactly the set's members found in the list |
| Analyzer.KeepSorted | cli/analyzer.py:387 | keeping elements of a strictly sorted list keeps it strictly sorted |
| Analyzer.SortedUnique | cli/analyzer.py:387 | two strictly sorted lists with the same members are equal, so `sorted(list(techs))` is determined by the set |
| Analyzer.MatchKeywords | cli/analyzer.py:373-375 | the technologies collected are exactly those whose keyword occurs in the content, over the whole keyword table |
| Analyzer.DetectTechnologies | cli/analyzer.py:344-387 | `["Python"]` when nothing is detected; otherwise a strictly sorted list holding exactly the detected technologies |
| Analyzer.DetectedInOrder | cli/analyzer.py:387 | keeping the detected set in the fixed technology order gives a strictly sorted list with the same members |
| Analyzer.KeywordTechsAmongAllTechs | cli/analyzer.py:361-375 | every technology a keyword yields is among the known technology names |
| Analyzer.DetectedAmongAllTechs | cli/analyzer.py:353-385 | every detected technology is among the known technology names |
| Analyzer.KeywordTechsExactly | cli/analyzer.py:373-375 | a technology is collected iff one of its keywords occurs in the content |
| Analyzer.DetectedExactly | cli/analyzer.py:353-385 | a technology is detected iff one of its keywords occurs in the lower-cased requirements file, or it is Node.js/TypeScript and `package.json` exists, or it is Go and a `.go` file exists |

## Left out

- Network and SDK transport are foreign calls with no logic of their own: `_init_client`, `_call_agentcore` and its stream decoding (cli/agentcore_caller.py), `BedrockAgentCoreClient` (backend/services/agentcore_integration.py), `_analyze_with_q` (cli/aws_q_client.py) and `backend/agent.py`. Their replies are oracle parameters.
- Concurrency: every section the code runs under a `threading.Lock` is one atomic step. The semaphore's `acquire(timeout=0.1)` is a non-blocking check of a counter, since no other holder runs during the wait in a sequential model.
- Clocks, sleeps and randomness (`time.time`, `datetime.now`, `time.sleep`, `random.uniform`) become timestamps, reported waits and jitter draws passed in as parameters.
- SHA-256, `Path.resolve`, `Path.name`, `json.loads`, `json.dumps` and `format(x, '.1f')` are library behaviour. They are the abstract parameters `keyOf`, `baseName`, `parse` and `format1`.
- File-system and Git I/O: `cli/storage.py`, `validate_repo` (cli/validators.py), `_gather_repo_info` and the file reads of the Amazon Q client's `_detect_technologies` (cli/aws_q_client.py), `analyze_repo` and `_calculate_complexity` (cli/analyzer.py). `run` takes the outcome of `analyze_repo` for each path as an oracle. `_detect_technologies` of cli/analyzer.py takes the requirements text and whether `package.json` and `.go` files exist as values. `should_analyze_file` takes the size, path parts and suffix as values.
- `backend/services/trajectory_analyzer.py` and `backend/services/preference_analyzer.py` are left out. Their results are float-ratio heuristics, and the only properties they would give are trivial clamps.
- Prompt text is left out: `_build_prompt` (cli/agentcore_caller.py) and `backend/services/development_signature_prompts.py`. The prompt handed to the mock client is an input.
- `generate_development_signature`, `get_all_analyses`, `get_analysis_count` and `get_growth_metrics` (backend/services/__init__.py) are not modelled. The first chains the modelled pieces with the trajectory and preference analyzers, which are left out. The others only forward a storage read, or copy three keys of the latest analysis with defaults.
- UI, server, CLI and configuration plumbing is left out: `backend/server.py`, `cli/main.py`, the start-up scripts, the loggers, `config.py`, `exceptions.py` and `backend/models.py`. Configuration constants (mock mode, retry counts, backoff, thresholds) are parameters.
- Logging is left out, except the warning of `warn_if_slow`, which is that decorator's only effect and is the boolean of `TimeoutHandler.WarnIfSlow`. The log-injection escaping of paths and messages, which only affects log lines, is left out too.
- Lower-casing is ASCII-only (`Text.Lower`). Unicode case mapping is not modelled.
- Numbers are exact reals, not binary floats. `round(x, n)` rounds half to even on the exact value, so ties that a float representation would break differently are not modelled.
- Services.GetSkills: a technology `True` and a technology `1` (or `False` and `0`) are two entries of the skills table. The Python dictionary merges them into one entry, under the first of them. The pattern detector's technology set does merge them (`PatternDetector.SetElement`).
- StoredAnalysis.Project: stored fields are typed options (a key is either absent or holds a value of the type the analyzer writes, cli/analyzer.py:217-222), so a key present with `null` or a wrongly typed value is not modelled. This affects `PatternDetector.FallbackPatternDetection`, `PatternDetector.DetectPatterns`, `PatternDetector.DetectPatternsNeverRaisesOnData`, `Services.GetTimeline`, `Services.GetSkills`, `Services.GetComplexityBreakdown` and `Services.InvokeAgentCoreWithFallback`. Not modelled: the `TypeError` of a `null` or string `complexity_score` compared with `0`, of `"projects": null` iterated, and the `AttributeError` of `"name": null` lower-cased; a `null` name reported as `None` rather than "unknown"; a string `technologies` iterated by character and searched as a substring. `DetectPatternsNeverRaisesOnData` holds on the typed domain only.
- `Services.ExtractAmazonQTechnologies`: the `except` path that returns `{}` is not modelled. Stored analyses are typed records, so the loop cannot raise.
- Services.ExtractAmazonQTechnologies: the counts are a map, so the order in which the returned dictionary first met each technology is not modelled. The keys and counts are.
- `Analyzer.Run`: each analysed project is a typed record with a name and a complexity score, as `analyze_repo` always supplies. The `KeyError` that a record missing them would raise is not modelled.
- `AmazonQClient.AnalyzeRepository`: the rate limiter's `wait_if_needed` is reported as a flag. Its effect on the limiter is modelled by `CallRateLimiter.RateLimiter.WaitIfNeeded`.
- The tests in tests/test_analyzer.py that call `AmazonQClient.analyze_with_cli` and `parse_natural_language` are left out. Those methods do not exist in the client.
