/** The command-line Amazon Q client: a retry loop around the service call
    that falls back to a canned analysis, and the metric heuristics it
    applies to a repository's counts. The service call itself is an oracle
    `call` from the attempt number (1-based, as in the source's `range`) to
    what `_analyze_with_q` returned or raised; sleeping is reported as the
    sequence of waits, and the rate limiter's wait as a flag. */
module AmazonQClient {
  import opened Json
  import opened Text
  import opened Numeric
  import Sequences

  // ---------------------------------------------------------------------
  // Metric heuristics
  // ---------------------------------------------------------------------

  /** The counts `_gather_repo_info` reports for a repository. */
  datatype RepoInfo = RepoInfo(pythonFiles: nat, totalLines: nat, functions: nat, classes: nat)

  /** `max(n, 1)`. */
  function AtLeastOne(n: nat): (r: nat)
    ensures r >= 1 && r >= n
  {
    if n > 1 then n else 1
  }

  const Beginner: string := "beginner"
  const Intermediate: string := "intermediate"
  const Advanced: string := "advanced"

  /** `_estimate_skill_level`: lines per function and classes per function,
      both over `max(functions, 1)`, decide between the three levels. */
  function EstimateSkillLevel(info: RepoInfo): (r: string)
    ensures r == Beginner || r == Intermediate || r == Advanced
  {
    if info.totalLines == 0 then Beginner
    else
      var per := AtLeastOne(info.functions) as real;
      var avgFunctionLength := info.totalLines as real / per;
      var classRatio := info.classes as real / per;
      if classRatio > 0.3 && avgFunctionLength < 30.0 then Advanced
      else if info.totalLines > 5000 || info.functions > 50 then Intermediate
      else Beginner
  }

  /** Comparing a quotient with a bound is comparing the dividend with the
      bound times the (positive) divisor. */
  lemma QuotientCompare(x: real, per: real, bound: real)
    requires per > 0.0
    ensures x / per > bound <==> x > bound * per
    ensures x / per < bound <==> x < bound * per
  {
    var q := x / per;
    assert x == q * per;
    if q > bound {
      assert q * per > bound * per;
    }
    if q < bound {
      assert q * per < bound * per;
    }
    if q == bound {
      assert x == bound * per;
    }
  }

  /** The two ratios of `_estimate_skill_level`, in whole numbers. */
  lemma RatiosInIntegers(info: RepoInfo)
    ensures var per := AtLeastOne(info.functions);
            (info.classes as real / per as real > 0.3 <==> 10 * info.classes > 3 * per) &&
            (info.totalLines as real / per as real < 30.0 <==> info.totalLines < 30 * per)
  {
    var per := AtLeastOne(info.functions) as real;
    QuotientCompare(info.classes as real, per, 0.3);
    QuotientCompare(info.totalLines as real, per, 30.0);
  }

  /** An empty repository is a beginner's; otherwise "advanced" exactly
      when there are more than 3 classes per 10 functions and fewer than 30
      lines per function, and "intermediate" exactly when it is not
      advanced but has over 5000 lines or over 50 functions. */
  lemma SkillLevelExactly(info: RepoInfo)
    ensures var per := AtLeastOne(info.functions);
            var advanced := info.totalLines > 0 && 10 * info.classes > 3 * per && info.totalLines < 30 * per;
            (info.totalLines == 0 ==> EstimateSkillLevel(info) == Beginner) &&
            (EstimateSkillLevel(info) == Advanced <==> advanced) &&
            (EstimateSkillLevel(info) == Intermediate <==>
               !advanced && info.totalLines > 0 && (info.totalLines > 5000 || info.functions > 50))
  {
    RatiosInIntegers(info);
  }

  /** `min(cap, x)` on reals. */
  function Capped(cap: real, x: real): (r: real)
    ensures r <= cap && r <= x && (r == cap || r == x)
  {
    if x < cap then x else cap
  }

  /** The sum of the four capped metric scores: files (at most 3),
      functions (at most 4), classes (at most 2) and lines (at most 1). */
  function MetricsTotal(info: RepoInfo): real {
    Capped(3.0, info.pythonFiles as real / 20.0) + Capped(4.0, info.functions as real / 50.0) +
    Capped(2.0, info.classes as real / 10.0) + Capped(1.0, info.totalLines as real / 10000.0)
  }

  /** `_calculate_complexity_from_metrics`: 3 for an empty repository,
      otherwise the truncated total clamped to [1, 10]. */
  function ComplexityFromMetrics(info: RepoInfo): (r: int)
    ensures info.totalLines == 0 ==> r == 3
    ensures 1 <= r <= 10
  {
    if info.totalLines == 0 then 3
    else
      var truncated := MetricsTotal(info).Floor;
      var atLeastOne := if truncated > 1 then truncated else 1;
      if atLeastOne < 10 then atLeastOne else 10
  }

  /** The upper clamp never binds: the four caps already add up to 10, so
      the score is the truncated total, raised to 1. */
  lemma ComplexityCapNeverBinds(info: RepoInfo)
    requires info.totalLines > 0
    ensures 0.0 <= MetricsTotal(info) <= 10.0
    ensures ComplexityFromMetrics(info) == if MetricsTotal(info).Floor > 1 then MetricsTotal(info).Floor else 1
  {
  }

  /** A repository with at least as many files, functions, classes and
      lines never scores a lower complexity. */
  lemma ComplexityMonotone(a: RepoInfo, b: RepoInfo)
    requires 0 < a.totalLines <= b.totalLines
    requires a.pythonFiles <= b.pythonFiles && a.functions <= b.functions && a.classes <= b.classes
    ensures ComplexityFromMetrics(a) <= ComplexityFromMetrics(b)
  {
    assert MetricsTotal(a) <= MetricsTotal(b);
  }

  /** The labels `_detect_patterns` can report, in the order it checks them. */
  const AsyncFirst: string := "Async-first development"
  const AiPowered: string := "AI-powered architecture"
  const ObjectOriented: string := "Object-oriented design"
  const Decomposed: string := "Functional decomposition"
  const CleanCode: string := "Clean code practices"

  /** The position of a label in that order; 5 for any string that is not
      one of the five labels. */
  function Rank(pattern: string): nat {
    if pattern == AsyncFirst then 0
    else if pattern == AiPowered then 1
    else if pattern == ObjectOriented then 2
    else if pattern == Decomposed then 3
    else if pattern == CleanCode then 4
    else 5
  }

  /** The labels of the rules that fire, in rule order, or the clean-code
      label alone when none does. */
  function RuleLabels(info: RepoInfo, technologies: seq<string>): seq<string> {
    var fired := (if "Async/Await" in technologies then [AsyncFirst] else []) +
                 (if "AWS Bedrock" in technologies || "AgentCore" in technologies then [AiPowered] else []) +
                 (if info.classes > 10 then [ObjectOriented] else []) +
                 (if info.functions > 50 then [Decomposed] else []);
    if fired == [] then [CleanCode] else fired
  }

  lemma RuleLabelsMembers(info: RepoInfo, technologies: seq<string>)
    ensures var patterns := RuleLabels(info, technologies);
      && patterns != []
      && (AsyncFirst in patterns <==> "Async/Await" in technologies)
      && (AiPowered in patterns <==> "AWS Bedrock" in technologies || "AgentCore" in technologies)
      && (ObjectOriented in patterns <==> info.classes > 10)
      && (Decomposed in patterns <==> info.functions > 50)
      && (CleanCode in patterns <==>
           !("Async/Await" in technologies || "AWS Bedrock" in technologies || "AgentCore" in technologies ||
             info.classes > 10 || info.functions > 50))
  {
  }

  lemma RuleLabelsRanked(info: RepoInfo, technologies: seq<string>)
    ensures var patterns := RuleLabels(info, technologies);
      && (forall i, j :: 0 <= i < j < |patterns| ==> Rank(patterns[i]) < Rank(patterns[j]))
      && (forall i :: 0 <= i < |patterns| ==> Rank(patterns[i]) < 5)
  {
    assert Rank(AsyncFirst) == 0 && Rank(AiPowered) == 1 && Rank(ObjectOriented) == 2 &&
           Rank(Decomposed) == 3 && Rank(CleanCode) == 4;
  }

  /** `_detect_patterns`: one label per rule that fires, in rule order, or
      the clean-code label alone when none does, and no other string. */
  method DetectPatterns(info: RepoInfo, technologies: seq<string>) returns (patterns: seq<string>)
    ensures patterns != []
    ensures AsyncFirst in patterns <==> "Async/Await" in technologies
    ensures AiPowered in patterns <==> "AWS Bedrock" in technologies || "AgentCore" in technologies
    ensures ObjectOriented in patterns <==> info.classes > 10
    ensures Decomposed in patterns <==> info.functions > 50
    ensures CleanCode in patterns <==>
      !("Async/Await" in technologies || "AWS Bedrock" in technologies || "AgentCore" in technologies ||
        info.classes > 10 || info.functions > 50)
    ensures forall i, j :: 0 <= i < j < |patterns| ==> Rank(patterns[i]) < Rank(patterns[j])
    ensures forall i :: 0 <= i < |patterns| ==> Rank(patterns[i]) < 5
  {
    patterns := [];
    if "Async/Await" in technologies {
      patterns := patterns + [AsyncFirst];
    }
    if "AWS Bedrock" in technologies || "AgentCore" in technologies {
      patterns := patterns + [AiPowered];
    }
    if info.classes > 10 {
      patterns := patterns + [ObjectOriented];
    }
    if info.functions > 50 {
      patterns := patterns + [Decomposed];
    }
    if patterns == [] {
      patterns := [CleanCode];
    }
    assert patterns == RuleLabels(info, technologies);
    RuleLabelsMembers(info, technologies);
    RuleLabelsRanked(info, technologies);
  }

  // ---------------------------------------------------------------------
  // _get_mock_analysis
  // ---------------------------------------------------------------------

  /** One canned analysis. */
  datatype MockEntry = MockEntry(skillLevel: string, technologies: seq<string>, complexity: nat,
                                 patterns: seq<string>, pythonFiles: nat, totalLines: nat)

  /** The canned analyses, keyed by repository name, in table order. */
  const MockTable: seq<(string, MockEntry)> := [
    ("your-honor-i-object-to-jury-duty-v9-main",
     MockEntry("intermediate", ["AWS Bedrock", "Python"], 6, ["RAG pipeline", "Clean code"], 15, 3500)),
    ("Ariadne Clew",
     MockEntry("advanced", ["AWS Bedrock", "AgentCore", "Python"], 7,
               ["Agent architecture", "Async-first", "Advanced reasoning"], 25, 6200)),
    ("Janus Clew",
     MockEntry("advanced", ["AWS Bedrock", "AgentCore", "FastAPI", "React", "Python"], 8,
               ["Full-stack AI", "Production patterns", "Intelligent recommendations"], 40, 9800)),
    ("ticketglass",
     MockEntry("expert", ["AWS Bedrock", "AgentCore", "FastAPI", "TypeScript"], 8,
               ["Production agentic systems", "Async patterns", "Enterprise design"], 35, 8500))
  ]

  const DefaultMock := MockEntry("intermediate", ["Python"], 5, ["Clean code"], 10, 3000)

  /** The dictionary of a canned analysis for the repository `repoName`. */
  function RenderMock(entry: MockEntry, repoName: string): (j: Json)
    ensures j.Obj? && "source" in j.fields && j.fields["source"] == Str("mock")
    ensures "repo_metrics" in j.fields && j.fields["repo_metrics"].Obj? &&
            "name" in j.fields["repo_metrics"].fields && j.fields["repo_metrics"].fields["name"] == Str(repoName)
  {
    Obj(map["skill_level" := Str(entry.skillLevel), "technologies" := Arr(Strs(entry.technologies)),
            "complexity" := Num(entry.complexity as real), "patterns" := Arr(Strs(entry.patterns)),
            "repo_metrics" := Obj(map["name" := Str(repoName), "python_files" := Num(entry.pythonFiles as real),
                                      "total_lines" := Num(entry.totalLines as real)]),
            "source" := Str("mock")])
  }

  /** `key.lower() in repo_name.lower() or repo_name.lower() in key.lower()`. */
  predicate KeyMatches(key: string, repoName: string) {
    Contains(Lower(repoName), Lower(key)) || Contains(Lower(key), Lower(repoName))
  }

  /** The index of the first entry whose key matches, or `|entries|` when
      none does. */
  function FirstMatching(entries: seq<(string, MockEntry)>, repoName: string): (k: nat)
    ensures k <= |entries|
    ensures k < |entries| ==> KeyMatches(entries[k].0, repoName)
    ensures forall j :: 0 <= j < k ==> !KeyMatches(entries[j].0, repoName)
  {
    if entries == [] || KeyMatches(entries[0].0, repoName) then 0
    else 1 + FirstMatching(entries[1..], repoName)
  }

  /** The entry the `for key, analysis in ...items()` loop settles on,
      or the default after it. */
  function Lookup(entries: seq<(string, MockEntry)>, default: MockEntry, repoName: string): MockEntry {
    var k := FirstMatching(entries, repoName);
    if k < |entries| then entries[k].1 else default
  }

  /** The first entry whose key and the repository name contain one
      another, ignoring case, is returned; the default only when none does. */
  lemma LookupFirstMatch(entries: seq<(string, MockEntry)>, default: MockEntry, repoName: string)
    ensures (exists k :: 0 <= k < |entries| && KeyMatches(entries[k].0, repoName)) ==>
              exists k :: 0 <= k < |entries| && KeyMatches(entries[k].0, repoName) &&
                (forall j :: 0 <= j < k ==> !KeyMatches(entries[j].0, repoName)) &&
                Lookup(entries, default, repoName) == entries[k].1
    ensures (forall k :: 0 <= k < |entries| ==> !KeyMatches(entries[k].0, repoName)) ==>
              Lookup(entries, default, repoName) == default
  {
    var k := FirstMatching(entries, repoName);
    if k < |entries| {
      assert KeyMatches(entries[k].0, repoName);
    }
  }

  /** `_get_mock_analysis` for a path whose base name is `repoName`. */
  function GetMockAnalysis(repoName: string): (j: Json)
    ensures j.Obj? && "source" in j.fields && j.fields["source"] == Str("mock")
  {
    RenderMock(Lookup(MockTable, DefaultMock, repoName), repoName)
  }

  /** An empty base name (the path `/`) is contained in every key, so the
      first entry is returned. */
  lemma EmptyNameMatchesFirstEntry()
    ensures GetMockAnalysis("") == RenderMock(MockTable[0].1, "")
  {
    assert IsPrefix("", Lower(MockTable[0].0));
    assert KeyMatches(MockTable[0].0, "");
  }

  // ---------------------------------------------------------------------
  // analyze_repository
  // ---------------------------------------------------------------------

  /** What `_analyze_with_q` raised. */
  datatype Failure = ClientError(code: string, message: string) | ConnectionError(message: string) | OtherError(message: string)

  /** What one attempt did. */
  datatype Attempt = Analyzed(result: Json) | Failed(failure: Failure)

  /** The `last_error` text each kind of failure records. */
  function ErrorText(f: Failure): string {
    match f
    case ClientError(code, message) => "AWS Error (" + code + "): " + message
    case ConnectionError(message) => "AWS Connection Error: " + message
    case OtherError(message) => message
  }

  /** A run of `analyze_repository`: the analysis returned, whether the rate
      limiter was consulted, how many attempts were made, the waits slept
      between them in order, and the last error recorded. */
  datatype QRun = QRun(result: Json, rateLimited: bool, calls: nat, waits: seq<real>, lastError: Option<string>)

  /** The retry loop from attempt `attempt` on, with `fallback` returned
      once the attempts are used up. Every kind of failure waits
      `backoff ** (attempt - 1)` unless it was the last attempt. */
  function Attempts(attempt: nat, maxRetries: int, backoff: real, call: nat -> Attempt,
                    lastError: Option<string>, fallback: Json): QRun
    requires attempt >= 1
    decreases if attempt <= maxRetries then maxRetries + 1 - attempt else 0
  {
    if attempt > maxRetries then QRun(fallback, true, 0, [], lastError)
    else match call(attempt)
      case Analyzed(v) => QRun(v, true, 1, [], lastError)
      case Failed(f) =>
        var rest := Attempts(attempt + 1, maxRetries, backoff, call, Some(ErrorText(f)), fallback);
        QRun(rest.result, true, rest.calls + 1, WaitAfter(attempt, maxRetries, backoff) + rest.waits, rest.lastError)
  }

  /** The sleep after a failed attempt: none after the last one. */
  function WaitAfter(attempt: nat, maxRetries: int, backoff: real): seq<real>
    requires attempt >= 1
  {
    if attempt < maxRetries then [PowReal(backoff, attempt - 1)] else []
  }

  /** One failed attempt, unfolded. */
  lemma AttemptFails(attempt: nat, maxRetries: int, backoff: real, call: nat -> Attempt,
                     lastError: Option<string>, fallback: Json)
    requires 1 <= attempt <= maxRetries && call(attempt).Failed?
    ensures var run := Attempts(attempt, maxRetries, backoff, call, lastError, fallback);
            var rest := Attempts(attempt + 1, maxRetries, backoff, call, Some(ErrorText(call(attempt).failure)), fallback);
            run.result == rest.result && run.calls == rest.calls + 1 && run.lastError == rest.lastError &&
            run.waits == WaitAfter(attempt, maxRetries, backoff) + rest.waits
  {
  }

  /** What `analyze_repository` does for a repository whose base name is
      `repoName`. */
  function Analyze(useMock: bool, available: bool, maxRetries: int, backoff: real, repoName: string,
                   call: nat -> Attempt): QRun
  {
    if useMock || !available then QRun(GetMockAnalysis(repoName), false, 0, [], None)
    else Attempts(1, maxRetries, backoff, call, None, GetMockAnalysis(repoName))
  }

  /** The body of the `for attempt` loop. */
  method RetryLoop(maxRetries: int, backoff: real, call: nat -> Attempt, fallback: Json)
    returns (run: QRun)
    ensures run == Attempts(1, maxRetries, backoff, call, None, fallback)
  {
    var lastError: Option<string> := None;
    var calls: nat := 0;
    var waits: seq<real> := [];
    var attempt: nat := 1;
    ghost var goal := Attempts(1, maxRetries, backoff, call, None, fallback);
    while attempt <= maxRetries
      invariant attempt >= 1 && calls == attempt - 1
      invariant goal.result == Attempts(attempt, maxRetries, backoff, call, lastError, fallback).result
      invariant goal.calls == calls + Attempts(attempt, maxRetries, backoff, call, lastError, fallback).calls
      invariant goal.waits == waits + Attempts(attempt, maxRetries, backoff, call, lastError, fallback).waits
      invariant goal.lastError == Attempts(attempt, maxRetries, backoff, call, lastError, fallback).lastError
      decreases maxRetries + 1 - attempt
    {
      var outcome := call(attempt);
      calls := calls + 1;
      if outcome.Analyzed? {
        assert waits + [] == waits;
        return QRun(outcome.result, true, calls, waits, lastError);
      }
      AttemptFails(attempt, maxRetries, backoff, call, lastError, fallback);
      lastError := Some(ErrorText(outcome.failure));
      ghost var rest := Attempts(attempt + 1, maxRetries, backoff, call, lastError, fallback).waits;
      Sequences.AppendAssoc(waits, WaitAfter(attempt, maxRetries, backoff), rest);
      waits := waits + WaitAfter(attempt, maxRetries, backoff);
      if attempt >= maxRetries && outcome.failure.OtherError? {
        break;
      }
      attempt := attempt + 1;
    }
    assert waits + [] == waits;
    return QRun(fallback, true, calls, waits, lastError);
  }

  /** `AmazonQClient.analyze_repository`. */
  method AnalyzeRepository(useMock: bool, available: bool, maxRetries: int, backoff: real, repoName: string,
                           call: nat -> Attempt)
    returns (run: QRun)
    ensures run == Analyze(useMock, available, maxRetries, backoff, repoName, call)
  {
    if useMock || !available {
      return QRun(GetMockAnalysis(repoName), false, 0, [], None);
    }
    run := RetryLoop(maxRetries, backoff, call, GetMockAnalysis(repoName));
  }

  /** In mock mode, or without a client, the canned analysis is returned
      without consulting the rate limiter, calling the service or
      sleeping. */
  lemma MockModeSkipsService(available: bool, maxRetries: int, backoff: real, repoName: string,
                             call: nat -> Attempt, useMock: bool)
    requires useMock || !available
    ensures var run := Analyze(useMock, available, maxRetries, backoff, repoName, call);
            run.result == GetMockAnalysis(repoName) && !run.rateLimited && run.calls == 0 && run.waits == []
  {
  }

  /** The first successful attempt's analysis is returned, after as many
      calls as it took and never more than `maxRetries`; the canned
      analysis is returned, instead of an error, exactly when every attempt
      failed, and then after all of them. */
  lemma {:induction false} FirstSuccessOrMock(attempt: nat, maxRetries: int, backoff: real, call: nat -> Attempt,
                                              lastError: Option<string>, fallback: Json)
    requires attempt >= 1
    ensures var run := Attempts(attempt, maxRetries, backoff, call, lastError, fallback);
            && run.rateLimited
            && (attempt <= maxRetries ==> attempt + run.calls <= maxRetries + 1)
            && ((exists k :: attempt <= k <= maxRetries && call(k).Analyzed?) ==>
                  && run.calls >= 1
                  && call(attempt + run.calls - 1) == Analyzed(run.result)
                  && forall k :: attempt <= k < attempt + run.calls - 1 ==> call(k).Failed?)
            && ((forall k :: attempt <= k <= maxRetries ==> call(k).Failed?) ==>
                  run.result == fallback && run.calls == (if attempt <= maxRetries then maxRetries + 1 - attempt else 0))
    decreases if attempt <= maxRetries then maxRetries + 1 - attempt else 0
  {
    if attempt <= maxRetries && call(attempt).Failed? {
      FirstSuccessOrMock(attempt + 1, maxRetries, backoff, call, Some(ErrorText(call(attempt).failure)), fallback);
    }
  }

  /** A wait follows every failed attempt but the last one made: one fewer
      wait than calls, the `i`-th being `backoff ** (attempt - 1 + i)`. */
  lemma {:induction false} WaitsBetweenAttempts(attempt: nat, maxRetries: int, backoff: real, call: nat -> Attempt,
                                                lastError: Option<string>, fallback: Json)
    requires attempt >= 1
    ensures var run := Attempts(attempt, maxRetries, backoff, call, lastError, fallback);
            && |run.waits| == (if run.calls > 0 then run.calls - 1 else 0)
            && forall i :: 0 <= i < |run.waits| ==> run.waits[i] == PowReal(backoff, attempt - 1 + i)
    decreases if attempt <= maxRetries then maxRetries + 1 - attempt else 0
  {
    if attempt <= maxRetries && call(attempt).Failed? {
      var e := Some(ErrorText(call(attempt).failure));
      WaitsBetweenAttempts(attempt + 1, maxRetries, backoff, call, e, fallback);
      AttemptFails(attempt, maxRetries, backoff, call, lastError, fallback);
      var rest := Attempts(attempt + 1, maxRetries, backoff, call, e, fallback);
      var run := Attempts(attempt, maxRetries, backoff, call, lastError, fallback);
      if attempt < maxRetries {
        assert rest.calls >= 1;
        forall i | 1 <= i < |run.waits|
          ensures run.waits[i] == PowReal(backoff, attempt - 1 + i)
        {
          assert run.waits[i] == rest.waits[i - 1];
        }
      } else {
        assert run.waits == [];
      }
    }
  }
}
