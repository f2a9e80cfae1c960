/** The backend pattern detector: patterns come from the oracle when it
    answers with a usable dictionary, and otherwise from four fixed rules
    over the stored projects. `format1` stands for `format(x, '.1f')`. */
module PatternDetector {
  import opened Json
  import opened Text
  import opened StoredAnalysis
  import AgentCoreIntegration

  type PatternEntry = AgentCoreIntegration.PatternEntry

  const DatabaseNames: set<string> := {"PostgreSQL", "MySQL", "MongoDB", "SQLite", "DynamoDB"}
  const AsyncNames: set<string> := {"AsyncIO", "async/await", "Promise", "RxJS"}

  /** `any(name in technologies for name in names)`. */
  predicate UsesAny(p: Project, names: set<string>) {
    var techs := TechnologiesOf(p);
    exists i :: 0 <= i < |techs| && techs[i].Str? && techs[i].s in names
  }

  /** The length of `[p for p in projects if UsesAny(p, names)]`. */
  function CountUsing(projects: seq<Project>, names: set<string>): (n: nat)
    ensures n <= |projects|
  {
    if projects == [] then 0
    else (if UsesAny(projects[0], names) then 1 else 0) + CountUsing(projects[1..], names)
  }

  /** Some project is counted exactly when some project uses a name. */
  lemma {:induction false} CountUsingPositive(projects: seq<Project>, names: set<string>)
    ensures CountUsing(projects, names) > 0 <==> exists i :: 0 <= i < |projects| && UsesAny(projects[i], names)
    decreases |projects|
  {
    if projects != [] {
      CountUsingPositive(projects[1..], names);
      assert forall i :: 1 <= i < |projects| ==> projects[i] == projects[1..][i - 1];
    }
  }

  /** The `complexities` list: one score per project. */
  function Scores(projects: seq<Project>): (cs: seq<real>)
    ensures |cs| == |projects|
  {
    if projects == [] then []
    else Scores(projects[..|projects| - 1]) + [ScoreOf(projects[|projects| - 1])]
  }

  /** The element a Python set holds for a technology: `True == 1` and
      `False == 0` with equal hashes, so a set keeps one element for each
      pair. */
  function SetElement(t: Json): Json {
    match t
    case Bool(b) => Num(if b then 1.0 else 0.0)
    case _ => t
  }

  /** `set(xs)`, one element per class of equal values. */
  function SetOf(xs: seq<Json>): (ts: set<Json>)
    ensures forall t :: t in ts <==> exists i :: 0 <= i < |xs| && t == SetElement(xs[i])
  {
    if xs == [] then {}
    else
      var rest := SetOf(xs[1..]);
      assert forall i :: 1 <= i < |xs| ==> xs[i] == xs[1..][i - 1];
      {SetElement(xs[0])} + rest
  }

  /** The `all_technologies` set. */
  function TechSet(projects: seq<Project>): set<Json> {
    if projects == [] then {}
    else TechSet(projects[..|projects| - 1]) + SetOf(TechnologiesOf(projects[|projects| - 1]))
  }

  /** Gathering one more project extends the scores and the technology set
      by its own. */
  lemma GatherOne(projects: seq<Project>, p: Project)
    ensures Scores(projects + [p]) == Scores(projects) + [ScoreOf(p)]
    ensures TechSet(projects + [p]) == TechSet(projects) + SetOf(TechnologiesOf(p))
  {
    assert (projects + [p])[..|projects|] == projects;
  }

  /** The four rules of the fallback; the database rule reports one of two
      entries. */
  datatype Rule = DatabaseUsage | DatabaseAvoidance | AsyncFirst | RapidLearning | Generalist

  /** The growth rule's test: two or more scores, the first positive and
      the last more than twice the first. */
  predicate Grows(scores: seq<real>) {
    |scores| >= 2 && scores[0] > 0.0 && scores[|scores| - 1] / scores[0] > 2.0
  }

  /** The rules that fire, in the order their entries are listed. */
  function Rules(projects: seq<Project>, scores: seq<real>, techs: set<Json>): (rules: seq<Rule>)
    ensures RapidLearning in rules ==> Grows(scores)
  {
    [if CountUsing(projects, DatabaseNames) > 0 then DatabaseUsage else DatabaseAvoidance]
    + (if CountUsing(projects, AsyncNames) >= 2 then [AsyncFirst] else [])
    + (if Grows(scores) then [RapidLearning] else [])
    + (if |techs| >= 4 then [Generalist] else [])
  }

  function RuleName(rule: Rule): string {
    match rule
    case DatabaseUsage => "Database Usage"
    case DatabaseAvoidance => "Database Avoidance"
    case AsyncFirst => "Async-First Thinking"
    case RapidLearning => "Rapid Learning"
    case Generalist => "Generalist Approach"
  }

  /** Different rules report different names. */
  lemma RuleNamesDistinct(a: Rule, b: Rule)
    ensures RuleName(a) == RuleName(b) <==> a == b
  {
    if a != b {
      var x, y := RuleName(a), RuleName(b);
      assert |x| != |y| || x[0] != y[0];
    }
  }

  /** The evidence text a rule reports. */
  function Evidence(rule: Rule, projects: seq<Project>, scores: seq<real>, techs: set<Json>,
                    format1: real -> string): string
    requires rule.RapidLearning? ==> Grows(scores)
  {
    var n := NatToString(|projects|);
    match rule
    case DatabaseUsage => "Used in " + NatToString(CountUsing(projects, DatabaseNames)) + "/" + n + " projects"
    case DatabaseAvoidance => "0/" + n + " projects use SQL"
    case AsyncFirst => "Async in " + NatToString(CountUsing(projects, AsyncNames)) + "/" + n + " projects"
    case RapidLearning =>
      var first := scores[0];
      var last := scores[|scores| - 1];
      "Complexity grew " + format1(last / first) + "x from " + format1(first) + " to " + format1(last)
    case Generalist => "Used " + NatToString(|techs|) + " different technologies"
  }

  /** The confidence a rule reports. */
  function Confidence(rule: Rule): (c: real)
    ensures 0.0 <= c <= 1.0
  {
    match rule
    case DatabaseUsage => 0.95
    case DatabaseAvoidance => 0.98
    case AsyncFirst => 0.87
    case RapidLearning => 0.92
    case Generalist => 0.85
  }

  /** The impact text a rule reports. */
  function Impact(rule: Rule): string {
    match rule
    case DatabaseUsage => "You're comfortable with persistent state management"
    case DatabaseAvoidance => "You prefer state simplicity and in-memory solutions"
    case AsyncFirst => "You build for concurrency and scale from day one"
    case RapidLearning => "You're learning quickly and taking on more complex projects"
    case Generalist => "You're a generalist learner, comfortable with multiple stacks"
  }

  /** The entry a rule reports. */
  function RuleEntry(rule: Rule, projects: seq<Project>, scores: seq<real>, techs: set<Json>,
                     format1: real -> string): (e: PatternEntry)
    requires rule.RapidLearning? ==> Grows(scores)
    ensures e.name == RuleName(rule) && 0.0 <= e.confidence <= 1.0
  {
    AgentCoreIntegration.PatternEntry(RuleName(rule), Evidence(rule, projects, scores, techs, format1),
                                      Confidence(rule), Impact(rule))
  }

  /** The entries of the rules that fired, as dictionaries. */
  function RuleEntries(rules: seq<Rule>, projects: seq<Project>, scores: seq<real>, techs: set<Json>,
                       format1: real -> string): seq<Json>
    requires RapidLearning in rules ==> Grows(scores)
  {
    if rules == [] then []
    else
      [AgentCoreIntegration.EntryJson(RuleEntry(rules[0], projects, scores, techs, format1))]
      + RuleEntries(rules[1..], projects, scores, techs, format1)
  }

  /** The dictionary the fallback builds from what it gathered. */
  function Report(projects: seq<Project>, scores: seq<real>, techs: set<Json>, format1: real -> string): Json {
    var rules := Rules(projects, scores, techs);
    Obj(map["patterns" := Arr(RuleEntries(rules, projects, scores, techs, format1)),
            "data_points" := Num(|projects| as real),
            "fallback" := Bool(true)])
  }

  /** The rules over a list of projects. */
  function FallbackRules(projects: seq<Project>): seq<Rule> {
    Rules(projects, Scores(projects), TechSet(projects))
  }

  /** The fallback's dictionary for a list of projects. */
  function FallbackResult(projects: seq<Project>, format1: real -> string): Json {
    Report(projects, Scores(projects), TechSet(projects), format1)
  }

  /** `_fallback_pattern_detection`: gather the projects, their scores and
      their technologies over all analyses, then apply the rules. `None`
      is the `TypeError` that `set.update` raises on a technology that is a
      list or a dictionary. */
  method FallbackPatternDetection(analyses: seq<Analysis>, format1: real -> string) returns (r: Option<Json>)
    ensures r.Some? <==> AllHashable(AllProjects(analyses))
    ensures r.Some? ==> r.value == FallbackResult(AllProjects(analyses), format1)
  {
    var projects: seq<Project> := [];
    var technologies: set<Json> := {};
    var complexities: seq<real> := [];
    var i := 0;
    while i < |analyses|
      invariant i <= |analyses|
      invariant projects == AllProjects(analyses[..i])
      invariant complexities == Scores(projects) && technologies == TechSet(projects)
      invariant AllHashable(projects)
    {
      var current := ProjectsOf(analyses[i]);
      var j := 0;
      while j < |current|
        invariant j <= |current|
        invariant projects == ProjectsSoFar(analyses, i, j)
        invariant complexities == Scores(projects) && technologies == TechSet(projects)
        invariant AllHashable(projects)
      {
        NextProject(analyses, i, j);
        var p := current[j];
        var techs := TechnologiesOf(p);
        if exists k :: 0 <= k < |techs| && !Hashable(techs[k]) {
          ProjectReached(analyses, i, j);
          return None;
        }
        GatherOne(projects, p);
        projects := projects + [p];
        complexities := complexities + [ScoreOf(p)];
        technologies := technologies + SetOf(TechnologiesOf(p));
        j := j + 1;
      }
      NextAnalysis(analyses, i);
      i := i + 1;
    }
    assert analyses[..|analyses|] == analyses;
    r := Some(Report(projects, complexities, technologies, format1));
  }

  /** Exactly one of "Database Usage" and "Database Avoidance" is reported,
      first, and it is "Database Usage" exactly when some project names a
      database. */
  lemma ExactlyOneDatabasePattern(projects: seq<Project>)
    ensures var rules := FallbackRules(projects);
            && |set k | 0 <= k < |rules| && rules[k] in {DatabaseUsage, DatabaseAvoidance}| == 1
            && (rules[0] == DatabaseUsage <==> exists i :: 0 <= i < |projects| && UsesAny(projects[i], DatabaseNames))
  {
    CountUsingPositive(projects, DatabaseNames);
    var rules := FallbackRules(projects);
    assert forall k :: 1 <= k < |rules| ==> rules[k] in {AsyncFirst, RapidLearning, Generalist};
    assert (set k | 0 <= k < |rules| && rules[k] in {DatabaseUsage, DatabaseAvoidance}) == {0};
  }

  /** "Async-First Thinking" is reported exactly when two or more projects
      name an async framework; "Rapid Learning" exactly when the scores
      grow; "Generalist Approach" exactly when four or more distinct
      technologies are named. */
  lemma RuleConditions(projects: seq<Project>)
    ensures AsyncFirst in FallbackRules(projects) <==> CountUsing(projects, AsyncNames) >= 2
    ensures RapidLearning in FallbackRules(projects) <==> Grows(Scores(projects))
    ensures Generalist in FallbackRules(projects) <==> |TechSet(projects)| >= 4
  {
  }

  /** The fallback counts every project and says it is a fallback. */
  lemma FallbackCountsProjects(analyses: seq<Analysis>, format1: real -> string)
    ensures var r := FallbackResult(AllProjects(analyses), format1);
            r.Obj? && r.fields["data_points"] == Num(ProjectCount(analyses) as real)
            && r.fields["fallback"] == Bool(true)
  {
    AllProjectsCount(analyses);
  }

  const RequiredPatternKeys: set<string> := {"name", "evidence", "confidence"}

  /** The check of one pattern in `validate_patterns`: it must be a
      dictionary (`.keys()` fails otherwise), hold the three keys, and have
      a confidence in [0, 1] (a comparison with a non-number fails). */
  function CheckPattern(p: Json): Check {
    if !p.Obj? then Crashed
    else if !(RequiredPatternKeys <= p.fields.Keys) then Refused("Pattern missing required keys")
    else
      match InRange(Get(p.fields, "confidence", Num(0.0)), 0.0, 1.0)
      case None => Crashed
      case Some(ok) => if ok then Passed else Refused("Confidence must be 0-1")
  }

  /** The loop of `validate_patterns`: the first pattern that fails
      decides. */
  function CheckPatterns(ps: seq<Json>): Check {
    if ps == [] then Passed
    else if CheckPattern(ps[0]) != Passed then CheckPattern(ps[0])
    else CheckPatterns(ps[1..])
  }

  /** `validate_patterns`. */
  function ValidatePatterns(patterns: Json): (c: Check)
    ensures !patterns.Obj? ==> c == Refused("Patterns must be a dictionary")
    ensures patterns.Obj? && "patterns" !in patterns.fields ==> c == Refused("Patterns missing 'patterns' key")
  {
    if !patterns.Obj? then Refused("Patterns must be a dictionary")
    else if "patterns" !in patterns.fields then Refused("Patterns missing 'patterns' key")
    else if !patterns.fields["patterns"].Arr? then Refused("Patterns must be a list")
    else CheckPatterns(patterns.fields["patterns"].items)
  }

  /** A well-formed pattern: a dictionary with the three keys and a numeric
      confidence in [0, 1]. */
  predicate PatternOk(p: Json) {
    p.Obj? && RequiredPatternKeys <= p.fields.Keys && InRange(p.fields["confidence"], 0.0, 1.0) == Some(true)
  }

  lemma {:induction false} CheckPatternsPassed(ps: seq<Json>)
    ensures CheckPatterns(ps) == Passed <==> forall i :: 0 <= i < |ps| ==> PatternOk(ps[i])
    decreases |ps|
  {
    if ps != [] {
      CheckPatternsPassed(ps[1..]);
      assert forall i :: 1 <= i < |ps| ==> ps[i] == ps[1..][i - 1];
      assert CheckPattern(ps[0]) == Passed <==> PatternOk(ps[0]);
    }
  }

  /** `validate_patterns` returns True exactly for a dictionary whose
      "patterns" entry is a list of well-formed patterns. */
  lemma ValidatePatternsExactly(patterns: Json)
    ensures ValidatePatterns(patterns) == Passed <==>
      patterns.Obj? && "patterns" in patterns.fields && patterns.fields["patterns"].Arr? &&
      forall i :: 0 <= i < |patterns.fields["patterns"].items| ==> PatternOk(patterns.fields["patterns"].items[i])
  {
    if patterns.Obj? && "patterns" in patterns.fields && patterns.fields["patterns"].Arr? {
      CheckPatternsPassed(patterns.fields["patterns"].items);
    }
  }

  /** Confidence 1 passes and confidence 1.5 is refused. */
  lemma ConfidenceBoundary(name: string, evidence: string, impact: string)
    ensures ValidatePatterns(Obj(map["patterns" := Arr([AgentCoreIntegration.EntryJson(
              AgentCoreIntegration.PatternEntry(name, evidence, 1.0, impact))])])) == Passed
    ensures ValidatePatterns(Obj(map["patterns" := Arr([AgentCoreIntegration.EntryJson(
              AgentCoreIntegration.PatternEntry(name, evidence, 1.5, impact))])])) == Refused("Confidence must be 0-1")
  {
    var good := AgentCoreIntegration.EntryJson(AgentCoreIntegration.PatternEntry(name, evidence, 1.0, impact));
    var bad := AgentCoreIntegration.EntryJson(AgentCoreIntegration.PatternEntry(name, evidence, 1.5, impact));
    assert CheckPattern(good) == Passed;
    assert CheckPatterns([good]) == Passed by { assert [good][1..] == []; }
    assert CheckPattern(bad) == Refused("Confidence must be 0-1");
    assert CheckPatterns([bad]) == CheckPattern(bad);
  }

  /** An entry with a confidence in [0, 1] is a well-formed pattern. */
  lemma EntryOk(e: PatternEntry)
    requires 0.0 <= e.confidence <= 1.0
    ensures PatternOk(AgentCoreIntegration.EntryJson(e))
  {
  }

  /** Every entry a rule reports is a well-formed pattern. */
  lemma {:induction false} RuleEntriesOk(rules: seq<Rule>, projects: seq<Project>, scores: seq<real>, techs: set<Json>,
                                         format1: real -> string)
    requires RapidLearning in rules ==> Grows(scores)
    ensures forall k :: 0 <= k < |RuleEntries(rules, projects, scores, techs, format1)| ==>
              PatternOk(RuleEntries(rules, projects, scores, techs, format1)[k])
  {
    if rules != [] {
      EntryOk(RuleEntry(rules[0], projects, scores, techs, format1));
      RuleEntriesOk(rules[1..], projects, scores, techs, format1);
    }
  }

  /** Whatever was gathered, the report passes `validate_patterns`. */
  lemma ReportValidates(projects: seq<Project>, scores: seq<real>, techs: set<Json>, format1: real -> string)
    ensures ValidatePatterns(Report(projects, scores, techs, format1)) == Passed
  {
    var rules := Rules(projects, scores, techs);
    var items := RuleEntries(rules, projects, scores, techs, format1);
    RuleEntriesOk(rules, projects, scores, techs, format1);
    var r := Report(projects, scores, techs, format1);
    assert r.fields["patterns"] == Arr(items);
    ValidatePatternsExactly(r);
  }

  /** The fallback's output always passes `validate_patterns`. */
  lemma FallbackValidates(projects: seq<Project>, format1: real -> string)
    ensures ValidatePatterns(FallbackResult(projects, format1)) == Passed
  {
    ReportValidates(projects, Scores(projects), TechSet(projects), format1);
  }

  /** The mock oracle's pattern payload passes `validate_patterns` too. */
  lemma MockPayloadValidates()
    ensures ValidatePatterns(AgentCoreIntegration.MockPatternPayload()) == Passed
  {
    var items := AgentCoreIntegration.MockPatternPayload().fields["patterns"].items;
    assert forall k :: 0 <= k < |items| ==> PatternOk(items[k]);
    ValidatePatternsExactly(AgentCoreIntegration.MockPatternPayload());
  }

  /** What `detect_patterns` did: the patterns dictionary,
      `PatternDetectorError` for an empty list of analyses, or the
      `TypeError` of the fallback, which escapes its `except` clause. */
  datatype Detected = Detected(patterns: Json) | NoAnalyses | Unhashable

  /** The oracle's answer is used when it is a dictionary whose "patterns"
      entry has a length (the log line calls `len` on it; anything else
      raises inside the `try` and selects the fallback). */
  predicate Usable(answer: AgentCoreIntegration.Answer) {
    answer.Answer? && answer.value.Obj? &&
    var listed := Get(answer.value.fields, "patterns", Arr([]));
    listed.Str? || listed.Arr? || listed.Obj?
  }

  /** `detect_patterns`, with the oracle's reply as input. */
  function DetectPatterns(analyses: seq<Analysis>, reply: AgentCoreIntegration.Reply,
                          parse: string -> Option<Json>, format1: real -> string): (r: Detected)
    ensures r.NoAnalyses? <==> analyses == []
    ensures analyses != [] && Usable(AgentCoreIntegration.DetectPatterns(reply, parse)) ==>
      r == Detected(AgentCoreIntegration.DetectPatterns(reply, parse).value)
    ensures analyses != [] && !Usable(AgentCoreIntegration.DetectPatterns(reply, parse)) ==>
      r == if AllHashable(AllProjects(analyses)) then Detected(FallbackResult(AllProjects(analyses), format1))
           else Unhashable
    ensures analyses != [] && AgentCoreIntegration.DetectPatterns(reply, parse).IntegrationError? ==>
      r == if AllHashable(AllProjects(analyses)) then Detected(FallbackResult(AllProjects(analyses), format1))
           else Unhashable
    ensures r.Unhashable? <==>
      (analyses != [] && !Usable(AgentCoreIntegration.DetectPatterns(reply, parse)) && !AllHashable(AllProjects(analyses)))
  {
    if analyses == [] then NoAnalyses
    else
      var answer := AgentCoreIntegration.DetectPatterns(reply, parse);
      if Usable(answer) then Detected(answer.value)
      else if !AllHashable(AllProjects(analyses)) then Unhashable
      else Detected(FallbackResult(AllProjects(analyses), format1))
  }

  /** Whenever the oracle fails and every technology can go in a set,
      what comes back still passes the validator. */
  lemma DetectPatternsNeverRaisesOnData(analyses: seq<Analysis>, reply: AgentCoreIntegration.Reply,
                                        parse: string -> Option<Json>, format1: real -> string)
    requires analyses != [] && AllHashable(AllProjects(analyses))
    requires !Usable(AgentCoreIntegration.DetectPatterns(reply, parse))
    ensures DetectPatterns(analyses, reply, parse, format1).Detected?
    ensures ValidatePatterns(DetectPatterns(analyses, reply, parse, format1).patterns) == Passed
  {
    FallbackValidates(AllProjects(analyses), format1);
  }

  /** A project listing a list among its technologies makes the fallback
      raise, so `detect_patterns` raises when the oracle fails. */
  lemma ListTechnologyRaises(reply: AgentCoreIntegration.Reply, parse: string -> Option<Json>, format1: real -> string)
    requires !Usable(AgentCoreIntegration.DetectPatterns(reply, parse))
    ensures DetectPatterns([Analysis(None, Some([Project(None, None, Some([Arr([])]))]), map[])], reply, parse, format1)
            == Unhashable
  {
    var analyses := [Analysis(None, Some([Project(None, None, Some([Arr([])]))]), map[])];
    assert AllProjects(analyses) == [Project(None, None, Some([Arr([])]))] by {
      assert analyses[..0] == [];
    }
    assert !Hashable(TechnologiesOf(AllProjects(analyses)[0])[0]);
  }

  /** `True`, `1` and `1.0` are one technology for the "Generalist" count. */
  lemma TrueIsOneTechnology()
    ensures |TechSet([Project(None, None, Some([Bool(true), Num(1.0), Str("Go")]))])| == 2
  {
    var p := Project(None, None, Some([Bool(true), Num(1.0), Str("Go")]));
    assert [p][..0] == [];
    assert SetOf(TechnologiesOf(p)) == {Num(1.0), Str("Go")} by {
      assert SetElement(TechnologiesOf(p)[0]) == Num(1.0);
      assert SetElement(TechnologiesOf(p)[2]) == Str("Go");
    }
  }
}
