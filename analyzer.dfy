/** The batch side of the repository analysis engine: partitioning a list
    of repositories into analysed projects and error entries, the overall
    metrics, the growth rate between the first and last project, the
    nesting depth of a syntax tree, and the technology keyword table.
    Analysing one repository (Git history, file walking, AST scoring) is an
    oracle `analyze` from a repository path to what `analyze_repo` returned
    or raised. */
module Analyzer {
  import opened Json
  import opened Text
  import opened Numeric
  import Sequences

  // ---------------------------------------------------------------------
  // AnalysisEngine.run
  // ---------------------------------------------------------------------

  /** The parts of an `analyze_repo` dictionary that `run` reads, and the
      rest of it. */
  datatype Project = Project(name: string, complexityScore: real, details: Json)

  /** What analysing one repository did. */
  datatype RepoOutcome = Analyzed(project: Project) | Raised(message: string)

  /** An entry of the `errors` list: `{"repo": ..., "error": str(e)}`. */
  datatype ErrorEntry = ErrorEntry(repo: string, error: string)

  /** What `run` returns or raises. `patterns` and `recommendations` are
      always `None` and are not carried. */
  datatype RunResult =
    | NoneAnalyzed(repoName: string, error: string)
    | Batch(projects: seq<Project>, avgComplexity: real, totalProjects: nat, growthRate: real,
            errors: seq<ErrorEntry>)

  /** The analyses of the repositories that succeeded, in input order. */
  function Succeeded(repos: seq<string>, analyze: string -> RepoOutcome): seq<Project> {
    if repos == [] then []
    else
      var init := Succeeded(repos[..|repos| - 1], analyze);
      match analyze(repos[|repos| - 1])
      case Analyzed(p) => init + [p]
      case Raised(_) => init
  }

  /** The error entries of the repositories that failed, in input order. */
  function Failures(repos: seq<string>, analyze: string -> RepoOutcome): seq<ErrorEntry> {
    if repos == [] then []
    else
      var init := Failures(repos[..|repos| - 1], analyze);
      match analyze(repos[|repos| - 1])
      case Analyzed(_) => init
      case Raised(m) => init + [ErrorEntry(repos[|repos| - 1], m)]
  }

  /** `sum(p["complexity_score"] for p in projects)`. */
  function TotalComplexity(projects: seq<Project>): real {
    if projects == [] then 0.0
    else TotalComplexity(projects[..|projects| - 1]) + projects[|projects| - 1].complexityScore
  }

  function ScoreOf(p: Project): real {
    p.complexityScore
  }

  /** `_calculate_growth_rate` on the projects' scores: the percentage
      change from the first to the last, to one decimal, or 0.0 with fewer
      than two projects or a first score of 0. */
  function GrowthRate(scores: seq<real>): real {
    if |scores| < 2 then 0.0
    else if scores[0] == 0.0 then 0.0
    else Round((scores[|scores| - 1] - scores[0]) / scores[0] * 100.0, 1)
  }

  /** What `run` does for the repositories `repos`. */
  function RunSpec(repos: seq<string>, analyze: string -> RepoOutcome): RunResult {
    var projects := Succeeded(repos, analyze);
    if projects == [] then NoneAnalyzed("batch_analysis", "Unable to analyze any repositories")
    else Batch(projects, Round(TotalComplexity(projects) / |projects| as real, 2), |projects|,
               GrowthRate(Sequences.MapSeq(projects, ScoreOf)), Failures(repos, analyze))
  }

  /** `AnalysisEngine.run`. */
  method Run(repos: seq<string>, analyze: string -> RepoOutcome) returns (r: RunResult)
    ensures r == RunSpec(repos, analyze)
  {
    var projects: seq<Project> := [];
    var errors: seq<ErrorEntry> := [];
    for i := 0 to |repos|
      invariant projects == Succeeded(repos[..i], analyze)
      invariant errors == Failures(repos[..i], analyze)
    {
      assert repos[..i + 1][..i] == repos[..i];
      match analyze(repos[i]) {
        case Analyzed(p) =>
          projects := projects + [p];
        case Raised(m) =>
          errors := errors + [ErrorEntry(repos[i], m)];
      }
    }
    assert repos[..|repos|] == repos;
    if projects == [] {
      return NoneAnalyzed("batch_analysis", "Unable to analyze any repositories");
    }
    var avg := TotalComplexity(projects) / |projects| as real;
    var growth := GrowthRate(Sequences.MapSeq(projects, ScoreOf));
    r := Batch(projects, Round(avg, 2), |projects|, growth, errors);
  }

  /** Every repository lands in exactly one of the two lists: the counts
      add up, and a project (an error entry) is listed exactly when some
      repository's analysis returned it (raised its message). */
  lemma {:induction false} RunPartition(repos: seq<string>, analyze: string -> RepoOutcome)
    ensures |Succeeded(repos, analyze)| + |Failures(repos, analyze)| == |repos|
    ensures forall p :: p in Succeeded(repos, analyze) <==>
              exists i :: 0 <= i < |repos| && analyze(repos[i]) == Analyzed(p)
    ensures forall e :: e in Failures(repos, analyze) <==>
              exists i :: 0 <= i < |repos| && analyze(repos[i]) == Raised(e.error) && repos[i] == e.repo
    decreases |repos|
  {
    if repos != [] {
      var init := repos[..|repos| - 1];
      RunPartition(init, analyze);
      forall p
        ensures p in Succeeded(repos, analyze) <==> exists i :: 0 <= i < |repos| && analyze(repos[i]) == Analyzed(p)
      {
        if p in Succeeded(repos, analyze) && p in Succeeded(init, analyze) {
          var i :| 0 <= i < |init| && analyze(init[i]) == Analyzed(p);
          assert repos[i] == init[i];
        }
        if exists i :: 0 <= i < |repos| && analyze(repos[i]) == Analyzed(p) {
          var i :| 0 <= i < |repos| && analyze(repos[i]) == Analyzed(p);
          if i < |init| {
            assert init[i] == repos[i];
          }
        }
      }
      forall e
        ensures e in Failures(repos, analyze) <==>
                exists i :: 0 <= i < |repos| && analyze(repos[i]) == Raised(e.error) && repos[i] == e.repo
      {
        if e in Failures(repos, analyze) && e in Failures(init, analyze) {
          var i :| 0 <= i < |init| && analyze(init[i]) == Raised(e.error) && init[i] == e.repo;
          assert repos[i] == init[i];
        }
        if exists i :: 0 <= i < |repos| && analyze(repos[i]) == Raised(e.error) && repos[i] == e.repo {
          var i :| 0 <= i < |repos| && analyze(repos[i]) == Raised(e.error) && repos[i] == e.repo;
          if i < |init| {
            assert init[i] == repos[i];
          }
        }
      }
    }
  }

  /** `run` raises `AnalysisError` exactly when every repository failed
      (in particular for an empty list); otherwise `total_projects` counts
      the successes, and with the errors it accounts for every repository. */
  lemma RunRaisesIffAllFailed(repos: seq<string>, analyze: string -> RepoOutcome)
    ensures RunSpec(repos, analyze).NoneAnalyzed? <==> forall i :: 0 <= i < |repos| ==> analyze(repos[i]).Raised?
    ensures RunSpec(repos, analyze).Batch? ==>
              RunSpec(repos, analyze).totalProjects == |RunSpec(repos, analyze).projects| &&
              RunSpec(repos, analyze).totalProjects + |RunSpec(repos, analyze).errors| == |repos|
  {
    RunPartition(repos, analyze);
    var projects := Succeeded(repos, analyze);
    if projects != [] {
      assert projects[0] in projects;
    } else if exists i :: 0 <= i < |repos| && analyze(repos[i]).Analyzed? {
      var i :| 0 <= i < |repos| && analyze(repos[i]).Analyzed?;
      assert analyze(repos[i]).project in projects;
    }
  }

  /** Two repositories scoring 6.0 and 8.0 average 7.0 and grow by 33.3%. */
  lemma RunTwoRepos(analyze: string -> RepoOutcome)
    requires analyze("repo1") == Analyzed(Project("repo1", 6.0, Null))
    requires analyze("repo2") == Analyzed(Project("repo2", 8.0, Null))
    ensures var r := RunSpec(["repo1", "repo2"], analyze);
            r.Batch? && |r.projects| == 2 && r.avgComplexity == 7.0 && r.growthRate == 33.3 && r.errors == []
  {
    var repos := ["repo1", "repo2"];
    assert repos[..1] == ["repo1"];
    assert ["repo1"][..0] == [];
    var projects := Succeeded(repos, analyze);
    assert projects == [Project("repo1", 6.0, Null), Project("repo2", 8.0, Null)];
    assert TotalComplexity(projects) == 14.0 by {
      assert projects[..1] == [Project("repo1", 6.0, Null)];
      assert projects[..1][..0] == [];
      assert TotalComplexity(projects[..1]) == 6.0;
    }
    assert Sequences.MapSeq(projects, ScoreOf) == [6.0, 8.0] by {
      assert projects[..1] == [Project("repo1", 6.0, Null)];
      assert projects[..1][..0] == [];
    }
    assert Failures(repos, analyze) == [];
    assert (8.0 - 6.0) / 6.0 * 100.0 * 10.0 == 1000.0 / 3.0;
    assert (1000.0 / 3.0).Floor == 333;
  }

  /** The growth rate of 5.0, 7.5, 10.0 is 100%, and a single project has
      none. */
  lemma GrowthRateExamples()
    ensures GrowthRate([5.0, 7.5, 10.0]) == 100.0
    ensures GrowthRate([5.0]) == 0.0
  {
    assert (10.0 - 5.0) / 5.0 * 100.0 * 10.0 == 1000.0;
  }

  /** With a positive first score, the growth rate has the sign of the
      change from first to last. */
  lemma GrowthRateSign(scores: seq<real>)
    requires |scores| >= 2 && scores[0] > 0.0
    ensures scores[|scores| - 1] >= scores[0] ==> GrowthRate(scores) >= 0.0
    ensures scores[|scores| - 1] <= scores[0] ==> GrowthRate(scores) <= 0.0
  {
    var x := (scores[|scores| - 1] - scores[0]) / scores[0] * 100.0;
    if scores[|scores| - 1] >= scores[0] {
      assert x >= 0.0;
    }
    if scores[|scores| - 1] <= scores[0] {
      assert x <= 0.0;
    }
    RoundKeepsSign(x, 1);
  }

  // ---------------------------------------------------------------------
  // _max_nesting_depth
  // ---------------------------------------------------------------------

  /** A syntax-tree node, seen only through its children
      (`ast.iter_child_nodes`). */
  datatype Node = Node(children: seq<Node>)

  /** The number of edges on the longest path down from `n`. */
  function Height(n: Node): nat
    decreases n, |n.children| + 1
  {
    ChildrenHeight(n, |n.children|)
  }

  /** The largest `1 + Height(c)` over the first `k` children of `n`, or 0. */
  function ChildrenHeight(n: Node, k: nat): nat
    requires k <= |n.children|
    decreases n, k
  {
    if k == 0 then 0
    else
      assert n.children[k - 1] in n.children;
      var h := 1 + Height(n.children[k - 1]);
      var before := ChildrenHeight(n, k - 1);
      if before < h then h else before
  }

  /** `AnalysisEngine._max_nesting_depth(node, depth)`. */
  method MaxNestingDepth(node: Node, depth: int) returns (maxDepth: int)
    ensures maxDepth == depth + Height(node)
    decreases node
  {
    maxDepth := depth;
    for i := 0 to |node.children|
      invariant maxDepth == depth + ChildrenHeight(node, i)
    {
      assert node.children[i] in node.children;
      var childDepth := MaxNestingDepth(node.children[i], depth + 1);
      if maxDepth < childDepth {
        maxDepth := childDepth;
      }
    }
  }

  /** The height is one more than the tallest child's: every child is at
      least one lower, and some child attains it. A leaf has height 0. */
  lemma {:induction false} HeightIsTallestChild(n: Node, k: nat)
    requires k <= |n.children|
    ensures forall j :: 0 <= j < k ==> 1 + Height(n.children[j]) <= ChildrenHeight(n, k)
    ensures k == 0 <==> ChildrenHeight(n, k) == 0
    ensures k > 0 ==> exists j :: 0 <= j < k && ChildrenHeight(n, k) == 1 + Height(n.children[j])
    decreases k
  {
    if k > 0 {
      HeightIsTallestChild(n, k - 1);
    }
  }

  /** Three nested nodes, like three nested function definitions in one
      module, give a depth of 2 below the root. */
  lemma NestedChainDepth()
    ensures Height(Node([Node([Node([])])])) == 2
  {
    var leaf := Node([]);
    var mid := Node([leaf]);
    assert ChildrenHeight(leaf, 0) == 0;
    assert ChildrenHeight(mid, 0) == 0;
    assert ChildrenHeight(mid, 1) == 1;
    assert Height(mid) == 1;
  }

  // ---------------------------------------------------------------------
  // _detect_technologies
  // ---------------------------------------------------------------------

  /** The requirements keywords and the technology each one names, in
      table order. */
  const Keywords: seq<(string, string)> := [
    ("bedrock", "AWS Bedrock"), ("agentcore", "AgentCore"), ("langchain", "LangChain"),
    ("fastapi", "FastAPI"), ("django", "Django"), ("flask", "Flask"), ("pytest", "Pytest"),
    ("sqlalchemy", "SQLAlchemy"), ("pandas", "Pandas"), ("numpy", "NumPy")
  ]

  const NodeTech: string := "Node.js/TypeScript"
  const GoTech: string := "Go"

  /** Every technology `_detect_technologies` can name, in sorted order. */
  const AllTechs: seq<string> := [
    "AWS Bedrock", "AgentCore", "Django", "FastAPI", "Flask", "Go", "LangChain",
    NodeTech, "NumPy", "Pandas", "Pytest", "SQLAlchemy"
  ]

  /** Python's `<` on strings: code point by code point, a proper prefix
      first. */
  predicate Less(a: string, b: string) {
    if a == [] then b != []
    else b != [] && (a[0] < b[0] || (a[0] == b[0] && Less(a[1..], b[1..])))
  }

  lemma {:induction false} LessIrreflexive(a: string)
    ensures !Less(a, a)
  {
    if a != [] {
      LessIrreflexive(a[1..]);
    }
  }

  lemma {:induction false} LessTransitive(a: string, b: string, c: string)
    requires Less(a, b) && Less(b, c)
    ensures Less(a, c)
  {
    if a != [] && a[0] == b[0] && b[0] == c[0] {
      LessTransitive(a[1..], b[1..], c[1..]);
    }
  }

  /** Strictly increasing, hence also free of duplicates. */
  predicate StrictlySorted(xs: seq<string>) {
    forall i, j :: 0 <= i < j < |xs| ==> Less(xs[i], xs[j])
  }

  /** Each neighbour before the next is enough. */
  lemma {:induction false} ChainSorted(xs: seq<string>)
    requires forall i :: 0 <= i < |xs| - 1 ==> Less(xs[i], xs[i + 1])
    ensures StrictlySorted(xs)
  {
    if |xs| > 1 {
      ChainSorted(xs[1..]);
      forall j | 1 <= j < |xs|
        ensures Less(xs[0], xs[j])
      {
        if j > 1 {
          assert xs[1..][0] == xs[1] && xs[1..][j - 1] == xs[j];
          LessTransitive(xs[0], xs[1], xs[j]);
        }
      }
      forall i, j | 0 <= i < j < |xs|
        ensures Less(xs[i], xs[j])
      {
        if i > 0 {
          assert xs[1..][i - 1] == xs[i] && xs[1..][j - 1] == xs[j];
        }
      }
    }
  }

  lemma AllTechsSorted()
    ensures StrictlySorted(AllTechs)
  {
    assert Less("AWS Bedrock", "AgentCore");
    assert Less("AgentCore", "Django");
    assert Less("Django", "FastAPI");
    assert Less("FastAPI", "Flask");
    assert Less("Flask", "Go");
    assert Less("Go", "LangChain");
    assert Less("LangChain", NodeTech);
    assert Less(NodeTech, "NumPy");
    assert Less("NumPy", "Pandas");
    assert Less("Pandas", "Pytest");
    assert Less("Pytest", "SQLAlchemy");
    ChainSorted(AllTechs);
  }

  /** The elements of `xs` that are in `s`, in the order of `xs`. */
  function Keep(xs: seq<string>, s: set<string>): (r: seq<string>)
    ensures forall x :: x in r <==> x in xs && x in s
  {
    if xs == [] then [] else (if xs[0] in s then [xs[0]] else []) + Keep(xs[1..], s)
  }

  lemma {:induction false} KeepSorted(xs: seq<string>, s: set<string>)
    requires StrictlySorted(xs)
    ensures StrictlySorted(Keep(xs, s))
  {
    if xs != [] {
      KeepSorted(xs[1..], s);
      var rest := Keep(xs[1..], s);
      forall y | y in rest
        ensures Less(xs[0], y)
      {
        var j :| 0 <= j < |xs[1..]| && xs[1..][j] == y;
        assert xs[j + 1] == y;
      }
      if xs[0] in s {
        var r := [xs[0]] + rest;
        forall i, j | 0 <= i < j < |r|
          ensures Less(r[i], r[j])
        {
          assert r[j] == rest[j - 1] && rest[j - 1] in rest;
          if i > 0 {
            assert r[i] == rest[i - 1];
          }
        }
      }
    }
  }

  /** `sorted(list(techs))` is the only strictly sorted list holding
      exactly `techs`. */
  lemma {:induction false} SortedUnique(a: seq<string>, b: seq<string>)
    requires StrictlySorted(a) && StrictlySorted(b)
    requires forall x :: x in a <==> x in b
    ensures a == b
  {
    assert a == [] <==> b == [] by {
      if a != [] {
        assert a[0] in b;
      }
      if b != [] {
        assert b[0] in a;
      }
    }
    if a != [] && b != [] {
      if a[0] != b[0] {
        assert a[0] in a && b[0] in b;
        var i :| 0 <= i < |b| && b[i] == a[0];
        var j :| 0 <= j < |a| && a[j] == b[0];
        assert Less(b[0], a[0]) by {
          assert i > 0;
        }
        assert Less(a[0], b[0]) by {
          assert j > 0;
        }
        LessTransitive(a[0], b[0], a[0]);
        LessIrreflexive(a[0]);
        assert false;
      }
      forall x
        ensures x in a[1..] <==> x in b[1..]
      {
        if x in a[1..] {
          var i :| 0 <= i < |a[1..]| && a[1..][i] == x;
          assert Less(a[0], a[i + 1]);
          LessIrreflexive(x);
          assert x in b;
          assert x != b[0];
        }
        if x in b[1..] {
          var i :| 0 <= i < |b[1..]| && b[1..][i] == x;
          assert Less(b[0], b[i + 1]);
          LessIrreflexive(x);
          assert x in a;
          assert x != a[0];
        }
      }
      SortedUnique(a[1..], b[1..]);
      assert a == [a[0]] + a[1..] && b == [b[0]] + b[1..];
    }
  }

  /** The technologies whose keywords occur among the first `k` table
      entries of the lowercased requirements `content`. */
  function KeywordTechs(content: string, k: nat): set<string>
    requires k <= |Keywords|
  {
    if k == 0 then {}
    else KeywordTechs(content, k - 1) + (if Contains(content, Keywords[k - 1].0) then {Keywords[k - 1].1} else {})
  }

  /** The set `_detect_technologies` builds, from the requirements text
      (`None` when there is no readable `requirements.txt`), whether
      `package.json` exists and whether any `.go` file does. */
  function Detected(requirements: Option<string>, hasPackageJson: bool, hasGoFiles: bool): set<string> {
    (if requirements.Some? then KeywordTechs(Lower(requirements.value), |Keywords|) else {}) +
    (if hasPackageJson then {NodeTech} else {}) + (if hasGoFiles then {GoTech} else {})
  }

  /** The `for keyword, tech in keywords.items()` loop. */
  method MatchKeywords(content: string) returns (found: set<string>)
    ensures found == KeywordTechs(content, |Keywords|)
  {
    found := {};
    for k := 0 to |Keywords|
      invariant found == KeywordTechs(content, k)
    {
      if Contains(content, Keywords[k].0) {
        found := found + {Keywords[k].1};
      }
    }
  }

  /** `AnalysisEngine._detect_technologies`. */
  method DetectTechnologies(requirements: Option<string>, hasPackageJson: bool, hasGoFiles: bool)
    returns (techs: seq<string>)
    ensures Detected(requirements, hasPackageJson, hasGoFiles) == {} ==> techs == ["Python"]
    ensures Detected(requirements, hasPackageJson, hasGoFiles) != {} ==>
              StrictlySorted(techs) && forall t :: t in techs <==> t in Detected(requirements, hasPackageJson, hasGoFiles)
  {
    var found: set<string> := {};
    if requirements.Some? {
      found := MatchKeywords(Lower(requirements.value));
    }
    if hasPackageJson {
      found := found + {NodeTech};
    }
    if hasGoFiles {
      found := found + {GoTech};
    }
    if found == {} {
      return ["Python"];
    }
    assert found == Detected(requirements, hasPackageJson, hasGoFiles);
    DetectedInOrder(requirements, hasPackageJson, hasGoFiles);
    techs := Keep(AllTechs, found);
  }

  /** Keeping the detected technologies in the order of `AllTechs` sorts
      them. */
  lemma DetectedInOrder(requirements: Option<string>, hasPackageJson: bool, hasGoFiles: bool)
    ensures var found := Detected(requirements, hasPackageJson, hasGoFiles);
            StrictlySorted(Keep(AllTechs, found)) && forall t :: t in Keep(AllTechs, found) <==> t in found
  {
    DetectedAmongAllTechs(requirements, hasPackageJson, hasGoFiles);
    AllTechsSorted();
    KeepSorted(AllTechs, Detected(requirements, hasPackageJson, hasGoFiles));
  }

  /** Every detected technology is one the table, `package.json` or the Go
      check names. */
  lemma {:induction false} KeywordTechsAmongAllTechs(content: string, k: nat)
    requires k <= |Keywords|
    ensures forall t :: t in KeywordTechs(content, k) ==> t in AllTechs
  {
    if k > 0 {
      KeywordTechsAmongAllTechs(content, k - 1);
    }
  }

  lemma DetectedAmongAllTechs(requirements: Option<string>, hasPackageJson: bool, hasGoFiles: bool)
    ensures forall t :: t in Detected(requirements, hasPackageJson, hasGoFiles) ==> t in AllTechs
  {
    if requirements.Some? {
      KeywordTechsAmongAllTechs(Lower(requirements.value), |Keywords|);
    }
  }

  /** A technology is detected exactly when one of its keywords occurs in
      the lowercased requirements, or it is the `package.json` or Go
      technology and that file exists. */
  lemma {:induction false} KeywordTechsExactly(content: string, k: nat, t: string)
    requires k <= |Keywords|
    ensures t in KeywordTechs(content, k) <==> exists i :: 0 <= i < k && Keywords[i].1 == t && Contains(content, Keywords[i].0)
  {
    if k > 0 {
      KeywordTechsExactly(content, k - 1, t);
    }
  }

  lemma DetectedExactly(requirements: Option<string>, hasPackageJson: bool, hasGoFiles: bool, t: string)
    ensures t in Detected(requirements, hasPackageJson, hasGoFiles) <==>
              (requirements.Some? && exists i :: 0 <= i < |Keywords| && Keywords[i].1 == t && Contains(Lower(requirements.value), Keywords[i].0)) ||
              (hasPackageJson && t == NodeTech) || (hasGoFiles && t == GoTech)
  {
    if requirements.Some? {
      KeywordTechsExactly(Lower(requirements.value), |Keywords|, t);
    }
  }
}
