/** Stored analyses as the backend services read them: each analysis has an
    optional timestamp and an optional list of projects, and each project an
    optional name, complexity score and technology list. An absent key is
    `None`, so that every `.get(key, default)` of the services can be
    written out; the other keys of an analysis are kept only so that its
    truthiness is right. */
module StoredAnalysis {
  import opened Json

  datatype Project = Project(name: Option<string>, complexityScore: Option<real>, technologies: Option<seq<Json>>)

  datatype Analysis = Analysis(timestamp: Option<string>, projects: Option<seq<Project>>, others: map<string, Json>)

  /** An analysis dictionary is truthy when it has any key at all. */
  predicate NonEmpty(a: Analysis) {
    a.timestamp.Some? || a.projects.Some? || a.others != map[]
  }

  /** `analysis.get("projects", [])`. */
  function ProjectsOf(a: Analysis): seq<Project> {
    if a.projects.Some? then a.projects.value else []
  }

  /** `project.get("technologies", [])`. */
  function TechnologiesOf(p: Project): seq<Json> {
    if p.technologies.Some? then p.technologies.value else []
  }

  /** `project.get("complexity_score", 0)`. */
  function ScoreOf(p: Project): real {
    if p.complexityScore.Some? then p.complexityScore.value else 0.0
  }

  /** `project.get("name", default)`. */
  function NameOr(p: Project, default: string): string {
    if p.name.Some? then p.name.value else default
  }

  /** Every project of every analysis, in order. */
  function AllProjects(analyses: seq<Analysis>): (ps: seq<Project>)
    ensures analyses == [] ==> ps == []
  {
    if analyses == [] then []
    else AllProjects(analyses[..|analyses| - 1]) + ProjectsOf(analyses[|analyses| - 1])
  }

  /** The number of projects over all analyses. */
  function ProjectCount(analyses: seq<Analysis>): nat {
    if analyses == [] then 0 else |ProjectsOf(analyses[0])| + ProjectCount(analyses[1..])
  }

  /** Flattening from the back and counting from the front agree. */
  lemma {:induction false} AllProjectsCount(analyses: seq<Analysis>)
    ensures |AllProjects(analyses)| == ProjectCount(analyses)
    decreases |analyses|
  {
    if analyses != [] {
      var init := analyses[..|analyses| - 1];
      AllProjectsCount(init);
      ProjectCountSnoc(init, analyses[|analyses| - 1]);
      assert init + [analyses[|analyses| - 1]] == analyses;
    }
  }

  lemma {:induction false} ProjectCountSnoc(analyses: seq<Analysis>, a: Analysis)
    ensures ProjectCount(analyses + [a]) == ProjectCount(analyses) + |ProjectsOf(a)|
    decreases |analyses|
  {
    if analyses != [] {
      assert (analyses + [a])[1..] == analyses[1..] + [a];
      ProjectCountSnoc(analyses[1..], a);
    } else {
      assert ([] + [a])[1..] == [];
    }
  }

  /** One step of the nested `for analysis … for project …` loop: the
      projects of the first `i` analyses and the first `j` projects of the
      next one. */
  function ProjectsSoFar(analyses: seq<Analysis>, i: nat, j: nat): seq<Project>
    requires i < |analyses| && j <= |ProjectsOf(analyses[i])|
  {
    AllProjects(analyses[..i]) + ProjectsOf(analyses[i])[..j]
  }

  /** Taking one more project of the current analysis appends it. */
  lemma NextProject(analyses: seq<Analysis>, i: nat, j: nat)
    requires i < |analyses| && j < |ProjectsOf(analyses[i])|
    ensures ProjectsSoFar(analyses, i, j + 1) == ProjectsSoFar(analyses, i, j) + [ProjectsOf(analyses[i])[j]]
  {
    var ps := ProjectsOf(analyses[i]);
    assert ps[..j + 1] == ps[..j] + [ps[j]];
  }

  /** Finishing an analysis is the same as starting the next one, or as
      having seen them all. */
  lemma NextAnalysis(analyses: seq<Analysis>, i: nat)
    requires i < |analyses|
    ensures AllProjects(analyses[..i + 1]) == ProjectsSoFar(analyses, i, |ProjectsOf(analyses[i])|)
  {
    var ps := ProjectsOf(analyses[i]);
    assert analyses[..i + 1][..i] == analyses[..i];
    assert ps[..|ps|] == ps;
  }

  /** A value Python can put in a set or use as a dictionary key. */
  predicate Hashable(j: Json) {
    !j.Arr? && !j.Obj?
  }

  /** No technology of any project is a list or a dictionary. */
  predicate AllHashable(projects: seq<Project>) {
    forall i, k :: 0 <= i < |projects| && 0 <= k < |TechnologiesOf(projects[i])| ==>
      Hashable(TechnologiesOf(projects[i])[k])
  }

  /** The projects of the first `k` analyses come first among all projects. */
  lemma {:induction false} AllProjectsPrefix(analyses: seq<Analysis>, k: nat)
    requires k <= |analyses|
    ensures AllProjects(analyses[..k]) <= AllProjects(analyses)
    decreases |analyses|
  {
    if k < |analyses| {
      var init := analyses[..|analyses| - 1];
      assert init[..k] == analyses[..k];
      AllProjectsPrefix(init, k);
    } else {
      assert analyses[..k] == analyses;
    }
  }

  /** The project the nested loop reaches at `(i, j)` sits at the position
      of the projects seen before it among all projects. */
  lemma ProjectReached(analyses: seq<Analysis>, i: nat, j: nat)
    requires i < |analyses| && j < |ProjectsOf(analyses[i])|
    ensures |ProjectsSoFar(analyses, i, j)| < |AllProjects(analyses)|
    ensures AllProjects(analyses)[|ProjectsSoFar(analyses, i, j)|] == ProjectsOf(analyses[i])[j]
  {
    NextProject(analyses, i, j);
    NextAnalysis(analyses, i);
    AllProjectsPrefix(analyses, i + 1);
    var ps := ProjectsOf(analyses[i]);
    assert ProjectsSoFar(analyses, i, j + 1) <= ProjectsSoFar(analyses, i, |ps|) by {
      assert ps[..j + 1] <= ps;
    }
  }
}
