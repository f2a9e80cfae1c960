/** The backend services that read stored analyses. Storage is not part of
    this model: `analyses` stands for what `load_all_analyses` returned and
    `latest` for what `load_latest_analysis` returned (None when there is
    none). The four read services exist twice in the repository, in
    `backend/services/__init__.py` and in its earlier copy
    `backend/services.py`; this one model covers both. */
module Services {
  import opened Json
  import opened Text
  import opened Sequences
  import opened StoredAnalysis
  import AgentCoreIntegration
  import RecommendationEngine

  /** What a service returned, the `NotFoundError` it raised with its
      message, or the `TypeError` Python raises when a list or a dictionary
      is used as a dictionary key. */
  datatype Outcome<T> = Found(value: T) | NotFound(message: string) | Unhashable

  /** The message of `NotFoundError(resource)`: its constructor appends
      " not found" to the text it is given, so the services' own texts, which
      already end in "found", come out doubled ("No analyses found not
      found"). */
  function NotFoundMessage(resource: string): string {
    resource + " not found"
  }

  const NoAnalyses: string := "No analyses found"

  /** `AnalysisService.get_latest_analysis`: a missing or empty analysis is
      refused. */
  function GetLatestAnalysis(latest: Option<Analysis>): (r: Outcome<Analysis>)
    ensures r.Found? <==> latest.Some? && NonEmpty(latest.value)
    ensures r.Found? ==> r.value == latest.value
    ensures !r.Found? ==> r.NotFound? && r.message == "No analyses found not found"
  {
    if latest.Some? && NonEmpty(latest.value) then Found(latest.value) else NotFound(NotFoundMessage(NoAnalyses))
  }

  // ---------------------------------------------------------------------
  // One point per project: `get_timeline` and the AgentCore payload
  // ---------------------------------------------------------------------

  function Pair(a: Analysis): Project -> (Analysis, Project) {
    p => (a, p)
  }

  /** Every `(analysis, project)` in the order of the nested loops
      `for analysis in analyses: for project in analysis.get("projects", [])`. */
  function Pairs(analyses: seq<Analysis>): seq<(Analysis, Project)> {
    if analyses == [] then []
    else
      var last := analyses[|analyses| - 1];
      Pairs(analyses[..|analyses| - 1]) + MapSeq(ProjectsOf(last), Pair(last))
  }

  /** Finishing an analysis appends the pairs of its projects. */
  lemma PairsNext(analyses: seq<Analysis>, i: nat)
    requires i < |analyses|
    ensures Pairs(analyses[..i + 1]) == Pairs(analyses[..i]) + MapSeq(ProjectsOf(analyses[i]), Pair(analyses[i]))
  {
    assert analyses[..i + 1][..i] == analyses[..i];
  }

  /** One more project of the current analysis appends one pair. */
  lemma PairNext(a: Analysis, projects: seq<Project>, j: nat)
    requires j < |projects|
    ensures MapSeq(projects[..j + 1], Pair(a)) == MapSeq(projects[..j], Pair(a)) + [(a, projects[j])]
  {
    assert projects[..j + 1] == projects[..j] + [projects[j]];
    MapSeqSnoc(projects[..j], projects[j], Pair(a));
  }

  /** The pairs list the projects of every analysis in order, each with
      the analysis it belongs to. */
  lemma {:induction false} PairsFollowProjects(analyses: seq<Analysis>)
    ensures |Pairs(analyses)| == |AllProjects(analyses)|
    ensures forall k :: 0 <= k < |Pairs(analyses)| ==>
      Pairs(analyses)[k].1 == AllProjects(analyses)[k] &&
      Pairs(analyses)[k].0 in analyses && Pairs(analyses)[k].1 in ProjectsOf(Pairs(analyses)[k].0)
    decreases |analyses|
  {
    if analyses != [] {
      var init, last := analyses[..|analyses| - 1], analyses[|analyses| - 1];
      PairsFollowProjects(init);
      var ps, all := Pairs(analyses), AllProjects(analyses);
      assert ps == Pairs(init) + MapSeq(ProjectsOf(last), Pair(last));
      assert all == AllProjects(init) + ProjectsOf(last);
      forall k | 0 <= k < |ps|
        ensures ps[k].1 == all[k] && ps[k].0 in analyses && ps[k].1 in ProjectsOf(ps[k].0)
      {
        if k < |Pairs(init)| {
          assert ps[k] == Pairs(init)[k];
          assert init[..] <= analyses;
        } else {
          MapSeqAt(ProjectsOf(last), Pair(last), k - |Pairs(init)|);
        }
      }
    }
  }

  /** The inner loop over one analysis's projects, appending to `points`,
      the dictionaries of the pairs `before`. */
  method AppendProjectPoints(analysis: Analysis, point: ((Analysis, Project)) -> Json,
                             ghost before: seq<(Analysis, Project)>, points: seq<Json>)
    returns (after: seq<Json>)
    requires points == MapSeq(before, point)
    ensures after == MapSeq(before + MapSeq(ProjectsOf(analysis), Pair(analysis)), point)
  {
    after := points;
    var projects := ProjectsOf(analysis);
    ghost var seen := before;
    for j := 0 to |projects|
      invariant seen == before + MapSeq(projects[..j], Pair(analysis))
      invariant after == MapSeq(seen, point)
    {
      PairNext(analysis, projects, j);
      MapSeqSnoc(seen, (analysis, projects[j]), point);
      AppendSnoc(before, MapSeq(projects[..j], Pair(analysis)), (analysis, projects[j]));
      seen := seen + [(analysis, projects[j])];
      after := after + [point((analysis, projects[j]))];
    }
    assert projects[..|projects|] == projects;
  }

  /** The nested loops that build one dictionary per project with `point`,
      shared by `get_timeline` and the payload of
      `_invoke_agentcore_with_fallback`. */
  method ForEachProject(analyses: seq<Analysis>, point: ((Analysis, Project)) -> Json) returns (points: seq<Json>)
    ensures points == MapSeq(Pairs(analyses), point)
  {
    points := [];
    for i := 0 to |analyses|
      invariant points == MapSeq(Pairs(analyses[..i]), point)
    {
      points := AppendProjectPoints(analyses[i], point, Pairs(analyses[..i]), points);
      PairsNext(analyses, i);
    }
    assert analyses[..|analyses|] == analyses;
  }

  const Unknown: string := "unknown"

  /** `analysis.get("timestamp", "unknown")`. */
  function DateOf(a: Analysis): string {
    if a.timestamp.Some? then a.timestamp.value else Unknown
  }

  /** One point of `get_timeline`. */
  function TimelinePoint(pair: (Analysis, Project)): (j: Json)
    ensures j.Obj? && j.fields.Keys == {"date", "project_name", "complexity", "skills"}
    ensures pair.0.timestamp.None? ==> j.fields["date"] == Str("unknown")
    ensures pair.0.timestamp.Some? ==> j.fields["date"] == Str(pair.0.timestamp.value)
    ensures pair.1.name.None? ==> j.fields["project_name"] == Str("unknown")
    ensures pair.1.name.Some? ==> j.fields["project_name"] == Str(pair.1.name.value)
    ensures j.fields["complexity"] == Num(ScoreOf(pair.1)) && j.fields["skills"] == Arr(TechnologiesOf(pair.1))
  {
    Obj(map["date" := Str(DateOf(pair.0)), "project_name" := Str(NameOr(pair.1, Unknown)),
            "complexity" := Num(ScoreOf(pair.1)), "skills" := Arr(TechnologiesOf(pair.1))])
  }

  /** `TimelineService.get_timeline`. */
  method GetTimeline(analyses: seq<Analysis>) returns (timeline: seq<Json>)
    ensures timeline == MapSeq(Pairs(analyses), TimelinePoint)
  {
    timeline := ForEachProject(analyses, TimelinePoint);
  }

  /** The timeline has exactly one point per project of every analysis, in
      input order, each built from that project and its analysis. */
  lemma TimelineOnePointPerProject(analyses: seq<Analysis>)
    ensures var timeline := MapSeq(Pairs(analyses), TimelinePoint);
      |timeline| == ProjectCount(analyses) && |Pairs(analyses)| == |AllProjects(analyses)| &&
      forall k :: 0 <= k < |timeline| ==>
        Pairs(analyses)[k].1 == AllProjects(analyses)[k] && Pairs(analyses)[k].0 in analyses &&
        timeline[k] == TimelinePoint((Pairs(analyses)[k].0, AllProjects(analyses)[k]))
  {
    PairsFollowProjects(analyses);
    AllProjectsCount(analyses);
    forall k | 0 <= k < |Pairs(analyses)| {
      MapSeqAt(Pairs(analyses), TimelinePoint, k);
    }
  }

  // ---------------------------------------------------------------------
  // get_skills
  // ---------------------------------------------------------------------

  function Tagged(name: string): Json -> (Json, string) {
    t => (t, name)
  }

  function TechOf(pair: (Json, string)): Json {
    pair.0
  }

  /** `(technology, project name)` for every technology of every project,
      in the order of the nested loops of `get_skills`. */
  function TechNames(projects: seq<Project>): seq<(Json, string)> {
    if projects == [] then []
    else
      var last := projects[|projects| - 1];
      TechNames(projects[..|projects| - 1]) + MapSeq(TechnologiesOf(last), Tagged(NameOr(last, "")))
  }

  /** The distinct elements of `xs`, each where it first occurs: the keys of
      a dictionary filled in the order of `xs`. */
  function Distinct(xs: seq<Json>): seq<Json> {
    if xs == [] then []
    else
      var d := Distinct(xs[..|xs| - 1]);
      if xs[|xs| - 1] in d then d else d + [xs[|xs| - 1]]
  }

  /** Every element is kept, and nothing else appears. */
  lemma {:induction false} DistinctMembers(xs: seq<Json>)
    ensures forall x :: x in Distinct(xs) <==> x in xs
    decreases |xs|
  {
    if xs != [] {
      var init := xs[..|xs| - 1];
      assert xs == init + [xs[|xs| - 1]];
      DistinctMembers(init);
    }
  }

  /** No element is kept twice. */
  lemma {:induction false} DistinctNoRepeats(xs: seq<Json>)
    ensures forall i, j :: 0 <= i < j < |Distinct(xs)| ==> Distinct(xs)[i] != Distinct(xs)[j]
    decreases |xs|
  {
    if xs != [] {
      DistinctNoRepeats(xs[..|xs| - 1]);
    }
  }

  /** The position where `x` first occurs in `xs`. */
  function FirstIndex(xs: seq<Json>, x: Json): (i: nat)
    requires x in xs
    ensures i < |xs| && xs[i] == x
    ensures forall k :: 0 <= k < i ==> xs[k] != x
  {
    if xs[0] == x then 0 else 1 + FirstIndex(xs[1..], x)
  }

  lemma {:induction false} FirstIndexSnoc(xs: seq<Json>, y: Json, x: Json)
    requires x in xs
    ensures FirstIndex(xs + [y], x) == FirstIndex(xs, x)
  {
    var i := FirstIndex(xs, x);
    var ys := xs + [y];
    assert ys[i] == x;
    var j := FirstIndex(ys, x);
    assert j <= i;
    assert xs[j] == ys[j];
  }

  /** The keys come in the order their technologies are first seen. */
  lemma {:induction false} DistinctInFirstSeenOrder(xs: seq<Json>)
    ensures forall i :: 0 <= i < |Distinct(xs)| ==> Distinct(xs)[i] in xs
    ensures forall i, j :: 0 <= i < j < |Distinct(xs)| ==>
      Distinct(xs)[i] in xs && Distinct(xs)[j] in xs &&
      FirstIndex(xs, Distinct(xs)[i]) < FirstIndex(xs, Distinct(xs)[j])
    decreases |xs|
  {
    if xs != [] {
      var init, last := xs[..|xs| - 1], xs[|xs| - 1];
      assert xs == init + [last];
      DistinctInFirstSeenOrder(init);
      DistinctMembers(init);
      DistinctMembers(xs);
      var d := Distinct(init);
      forall i | 0 <= i < |d|
        ensures d[i] in xs && FirstIndex(xs, d[i]) == FirstIndex(init, d[i])
      {
        FirstIndexSnoc(init, last, d[i]);
      }
      if last !in d {
        assert forall q :: 0 <= q < |init| ==> xs[q] == init[q];
        assert FirstIndex(xs, last) == |init|;
        assert Distinct(xs) == d + [last];
        forall i, j | 0 <= i < j < |Distinct(xs)|
          ensures FirstIndex(xs, Distinct(xs)[i]) < FirstIndex(xs, Distinct(xs)[j])
        {
          if j == |d| {
            assert FirstIndex(init, d[i]) < |init|;
          }
        }
      } else {
        assert Distinct(xs) == d;
        forall i, j | 0 <= i < j < |d|
          ensures FirstIndex(xs, d[i]) < FirstIndex(xs, d[j])
        {
          assert FirstIndex(init, d[i]) < FirstIndex(init, d[j]);
        }
      }
    }
  }

  /** The names of the projects listing `t`, one per listing, in order. */
  function NamesFor(pairs: seq<(Json, string)>, t: Json): seq<string> {
    if pairs == [] then []
    else
      var last := pairs[|pairs| - 1];
      NamesFor(pairs[..|pairs| - 1], t) + (if last.0 == t then [last.1] else [])
  }

  /** A project name is listed under `t` exactly when that project lists
      `t`, and once per listing. */
  lemma {:induction false} NamesForExactly(pairs: seq<(Json, string)>, t: Json)
    ensures forall n :: n in NamesFor(pairs, t) <==> (t, n) in pairs
    ensures |NamesFor(pairs, t)| == multiset(MapSeq(pairs, TechOf))[t]
    decreases |pairs|
  {
    if pairs != [] {
      var init, last := pairs[..|pairs| - 1], pairs[|pairs| - 1];
      assert pairs == init + [last];
      NamesForExactly(init, t);
      MapSeqSnoc(init, last, TechOf);
    }
  }

  /** A technology not seen yet has no names. */
  lemma {:induction false} NamesForUnseen(pairs: seq<(Json, string)>, t: Json)
    requires t !in MapSeq(pairs, TechOf)
    ensures NamesFor(pairs, t) == []
    decreases |pairs|
  {
    if pairs != [] {
      var init, last := pairs[..|pairs| - 1], pairs[|pairs| - 1];
      MapSeqSnoc(init, last, TechOf);
      assert pairs == init + [last];
      NamesForUnseen(init, t);
    }
  }

  const SkillConfidence: real := 0.8

  /** One entry of `get_skills`. */
  function SkillJson(tech: Json, names: seq<string>): (j: Json)
    ensures j.Obj? && j.fields.Keys == {"name", "confidence", "projects"}
    ensures j.fields["name"] == tech && j.fields["confidence"] == Num(0.8)
    ensures j.fields["projects"] == Arr(Strs(names))
  {
    Obj(map["name" := tech, "confidence" := Num(SkillConfidence), "projects" := Arr(Strs(names))])
  }

  function SkillFor(pairs: seq<(Json, string)>): Json -> Json {
    t => SkillJson(t, NamesFor(pairs, t))
  }

  /** What `get_skills` returns. */
  function Skills(latest: Option<Analysis>): Outcome<seq<Json>> {
    var found := GetLatestAnalysis(latest);
    if !found.Found? then NotFound(NotFoundMessage(NoAnalyses))
    else
      var projects := ProjectsOf(found.value);
      if !AllHashable(projects) then Unhashable
      else
        var pairs := TechNames(projects);
        Found(MapSeq(Distinct(MapSeq(pairs, TechOf)), SkillFor(pairs)))
  }

  /** The `skills` dictionary of `get_skills`: its keys in insertion order
      and, per key, the list under `"projects"` (the other two fields of an
      entry are fixed by its key). */
  datatype SkillTable = SkillTable(order: seq<Json>, lists: map<Json, seq<string>>)

  const EmptyTable := SkillTable([], map[])

  /** One pass of the inner loop body: the entry is created with an empty
      list if missing, then the name is appended to its list. */
  function Insert(table: SkillTable, tech: Json, name: string): SkillTable {
    var order := if tech in table.lists then table.order else table.order + [tech];
    var lists := if tech in table.lists then table.lists else table.lists[tech := []];
    SkillTable(order, lists[tech := lists[tech] + [name]])
  }

  /** The dictionary after inserting the pairs `seen` in order. */
  function Table(seen: seq<(Json, string)>): SkillTable {
    if seen == [] then EmptyTable
    else Insert(Table(seen[..|seen| - 1]), seen[|seen| - 1].0, seen[|seen| - 1].1)
  }

  /** The keys are the distinct technologies seen, in the order first seen. */
  lemma {:induction false} TableOrder(seen: seq<(Json, string)>)
    ensures Table(seen).order == Distinct(MapSeq(seen, TechOf))
    ensures forall t :: t in Table(seen).lists <==> t in MapSeq(seen, TechOf)
    decreases |seen|
  {
    if seen != [] {
      var init, last := seen[..|seen| - 1], seen[|seen| - 1];
      var techs := MapSeq(init, TechOf);
      assert seen == init + [last];
      MapSeqSnoc(init, last, TechOf);
      assert (techs + [last.0])[..|techs|] == techs;
      TableOrder(init);
      DistinctMembers(techs);
    }
  }

  /** Under each key, the dictionary lists the names paired with it. */
  lemma {:induction false} TableNames(seen: seq<(Json, string)>)
    ensures forall t :: t in Table(seen).lists ==> Table(seen).lists[t] == NamesFor(seen, t)
    decreases |seen|
  {
    if seen != [] {
      var init, last := seen[..|seen| - 1], seen[|seen| - 1];
      TableNames(init);
      if last.0 !in Table(init).lists {
        TableOrder(init);
        NamesForUnseen(init, last.0);
      }
    }
  }

  /** Every key in the insertion order has its list of names. */
  lemma TableLists(seen: seq<(Json, string)>)
    ensures forall t :: t in Table(seen).order ==> t in Table(seen).lists && Table(seen).lists[t] == NamesFor(seen, t)
  {
    TableOrder(seen);
    TableNames(seen);
    DistinctMembers(MapSeq(seen, TechOf));
  }

  /** Inserting the technologies of one project under its name. */
  function InsertAll(table: SkillTable, techs: seq<Json>, name: string): SkillTable {
    if techs == [] then table
    else Insert(InsertAll(table, techs[..|techs| - 1], name), techs[|techs| - 1], name)
  }

  lemma {:induction false} InsertAllTable(seen: seq<(Json, string)>, techs: seq<Json>, name: string)
    ensures InsertAll(Table(seen), techs, name) == Table(seen + MapSeq(techs, Tagged(name)))
    decreases |techs|
  {
    if techs == [] {
      assert seen + MapSeq(techs, Tagged(name)) == seen;
    } else {
      var init, last := techs[..|techs| - 1], techs[|techs| - 1];
      InsertAllTable(seen, init, name);
      assert techs == init + [last];
      MapSeqSnoc(init, last, Tagged(name));
      AppendSnoc(seen, MapSeq(init, Tagged(name)), (last, name));
      var all := seen + MapSeq(techs, Tagged(name));
      assert all[..|all| - 1] == seen + MapSeq(init, Tagged(name));
    }
  }

  /** The dictionary after the nested loops over the first projects. */
  function GroupAll(projects: seq<Project>): SkillTable {
    if projects == [] then EmptyTable
    else
      var last := projects[|projects| - 1];
      InsertAll(GroupAll(projects[..|projects| - 1]), TechnologiesOf(last), NameOr(last, ""))
  }

  /** The nested loops insert exactly the pairs of `TechNames`. */
  lemma {:induction false} GroupAllTable(projects: seq<Project>)
    ensures GroupAll(projects) == Table(TechNames(projects))
    decreases |projects|
  {
    if projects != [] {
      var init, last := projects[..|projects| - 1], projects[|projects| - 1];
      GroupAllTable(init);
      InsertAllTable(TechNames(init), TechnologiesOf(last), NameOr(last, ""));
    }
  }

  /** The inner loop of `get_skills`: recording the technologies of one
      project under its name. It stops at the first technology that cannot
      be a dictionary key, where Python raises `TypeError`. */
  method GroupTechnologies(techs: seq<Json>, name: string, order: seq<Json>, lists: map<Json, seq<string>>)
    returns (hashable: bool, order': seq<Json>, lists': map<Json, seq<string>>)
    ensures hashable <==> forall k :: 0 <= k < |techs| ==> Hashable(techs[k])
    ensures hashable ==> SkillTable(order', lists') == InsertAll(SkillTable(order, lists), techs, name)
  {
    order', lists' := order, lists;
    for k := 0 to |techs|
      invariant forall q :: 0 <= q < k ==> Hashable(techs[q])
      invariant SkillTable(order', lists') == InsertAll(SkillTable(order, lists), techs[..k], name)
    {
      var tech := techs[k];
      if !Hashable(tech) {
        return false, order', lists';
      }
      if tech !in lists' {
        order' := order' + [tech];
        lists' := lists'[tech := []];
      }
      lists' := lists'[tech := lists'[tech] + [name]];
      assert techs[..k + 1][..k] == techs[..k];
    }
    assert techs[..|techs|] == techs;
    hashable := true;
  }

  /** The loops of `get_skills` over the projects of the latest analysis. */
  method GroupByTechnology(projects: seq<Project>) returns (hashable: bool, order: seq<Json>, lists: map<Json, seq<string>>)
    ensures hashable <==> AllHashable(projects)
    ensures hashable ==> SkillTable(order, lists) == GroupAll(projects)
  {
    order, lists := [], map[];
    for i := 0 to |projects|
      invariant forall i', k :: 0 <= i' < i && 0 <= k < |TechnologiesOf(projects[i'])| ==>
        Hashable(TechnologiesOf(projects[i'])[k])
      invariant SkillTable(order, lists) == GroupAll(projects[..i])
    {
      var ok;
      ok, order, lists := GroupTechnologies(TechnologiesOf(projects[i]), NameOr(projects[i], ""), order, lists);
      if !ok {
        return false, order, lists;
      }
      assert projects[..i + 1][..i] == projects[..i];
    }
    assert projects[..|projects|] == projects;
    hashable := true;
  }

  /** `list(skills.values())`. */
  method SkillValues(order: seq<Json>, lists: map<Json, seq<string>>, ghost pairs: seq<(Json, string)>)
    returns (skillList: seq<Json>)
    requires forall t :: t in order ==> t in lists && lists[t] == NamesFor(pairs, t)
    ensures skillList == MapSeq(order, SkillFor(pairs))
  {
    skillList := [];
    for k := 0 to |order|
      invariant skillList == MapSeq(order[..k], SkillFor(pairs))
    {
      assert order[..k + 1] == order[..k] + [order[k]];
      MapSeqSnoc(order[..k], order[k], SkillFor(pairs));
      skillList := skillList + [SkillJson(order[k], lists[order[k]])];
    }
    assert order[..|order|] == order;
  }

  /** `SkillsService.get_skills`. */
  method GetSkills(latest: Option<Analysis>) returns (r: Outcome<seq<Json>>)
    ensures r == Skills(latest)
  {
    var found := GetLatestAnalysis(latest);
    if !found.Found? {
      return NotFound(found.message);
    }
    var projects := ProjectsOf(found.value);
    var hashable, order, lists := GroupByTechnology(projects);
    if !hashable {
      return Unhashable;
    }
    GroupAllTable(projects);
    TableOrder(TechNames(projects));
    TableLists(TechNames(projects));
    var skillList := SkillValues(order, lists, TechNames(projects));
    return Found(skillList);
  }

  /** `get_skills` names every technology of the latest analysis exactly
      once, in the order first seen, with confidence 0.8 and the names of
      the projects that list it, once per listing. */
  lemma SkillsExactly(latest: Option<Analysis>)
    requires Skills(latest).Found?
    ensures var pairs := TechNames(ProjectsOf(latest.value));
            var techs := MapSeq(pairs, TechOf);
            var skills := Skills(latest).value;
            |skills| == |Distinct(techs)| &&
            (forall i :: 0 <= i < |skills| ==>
               skills[i] == SkillJson(Distinct(techs)[i], NamesFor(pairs, Distinct(techs)[i])) &&
               |NamesFor(pairs, Distinct(techs)[i])| == multiset(techs)[Distinct(techs)[i]]) &&
            (forall t :: t in techs <==> t in Distinct(techs)) &&
            (forall i, j :: 0 <= i < j < |skills| ==>
               skills[i].fields["name"] != skills[j].fields["name"] &&
               Distinct(techs)[i] in techs && Distinct(techs)[j] in techs &&
               FirstIndex(techs, Distinct(techs)[i]) < FirstIndex(techs, Distinct(techs)[j]))
  {
    var pairs := TechNames(ProjectsOf(latest.value));
    var techs := MapSeq(pairs, TechOf);
    var d := Distinct(techs);
    DistinctInFirstSeenOrder(techs);
    DistinctMembers(techs);
    DistinctNoRepeats(techs);
    var skills := Skills(latest).value;
    assert skills == MapSeq(d, SkillFor(pairs));
    forall i | 0 <= i < |d|
      ensures skills[i] == SkillJson(d[i], NamesFor(pairs, d[i]))
      ensures |NamesFor(pairs, d[i])| == multiset(techs)[d[i]]
    {
      MapSeqAt(d, SkillFor(pairs), i);
      NamesForExactly(pairs, d[i]);
    }
  }

  // ---------------------------------------------------------------------
  // get_complexity_breakdown
  // ---------------------------------------------------------------------

  /** `project.get("name", "").lower() == project_name.lower()`. */
  predicate NameMatches(p: Project, projectName: string) {
    Lower(NameOr(p, "")) == Lower(projectName)
  }

  /** The index of the first project whose name matches, or `|projects|`
      when none does. */
  function FirstMatch(projects: seq<Project>, projectName: string): (k: nat)
    ensures k <= |projects|
    ensures k < |projects| ==> NameMatches(projects[k], projectName)
    ensures forall i :: 0 <= i < k ==> !NameMatches(projects[i], projectName)
  {
    if projects == [] || NameMatches(projects[0], projectName) then 0
    else 1 + FirstMatch(projects[1..], projectName)
  }

  /** A loop that stops at the first match, or runs out, finds the same
      index. */
  lemma FirstMatchAt(projects: seq<Project>, projectName: string, i: nat)
    requires i <= |projects|
    requires i < |projects| ==> NameMatches(projects[i], projectName)
    requires forall q :: 0 <= q < i ==> !NameMatches(projects[q], projectName)
    ensures FirstMatch(projects, projectName) == i
  {
  }

  const Explanation: string :=
    "Complexity calculated using multi-factor analysis: files, functions, classes, and nesting depth"

  /** The breakdown of a project: its name (None when absent), its score and
      four component scores that are always 0.0. */
  function BreakdownJson(p: Project): (j: Json)
    ensures j.Obj? && j.fields.Keys ==
      {"project", "total_score", "file_score", "function_score", "class_score", "nesting_score", "explanation"}
    ensures j.fields["project"] == if p.name.Some? then Str(p.name.value) else Null
    ensures j.fields["total_score"] == Num(ScoreOf(p))
    ensures j.fields["file_score"] == j.fields["function_score"] == j.fields["class_score"] ==
            j.fields["nesting_score"] == Num(0.0)
  {
    Obj(map["project" := (if p.name.Some? then Str(p.name.value) else Null), "total_score" := Num(ScoreOf(p)),
            "file_score" := Num(0.0), "function_score" := Num(0.0), "class_score" := Num(0.0),
            "nesting_score" := Num(0.0), "explanation" := Str(Explanation)])
  }

  /** What `get_complexity_breakdown` returns. */
  function ComplexityBreakdown(latest: Option<Analysis>, projectName: string): Outcome<Json> {
    var found := GetLatestAnalysis(latest);
    if !found.Found? then NotFound(NotFoundMessage("No analyses available to find project " + projectName))
    else
      var projects := ProjectsOf(found.value);
      var k := FirstMatch(projects, projectName);
      if k < |projects| then Found(BreakdownJson(projects[k]))
      else NotFound(NotFoundMessage("Project " + projectName + " not found"))
  }

  /** `ComplexityService.get_complexity_breakdown`. */
  method GetComplexityBreakdown(latest: Option<Analysis>, projectName: string) returns (r: Outcome<Json>)
    ensures r == ComplexityBreakdown(latest, projectName)
  {
    var found := GetLatestAnalysis(latest);
    if !found.Found? {
      return NotFound(NotFoundMessage("No analyses available to find project " + projectName));
    }
    var projects := ProjectsOf(found.value);
    for i := 0 to |projects|
      invariant forall q :: 0 <= q < i ==> !NameMatches(projects[q], projectName)
    {
      if NameMatches(projects[i], projectName) {
        FirstMatchAt(projects, projectName, i);
        return Found(BreakdownJson(projects[i]));
      }
    }
    FirstMatchAt(projects, projectName, |projects|);
    return NotFound(NotFoundMessage("Project " + projectName + " not found"));
  }

  /** A breakdown is found exactly when the latest analysis has a project
      with that name, ignoring case, and it is the first such project's. */
  lemma BreakdownExactly(latest: Option<Analysis>, projectName: string)
    ensures var r := ComplexityBreakdown(latest, projectName);
      (r.Found? <==> latest.Some? && NonEmpty(latest.value) &&
                     exists i :: 0 <= i < |ProjectsOf(latest.value)| && NameMatches(ProjectsOf(latest.value)[i], projectName)) &&
      (r.Found? ==> exists i :: 0 <= i < |ProjectsOf(latest.value)| &&
                      NameMatches(ProjectsOf(latest.value)[i], projectName) &&
                      (forall q :: 0 <= q < i ==> !NameMatches(ProjectsOf(latest.value)[q], projectName)) &&
                      r.value == BreakdownJson(ProjectsOf(latest.value)[i])) &&
      (!(latest.Some? && NonEmpty(latest.value)) ==>
         r == NotFound("No analyses available to find project " + projectName + " not found")) &&
      (r.NotFound? && latest.Some? && NonEmpty(latest.value) ==> r.message == "Project " + projectName + " not found not found")
  {
  }

  // ---------------------------------------------------------------------
  // _extract_amazon_q_technologies
  // ---------------------------------------------------------------------

  /** `c.isspace()` in Python. */
  predicate IsSpace(c: char) {
    ('\t' <= c <= '\r') || ('\U{1c}' <= c <= ' ') || c == '\U{85}' || c == '\U{a0}' || c == '\U{1680}' ||
    ('\U{2000}' <= c <= '\U{200a}') || c == '\U{2028}' || c == '\U{2029}' || c == '\U{202f}' ||
    c == '\U{205f}' || c == '\U{3000}'
  }

  /** `s.strip()` is empty. */
  predicate Blank(s: string) {
    forall i :: 0 <= i < |s| ==> IsSpace(s[i])
  }

  /** `isinstance(tech, str) and tech.strip()`. */
  predicate Counts(tech: Json) {
    tech.Str? && !Blank(tech.s)
  }

  /** The counts after going through `xs` in order. */
  function Counted(xs: seq<Json>): map<string, nat> {
    if xs == [] then map[]
    else
      var counts := Counted(xs[..|xs| - 1]);
      var tech := xs[|xs| - 1];
      if Counts(tech) then counts[tech.s := (if tech.s in counts then counts[tech.s] else 0) + 1] else counts
  }

  /** Exactly the non-blank strings are counted, each by its number of
      occurrences. */
  lemma {:induction false} CountedExactly(xs: seq<Json>)
    ensures forall s :: s in Counted(xs) <==> Str(s) in xs && !Blank(s)
    ensures forall s :: s in Counted(xs) ==> Counted(xs)[s] == multiset(xs)[Str(s)]
    decreases |xs|
  {
    if xs != [] {
      var init, last := xs[..|xs| - 1], xs[|xs| - 1];
      assert xs == init + [last];
      CountedExactly(init);
    }
  }

  /** The technologies of the projects, in order. */
  function TechsOf(projects: seq<Project>): seq<Json> {
    if projects == [] then [] else TechsOf(projects[..|projects| - 1]) + TechnologiesOf(projects[|projects| - 1])
  }

  lemma TechsOfSnoc(projects: seq<Project>, p: Project)
    ensures TechsOf(projects + [p]) == TechsOf(projects) + TechnologiesOf(p)
  {
    assert (projects + [p])[..|projects|] == projects;
  }

  lemma CountedNext(xs: seq<Json>, ys: seq<Json>, k: nat)
    requires k < |ys|
    ensures Counted(xs + ys[..k + 1]) ==
      var counts := Counted(xs + ys[..k]);
      if Counts(ys[k]) then counts[ys[k].s := (if ys[k].s in counts then counts[ys[k].s] else 0) + 1] else counts
  {
    assert (xs + ys[..k + 1])[..|xs + ys[..k + 1]| - 1] == xs + ys[..k];
  }

  /** The innermost loop of `_extract_amazon_q_technologies`: counting the
      technologies of one project on top of the counts so far. */
  method CountTechnologies(techCounts: map<string, nat>, ghost before: seq<Json>, technologies: seq<Json>)
    returns (counts: map<string, nat>)
    requires techCounts == Counted(before)
    ensures counts == Counted(before + technologies)
  {
    counts := techCounts;
    assert before + technologies[..0] == before;
    for k := 0 to |technologies|
      invariant counts == Counted(before + technologies[..k])
    {
      CountedNext(before, technologies, k);
      var tech := technologies[k];
      if tech.Str? && !Blank(tech.s) {
        counts := counts[tech.s := (if tech.s in counts then counts[tech.s] else 0) + 1];
      }
    }
    assert technologies[..|technologies|] == technologies;
  }

  /** `DevelopmentSignatureService._extract_amazon_q_technologies`. */
  method ExtractAmazonQTechnologies(analyses: seq<Analysis>) returns (techCounts: map<string, nat>)
    ensures techCounts == Counted(TechsOf(AllProjects(analyses)))
  {
    techCounts := map[];
    for i := 0 to |analyses|
      invariant techCounts == Counted(TechsOf(AllProjects(analyses[..i])))
    {
      var projects := ProjectsOf(analyses[i]);
      assert ProjectsSoFar(analyses, i, 0) == AllProjects(analyses[..i]);
      for j := 0 to |projects|
        invariant techCounts == Counted(TechsOf(ProjectsSoFar(analyses, i, j)))
      {
        techCounts := CountTechnologies(techCounts, TechsOf(ProjectsSoFar(analyses, i, j)), TechnologiesOf(projects[j]));
        NextProject(analyses, i, j);
        TechsOfSnoc(ProjectsSoFar(analyses, i, j), projects[j]);
      }
      NextAnalysis(analyses, i);
    }
    assert analyses[..|analyses|] == analyses;
  }

  /** Each non-blank string technology is mapped to the number of times it
      is listed over all projects of all analyses; nothing else is a key. */
  lemma TechnologyCounts(analyses: seq<Analysis>)
    ensures var counts := Counted(TechsOf(AllProjects(analyses)));
            var listed := TechsOf(AllProjects(analyses));
            (forall s :: s in counts <==> Str(s) in listed && !Blank(s)) &&
            (forall s :: s in counts ==> counts[s] == multiset(listed)[Str(s)])
  {
    CountedExactly(TechsOf(AllProjects(analyses)));
  }

  // ---------------------------------------------------------------------
  // _invoke_agentcore_with_fallback
  // ---------------------------------------------------------------------

  /** One project of the AgentCore payload: unlike the timeline, a missing
      timestamp becomes 0. */
  function PayloadProject(pair: (Analysis, Project)): (j: Json)
    ensures j.Obj? && j.fields.Keys == {"name", "complexity_score", "skills", "timestamp"}
    ensures pair.0.timestamp.None? ==> j.fields["timestamp"] == Num(0.0)
    ensures pair.0.timestamp.Some? ==> j.fields["timestamp"] == Str(pair.0.timestamp.value)
    ensures pair.1.name.None? ==> j.fields["name"] == Str("unknown")
    ensures j.fields["complexity_score"] == Num(ScoreOf(pair.1)) && j.fields["skills"] == Arr(TechnologiesOf(pair.1))
  {
    Obj(map["name" := Str(NameOr(pair.1, Unknown)), "complexity_score" := Num(ScoreOf(pair.1)),
            "skills" := Arr(TechnologiesOf(pair.1)),
            "timestamp" := if pair.0.timestamp.Some? then Str(pair.0.timestamp.value) else Num(0.0)])
  }

  /** What `_invoke_agentcore_with_fallback` returned, or the
      `RecommendationEngineError` its fallback raised. */
  datatype Invoked = Invoked(value: Json) | RecommendationEngineError(cause: RecommendationEngine.Generated)

  const AgentCoreModel: string := "bedrock-agentcore-janus"

  /** The result when AgentCore answered with a dictionary. */
  function Enhanced(response: map<string, Json>, patterns: Json, techCount: nat): Json {
    Obj(map["patterns" := Get(response, "patterns", patterns),
            "recommendations" := Get(response, "recommendations", Arr([])),
            "insights" := Obj(map["from_agentcore" := Bool(true), "model" := Str(AgentCoreModel),
                                  "amazon_q_technologies_provided" := Num(techCount as real)]),
            "agentcore_available" := Bool(true)])
  }

  /** The result of the local fallback. */
  function Fallback(patterns: Json, recommendations: Json, reason: string): Json {
    Obj(map["patterns" := patterns, "recommendations" := recommendations,
            "insights" := Obj(map["from_agentcore" := Bool(false), "fallback_reason" := Str(reason),
                                  "local_analysis_only" := Bool(true)]),
            "agentcore_available" := Bool(false)])
  }

  /** Whether AgentCore's answer is used: `detect_patterns` returned, and
      returned a dictionary (on anything else the `.get` calls raise
      inside the `try`). */
  predicate Usable(answer: AgentCoreIntegration.Answer) {
    answer.Answer? && answer.value.Obj?
  }

  /** `str(e)` for the exception that selected the fallback; `noGet` stands
      for the text of the AttributeError `.get` raises on a value that is
      not a dictionary. */
  function FallbackReason(answer: AgentCoreIntegration.Answer, noGet: Json -> string): string {
    if answer.IntegrationError? then answer.message else noGet(answer.value)
  }

  /** The recommendation engine the service holds, as the function from
      `(patterns, preferences, trajectory)` to its outcome. */
  type Engine = (Json, Json, Json) -> RecommendationEngine.Generated

  /** `RecommendationEngine.generate_recommendations`, with `format1` for
      Python's `f"{x:.1f}"`. */
  function LocalEngine(format1: real -> string): Engine {
    (patterns, preferences, trajectory) =>
      RecommendationEngine.Generate(patterns, preferences, trajectory, RecommendationEngine.Recommender(format1))
  }

  /** The AgentCore caller the service holds, as the function from the
      payload's projects to what its `detect_patterns` returned or raised. */
  type Detector = seq<Json> -> AgentCoreIntegration.Answer

  /** `AgentCoreCaller.detect_patterns` over a client whose behaviour on the
      payload is `call`. */
  function CallerDetector(call: seq<Json> -> AgentCoreIntegration.Reply, parse: string -> Option<Json>): Detector {
    projects => AgentCoreIntegration.DetectPatterns(call(projects), parse)
  }

  /** The `try`/`except` of `_invoke_agentcore_with_fallback`, given what
      `detect_patterns` answered: AgentCore's dictionary when there is one,
      otherwise the local engine's recommendations, or the
      `RecommendationEngineError` the fallback raises when the engine
      refuses. The engine only runs on the fallback path. */
  function Decide(answer: AgentCoreIntegration.Answer, techCount: nat, patterns: Json,
                  preferences: Json, trajectory: Json, noGet: Json -> string, engine: Engine): Invoked
  {
    if Usable(answer) then Invoked(Enhanced(answer.value.fields, patterns, techCount))
    else
      var local := engine(patterns, preferences, trajectory);
      if local.Recommendations? then Invoked(Fallback(patterns, local.value, FallbackReason(answer, noGet)))
      else RecommendationEngineError(local)
  }

  /** What `_invoke_agentcore_with_fallback` does. */
  function InvokeWithFallback(analyses: seq<Analysis>, techCounts: map<string, nat>, patterns: Json,
                              preferences: Json, trajectory: Json,
                              detect: Detector, noGet: Json -> string, engine: Engine): Invoked
  {
    Decide(detect(MapSeq(Pairs(analyses), PayloadProject)), |techCounts|, patterns, preferences, trajectory, noGet, engine)
  }

  /** `DevelopmentSignatureService._invoke_agentcore_with_fallback`. */
  method InvokeAgentCoreWithFallback(analyses: seq<Analysis>, techCounts: map<string, nat>, patterns: Json,
                                     preferences: Json, trajectory: Json,
                                     detect: Detector, noGet: Json -> string, engine: Engine)
    returns (r: Invoked)
    ensures r == InvokeWithFallback(analyses, techCounts, patterns, preferences, trajectory, detect, noGet, engine)
  {
    var projects := ForEachProject(analyses, PayloadProject);
    r := Decide(detect(projects), |techCounts|, patterns, preferences, trajectory, noGet, engine);
  }

  /** `agentcore_available` is true exactly when AgentCore answered with a
      dictionary; otherwise the local patterns and recommendations are used,
      or the fallback raises because the engine refused its inputs. */
  lemma AgentCoreAvailableExactly(answer: AgentCoreIntegration.Answer, techCount: nat, patterns: Json,
                                  preferences: Json, trajectory: Json, noGet: Json -> string, engine: Engine)
    ensures var r := Decide(answer, techCount, patterns, preferences, trajectory, noGet, engine);
            var local := engine(patterns, preferences, trajectory);
            (r.RecommendationEngineError? <==> !Usable(answer) && !local.Recommendations?) &&
            (r.Invoked? ==> r.value.Obj? && "agentcore_available" in r.value.fields &&
                            (r.value.fields["agentcore_available"] == Bool(true) <==> Usable(answer))) &&
            (r.Invoked? && !Usable(answer) ==>
               r.value.fields["patterns"] == patterns && r.value.fields["recommendations"] == local.value)
  {
  }

  /** A failure of the caller's client, raised or unparsable, always
      selects the fallback, with the caller's message as the reason. */
  lemma CallerFailureFallsBack(reply: AgentCoreIntegration.Reply, parse: string -> Option<Json>, techCount: nat,
                               patterns: Json, preferences: Json, trajectory: Json, noGet: Json -> string, engine: Engine)
    requires AgentCoreIntegration.DetectPatterns(reply, parse).IntegrationError?
    ensures var answer := AgentCoreIntegration.DetectPatterns(reply, parse);
            var local := engine(patterns, preferences, trajectory);
            IsPrefix("Pattern detection failed: ", answer.message) &&
            (local.Recommendations? ==>
               Decide(answer, techCount, patterns, preferences, trajectory, noGet, engine) ==
               Invoked(Fallback(patterns, local.value, answer.message)))
  {
  }

  /** When AgentCore is not usable, the recommendations of the local
      engine's fallback pass `validate_recommendations`. */
  lemma FallbackRecommendationsValidate(answer: AgentCoreIntegration.Answer, techCount: nat, patterns: Json,
                                        preferences: Json, trajectory: Json, noGet: Json -> string,
                                        format1: real -> string)
    requires !Usable(answer)
    requires LocalEngine(format1)(patterns, preferences, trajectory).Recommendations?
    ensures var r := Decide(answer, techCount, patterns, preferences, trajectory, noGet, LocalEngine(format1));
            r.Invoked? && r.value.Obj? && "recommendations" in r.value.fields &&
            RecommendationEngine.ValidateRecommendations(r.value.fields["recommendations"]) == Passed
  {
    var local := LocalEngine(format1)(patterns, preferences, trajectory);
    RecommendationEngine.GeneratedValidates(patterns, preferences, trajectory, format1);
    FallbackKeepsRecommendations(patterns, local.value, FallbackReason(answer, noGet));
  }

  lemma FallbackKeepsRecommendations(patterns: Json, recommendations: Json, reason: string)
    ensures Fallback(patterns, recommendations, reason).Obj?
    ensures "recommendations" in Fallback(patterns, recommendations, reason).fields
    ensures Fallback(patterns, recommendations, reason).fields["recommendations"] == recommendations
  {
  }
}
