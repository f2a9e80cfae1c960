/** `_mock_analysis` of the oracle caller: a fixed record for the two known
    repository names, a generic record otherwise, tagged `source: "mock"`. */
module MockAnalysis {
  import opened Json
  import opened Text
  import opened ResponseValidator

  /** The contents of one mock record. */
  datatype MockData = MockData(
    score: real, technologies: seq<string>, patterns: seq<string>, skill: string,
    title: string, description: string, readiness: string, why: string, reasoning: string)

  function Recommendation(title: string, description: string, readiness: string, why: string): Json {
    Obj(map["title" := Str(title), "description" := Str(description), "readiness" := Str(readiness), "why" := Str(why)])
  }

  /** The record a mock entry stands for: six keys, one recommendation. */
  function Render(d: MockData): (r: Json)
    ensures r.Obj?
  {
    Record(Num(d.score), Strs(d.technologies), Strs(d.patterns), d.skill,
           [Recommendation(d.title, d.description, d.readiness, d.why)], d.reasoning)
  }

  /** `result["source"] = value` on a dictionary. */
  function Tag(record: Json, value: string): Json
    requires record.Obj?
  {
    Obj(record.fields["source" := Str(value)])
  }

  const AriadneData := MockData(
    7.2, ["Python", "AWS Bedrock", "FastAPI", "AgentCore"],
    ["You build well-structured async systems", "You favor cloud-native architecture",
     "You integrate AI agents effectively"],
    "advanced",
    "Event-Driven Architecture", "Your async patterns + cloud background make you ready for Kafka/SQS",
    "ready", "You already think in async - event streams are natural next step",
    "Advanced async architecture with clear AI integration patterns")

  const TicketGlassData := MockData(
    8.1, ["TypeScript", "React", "AWS", "AgentCore"],
    ["You build production-grade systems", "You avoid over-engineering", "You think about scalability from start"],
    "advanced",
    "Distributed Systems", "Your production experience + scale thinking prepare you for microservices",
    "ready", "You've proven you can build systems that work at scale",
    "Production-grade system with clear performance optimization")

  const GenericData := MockData(
    6.5, ["Python", "Git"], ["Steady coder", "Learning continuously"], "intermediate",
    "Continue Building", "Keep shipping projects to grow your skills",
    "now", "The best way to learn is by building real things",
    "Growing coder with solid foundations")

  /** The mock entry for a repository's base name. */
  function MockDataFor(repoName: string): MockData {
    if repoName == "Ariadne-Clew" then AriadneData
    else if repoName == "TicketGlass" then TicketGlassData
    else GenericData
  }

  /** The mock record before tagging. */
  function MockRecord(repoName: string): (r: Json)
    ensures r.Obj?
  {
    Render(MockDataFor(repoName))
  }

  /** `_mock_analysis(repo_path)` for a path whose base name is `repoName`. */
  function MockAnalysisFor(repoName: string): (r: Json)
    ensures r.Obj? && "source" in r.fields && r.fields["source"] == Str("mock")
  {
    Tag(MockRecord(repoName), "mock")
  }

  /** What a mock entry needs for its record to pass the validator. No
      condition is placed on `readiness`. */
  predicate DataOk(d: MockData) {
    0.0 <= d.score <= 10.0 && d.technologies != [] && d.skill in SkillLevels && NoUpper(d.skill)
  }

  lemma RenderValid(d: MockData)
    requires DataOk(d)
    ensures Validate(Render(d)) == Accepted
  {
    LowerOfLowercase(d.skill);
    var recommendations := [Recommendation(d.title, d.description, d.readiness, d.why)];
    var m := recommendations[0].fields;
    assert "title" in m && "description" in m && "readiness" in m && "why" in m;
    assert RecommendationOk(recommendations[0]);
    RecordVerdict(Num(d.score), Strs(d.technologies), Strs(d.patterns), d.skill, recommendations, d.reasoning);
  }

  /** The three entries, the generic one's readiness "now" included. */
  lemma MockDataOk(repoName: string)
    ensures DataOk(MockDataFor(repoName))
  {
  }

  /** Every mock record passes the response validator. */
  lemma MockRecordValid(repoName: string)
    ensures Validate(MockRecord(repoName)) == Accepted
  {
    MockDataOk(repoName);
    RenderValid(MockDataFor(repoName));
  }

  /** The `source` key is not one of the six the validator looks at. */
  lemma SourceNotRequired()
    ensures forall i :: 0 <= i < |RequiredFields| ==> "source" != RequiredFields[i].0
  {
  }

  /** Tagging an accepted record with `source` keeps it accepted. */
  lemma TagKeepsValid(record: Json, value: string)
    requires record.Obj? && Validate(record) == Accepted
    ensures Validate(Tag(record, value)) == Accepted
  {
    SourceNotRequired();
    ExtraKeyIrrelevant(record.fields, "source", Str(value));
  }

  /** Whatever the repository name, the fallback analysis passes the
      validator and is tagged "mock". */
  lemma MockAlwaysValid(repoName: string)
    ensures Validate(MockAnalysisFor(repoName)) == Accepted
    ensures MockAnalysisFor(repoName).fields["source"] == Str("mock")
  {
    MockRecordValid(repoName);
    TagKeepsValid(MockRecord(repoName), "mock");
  }
}
