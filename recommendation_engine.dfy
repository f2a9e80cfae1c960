/** The backend recommendation engine: four fixed rules over the detected
    patterns and the learning trajectory, and the validator of their output.
    An exception raised while a rule is evaluated (an attribute lookup or a
    comparison on a value of the wrong type) is caught and reported as a
    failed generation. `format1` stands for `format(x, '.1f')`. */
module RecommendationEngine {
  import opened Json
  import opened Text
  import opened Numeric
  import opened Sequences

  /** What `generate_recommendations` did: returned the dictionary, or
      raised `RecommendationEngineError` because an input was falsy or
      because a rule raised. */
  datatype Generated = Recommendations(value: Json) | MissingInputs | GenerationFailed

  /** The recommendations the engine knows. The event-driven one quotes the
      growth rate and the trend of the trajectory in its evidence. */
  datatype Advice = PostgresAdvice | EventDrivenAdvice(rate: real, trend: string) | LeadershipAdvice | SpecializationAdvice

  /** The values `for pattern in patterns.get("patterns", [])` runs over;
      None when the loop raises: the value is not iterable, or it is a
      non-empty string or dictionary, whose first item (a string) has no
      `.get`. */
  function PatternItems(patterns: Json): Option<seq<Json>> {
    if !patterns.Obj? then None
    else
      match Get(patterns.fields, "patterns", Arr([]))
      case Arr(xs) => Some(xs)
      case Str(s) => if s == [] then Some([]) else None
      case Obj(m) => if m == map[] then Some([]) else None
      case _ => None
  }

  /** The name test of the two pattern lookups: the pattern must be a
      dictionary whose name (default "") is a string. */
  function NameMatches(p: Json, keyword: string): Option<bool> {
    if !p.Obj? then None
    else
      var name := Get(p.fields, "name", Str(""));
      if !name.Str? then None else Some(Contains(Lower(name.s), Lower(keyword)))
  }

  /** The loop of `_has_pattern`. */
  function HasPatternIn(items: seq<Json>, keyword: string): Option<bool> {
    if items == [] then Some(false)
    else
      match NameMatches(items[0], keyword)
      case None => None
      case Some(hit) => if hit then Some(true) else HasPatternIn(items[1..], keyword)
  }

  /** `_has_pattern(patterns, keyword)`. */
  function HasPattern(patterns: Json, keyword: string): Option<bool> {
    match PatternItems(patterns)
    case None => None
    case Some(items) => HasPatternIn(items, keyword)
  }

  /** The loop of `_get_pattern_impact`. */
  function ImpactIn(items: seq<Json>, keyword: string): Option<bool> {
    if items == [] then Some(false)
    else
      match NameMatches(items[0], keyword)
      case None => None
      case Some(hit) =>
        if hit then Some(Truthy(Get(items[0].fields, "impact", Null))) else ImpactIn(items[1..], keyword)
  }

  /** `_get_pattern_impact(patterns, keyword)`. */
  function PatternImpact(patterns: Json, keyword: string): Option<bool> {
    match PatternItems(patterns)
    case None => None
    case Some(items) => ImpactIn(items, keyword)
  }

  /** A pattern both lookups can read: a dictionary with a string name. */
  predicate Readable(p: Json) {
    p.Obj? && Get(p.fields, "name", Str("")).Str?
  }

  function NameOf(p: Json): string
    requires Readable(p)
  {
    Get(p.fields, "name", Str("")).s
  }

  /** Over readable patterns, `_has_pattern` is a case-insensitive
      substring test on the names. */
  lemma {:induction false} HasPatternExactly(items: seq<Json>, keyword: string)
    requires forall i :: 0 <= i < |items| ==> Readable(items[i])
    ensures HasPatternIn(items, keyword) ==
      Some(exists i :: 0 <= i < |items| && Contains(Lower(NameOf(items[i])), Lower(keyword)))
    decreases |items|
  {
    if items != [] {
      HasPatternExactly(items[1..], keyword);
      assert forall i :: 1 <= i < |items| ==> items[i] == items[1..][i - 1];
    }
  }

  /** `_get_pattern_impact` reports the truthiness of the impact of the
      first pattern whose name matches. */
  lemma {:induction false} ImpactOfFirstMatch(items: seq<Json>, keyword: string, i: nat)
    requires i < |items| && forall k :: 0 <= k <= i ==> Readable(items[k])
    requires Contains(Lower(NameOf(items[i])), Lower(keyword))
    requires forall k :: 0 <= k < i ==> !Contains(Lower(NameOf(items[k])), Lower(keyword))
    ensures ImpactIn(items, keyword) == Some(Truthy(Get(items[i].fields, "impact", Null)))
    decreases i
  {
    if i > 0 {
      ImpactOfFirstMatch(items[1..], keyword, i - 1);
    }
  }

  /** Without a matching pattern the impact lookup is false. */
  lemma {:induction false} NoMatchNoImpact(items: seq<Json>, keyword: string)
    requires forall k :: 0 <= k < |items| ==> Readable(items[k]) && !Contains(Lower(NameOf(items[k])), Lower(keyword))
    ensures ImpactIn(items, keyword) == Some(false)
    decreases |items|
  {
    if items != [] {
      NoMatchNoImpact(items[1..], keyword);
    }
  }

  const CommonTechs: set<string> := {"PostgreSQL", "Python", "TypeScript", "JavaScript", "AWS", "Bedrock",
                                     "AgentCore", "LangChain", "React", "FastAPI", "Docker", "Kubernetes"}

  /** The common technologies one pattern's evidence mentions; the pattern
      must be a dictionary whose evidence (default "") is a string. */
  function MentionedIn(p: Json): Option<set<string>>
  {
    if !p.Obj? then None
    else
      var evidence := Get(p.fields, "evidence", Str(""));
      if !evidence.Str? then None
      else Some(set t | t in CommonTechs && Contains(Lower(evidence.s), Lower(t)))
  }

  function MentionedInAll(items: seq<Json>): Option<set<string>>
  {
    if items == [] then Some({})
    else
      match MentionedIn(items[0])
      case None => None
      case Some(here) =>
        match MentionedInAll(items[1..])
        case None => None
        case Some(rest) => Some(here + rest)
  }

  /** `_extract_technologies(patterns)`. */
  function ExtractTechnologies(patterns: Json): Option<set<string>>
  {
    match PatternItems(patterns)
    case None => None
    case Some(items) => MentionedInAll(items)
  }

  /** Rule 1: async and database patterns, and an impact on the database
      avoidance or the async-first pattern. */
  function PostgresRule(patterns: Json): Option<bool> {
    match HasPattern(patterns, "async")
    case None => None
    case Some(isAsync) =>
      if !isAsync then Some(false)
      else match HasPattern(patterns, "database")
      case None => None
      case Some(isDb) =>
        if !isDb then Some(false)
        else match PatternImpact(patterns, "database avoidance")
        case None => None
        case Some(avoid) => if avoid then Some(true) else PatternImpact(patterns, "async-first")
  }

  const Trends: seq<Json> := [Str("accelerating"), Str("steady")]

  /** The growth rate the trajectory reports, 1 by default. */
  function GrowthRate(trajectory: Json): Json
    requires trajectory.Obj?
  {
    Get(trajectory.fields, "growth_rate", Num(1.0))
  }

  /** Rule 2: a growth rate above 2 and an accelerating or steady trend.
      The trajectory must be a dictionary and its rate a number. */
  function EventDrivenRule(trajectory: Json): Option<bool> {
    if !trajectory.Obj? || !IsNumber(GrowthRate(trajectory)) then None
    else Some(NumberValue(GrowthRate(trajectory)) > 2.0 && Get(trajectory.fields, "trend", Null) in Trends)
  }

  /** Rule 4: five or more common technologies in the evidence. */
  function SpecializationRule(patterns: Json): Option<bool> {
    match ExtractTechnologies(patterns)
    case None => None
    case Some(techs) => Some(|techs| >= 5)
  }

  /** The event-driven recommendation of a trajectory whose rule fired:
      the rate is then a number and the trend one of the two strings. */
  function EventDrivenOf(trajectory: Json): (a: Advice)
    requires EventDrivenRule(trajectory) == Some(true)
    ensures a.EventDrivenAdvice? && a.rate > 2.0
  {
    EventDrivenAdvice(NumberValue(GrowthRate(trajectory)), Get(trajectory.fields, "trend", Str("steady")).s)
  }

  /** The recommendations of the rules that fired, in the order they are
      appended; rule 3 always fires. */
  function Appended(first: bool, second: Option<Advice>, fourth: bool): (advices: seq<Advice>)
    requires second.Some? ==> second.value.EventDrivenAdvice?
    ensures PostgresAdvice in advices <==> first
    ensures second.Some? ==> second.value in advices
    ensures forall a :: a in advices && a.EventDrivenAdvice? ==> second == Some(a)
    ensures LeadershipAdvice in advices
    ensures SpecializationAdvice in advices <==> fourth
  {
    (if first then [PostgresAdvice] else []) + (if second.Some? then [second.value] else [])
    + [LeadershipAdvice] + (if fourth then [SpecializationAdvice] else [])
  }

  /** The recommendations in the order the rules append them, or None when
      a rule raises. */
  function Plan(patterns: Json, trajectory: Json): Option<seq<Advice>> {
    var first := PostgresRule(patterns);
    var second := EventDrivenRule(trajectory);
    var fourth := SpecializationRule(patterns);
    if first.None? || second.None? || fourth.None? then None
    else Some(Appended(first.value, if second.value then Some(EventDrivenOf(trajectory)) else None, fourth.value))
  }

  /** The fields of one recommendation, before it becomes a dictionary. */
  datatype Recommendation = Recommendation(skill: string, status: string, confidence: real, reasoning: string,
                                           evidence: seq<string>, timeline: string, nextAction: string)

  const RecommendationKeys: set<string> :=
    {"skill", "status", "confidence", "reasoning", "evidence", "timeline", "next_action"}

  /** `_create_recommendation`: the seven fields as a dictionary, the
      confidence rounded to two decimals. */
  function CreateRecommendation(rec: Recommendation): (j: Json)
    ensures j.Obj? && j.fields.Keys == RecommendationKeys
    ensures j.fields["skill"] == Str(rec.skill) && j.fields["status"] == Str(rec.status)
    ensures j.fields["confidence"] == Num(Round(rec.confidence, 2))
    ensures j.fields["evidence"] == Arr(Strs(rec.evidence))
  {
    Obj(map["skill" := Str(rec.skill), "status" := Str(rec.status), "confidence" := Num(Round(rec.confidence, 2)),
            "reasoning" := Str(rec.reasoning), "evidence" := Arr(Strs(rec.evidence)), "timeline" := Str(rec.timeline),
            "next_action" := Str(rec.nextAction)])
  }

  /** Rounding to two decimals keeps a value that already has at most two. */
  lemma RoundKeepsCents(cents: nat)
    ensures Round(cents as real / 100.0, 2) == cents as real / 100.0
  {
    assert Scale(2) == 100.0;
    var x := cents as real / 100.0;
    assert x * 100.0 == cents as real;
    assert (x * 100.0).Floor == cents;
  }

  function Status(advice: Advice): string {
    match advice
    case PostgresAdvice => "ready"
    case EventDrivenAdvice(_, _) => "ready_soon"
    case LeadershipAdvice => "not_yet"
    case SpecializationAdvice => "ready"
  }

  /** The confidence of each recommendation, in hundredths. */
  function Cents(advice: Advice): (c: nat)
    ensures c <= 100
  {
    match advice
    case PostgresAdvice => 92
    case EventDrivenAdvice(_, _) => 78
    case LeadershipAdvice => 95
    case SpecializationAdvice => 85
  }

  function SkillOf(advice: Advice): string {
    match advice
    case PostgresAdvice => "PostgreSQL + asyncpg"
    case EventDrivenAdvice(_, _) => "Event-Driven Architecture (Kafka/RabbitMQ)"
    case LeadershipAdvice => "Team Leadership / Mentoring"
    case SpecializationAdvice => "AI/LLM Systems Specialization"
  }

  // The fixed texts of the four recommendations.
  const PostgresReasoning: string :=
    "You know async patterns and prefer state simplicity. PostgreSQL + asyncpg is the natural next step."
  const PostgresEvidence: seq<string> :=
    ["Async patterns: Detected in your projects", "Database avoidance: Consistent across projects",
     "Complexity comfort: You handle 8+/10"]
  const PostgresTimeline: string := "4-6 weeks"
  const PostgresNextAction: string := "Build one event-driven service with PostgreSQL"

  const EventDrivenReasoning: string :=
    "You're learning fast and comfortable with complexity. Event-driven is your natural next step."
  const GrowthRateLabel: string := "Growth rate: "
  const TrendLabel: string := "Trend: "
  const MultiFramework: string := "Multi-framework experience"
  const EventDrivenTimeline: string := "6-8 weeks after PostgreSQL"
  const EventDrivenNextAction: string := "Study message queues, build Kafka service"

  const LeadershipReasoning: string :=
    "Focus on solo shipping first. Build your track record. Leadership comes after mastery."
  const LeadershipEvidence: seq<string> :=
    ["All projects are solo-authored", "Still building foundational skills", "More proven projects needed first"]
  const LeadershipTimeline: string := "After 3-4 shipped products"
  const LeadershipNextAction: string := "Keep shipping solo. Document your learning journey."

  const SpecializationReasoning: string :=
    "You've mastered multiple technologies. Consider specializing in AI systems."
  const SpecializationEvidence: seq<string> :=
    ["Proven ability to learn new frameworks", "Already using AWS Bedrock and AgentCore", "Rapid growth trajectory"]
  const SpecializationTimeline: string := "Ongoing"
  const SpecializationNextAction: string := "Build AI agents, focus on AgentCore patterns"

  /** The evidence lines of each recommendation; `format1` stands for the
      `:.1f` format of the growth rate. */
  function EvidenceOf(advice: Advice, format1: real -> string): (e: seq<string>)
    ensures |e| == 3
  {
    match advice
    case PostgresAdvice => PostgresEvidence
    case EventDrivenAdvice(rate, trend) => [GrowthRateLabel + format1(rate) + "x", TrendLabel + trend, MultiFramework]
    case LeadershipAdvice => LeadershipEvidence
    case SpecializationAdvice => SpecializationEvidence
  }

  /** The reasoning, timeline and next action of each recommendation. */
  function TextsOf(advice: Advice): (string, string, string) {
    match advice
    case PostgresAdvice => (PostgresReasoning, PostgresTimeline, PostgresNextAction)
    case EventDrivenAdvice(_, _) => (EventDrivenReasoning, EventDrivenTimeline, EventDrivenNextAction)
    case LeadershipAdvice => (LeadershipReasoning, LeadershipTimeline, LeadershipNextAction)
    case SpecializationAdvice => (SpecializationReasoning, SpecializationTimeline, SpecializationNextAction)
  }

  /** The recommendation one rule appends. */
  function AdviceRecommendation(advice: Advice, format1: real -> string): Recommendation {
    var texts := TextsOf(advice);
    Recommendation(SkillOf(advice), Status(advice), Cents(advice) as real / 100.0, texts.0,
                   EvidenceOf(advice, format1), texts.1, texts.2)
  }

  /** The dictionary of the recommendation one rule appends. */
  function AdviceJson(advice: Advice, format1: real -> string): Json {
    CreateRecommendation(AdviceRecommendation(advice, format1))
  }

  /** Each recommendation is a dictionary with the seven keys, its rule's
      skill and status, a confidence that is exactly its two-decimal value
      and three evidence lines. */
  lemma AdviceJsonShape(advice: Advice, format1: real -> string)
    ensures var j := AdviceJson(advice, format1);
            && j.Obj? && j.fields.Keys == RecommendationKeys
            && j.fields["skill"] == Str(SkillOf(advice)) && j.fields["status"] == Str(Status(advice))
            && j.fields["confidence"] == Num(Cents(advice) as real / 100.0)
            && j.fields["evidence"].Arr? && |j.fields["evidence"].items| == 3
  {
    RoundKeepsCents(Cents(advice));
  }

  /** `_create_recommendation` for the recommendation of a rule. */
  function Recommender(format1: real -> string): Advice -> Json {
    advice => AdviceJson(advice, format1)
  }

  /** `generate_recommendations`, as a value; `create` builds the
      dictionary of a rule's recommendation (`Recommender(format1)` in the
      engine). */
  function Generate(patterns: Json, preferences: Json, trajectory: Json, create: Advice -> Json): Generated {
    if !(Truthy(patterns) && Truthy(preferences) && Truthy(trajectory)) then MissingInputs
    else
      match Plan(patterns, trajectory)
      case None => GenerationFailed
      case Some(advices) => Recommendations(Obj(map["recommendations" := Arr(MapSeq(advices, create))]))
  }

  /** `if <rule>: recommendations.append(self._create_recommendation(...))`:
      `fired` is the advice of the rule when its condition held, and the
      list stays the dictionaries of the rules that fired so far. */
  method AppendIfFired(planned: seq<Advice>, recommendations: seq<Json>, fired: Option<Advice>,
                       create: Advice -> Json)
    returns (planned': seq<Advice>, recommendations': seq<Json>)
    requires recommendations == MapSeq(planned, create)
    ensures planned' == if fired.Some? then planned + [fired.value] else planned
    ensures recommendations' == MapSeq(planned', create)
  {
    planned', recommendations' := planned, recommendations;
    if fired.Some? {
      MapSeqSnoc(planned, fired.value, create);
      planned' := planned + [fired.value];
      recommendations' := recommendations + [create(fired.value)];
    }
  }

  /** The rules append in the order of `Appended`. */
  lemma InOrder(p1: seq<Advice>, p2: seq<Advice>, p3: seq<Advice>, p4: seq<Advice>,
                first: bool, second: Option<Advice>, fourth: bool)
    requires second.Some? ==> second.value.EventDrivenAdvice?
    requires p1 == if first then [] + [PostgresAdvice] else []
    requires p2 == if second.Some? then p1 + [second.value] else p1
    requires p3 == p2 + [LeadershipAdvice]
    requires p4 == if fourth then p3 + [SpecializationAdvice] else p3
    ensures p4 == Appended(first, second, fourth)
  {
    assert [] + [PostgresAdvice] == [PostgresAdvice];
  }

  /** The two outcomes of `generate_recommendations` once the inputs are
      truthy, stated without preconditions so that they can be recalled
      before the rules are evaluated. */
  lemma RuleOutcomes(patterns: Json, preferences: Json, trajectory: Json, create: Advice -> Json)
    ensures Truthy(patterns) && Truthy(preferences) && Truthy(trajectory) &&
            (PostgresRule(patterns).None? || EventDrivenRule(trajectory).None? || SpecializationRule(patterns).None?) ==>
              Generate(patterns, preferences, trajectory, create) == GenerationFailed
    ensures Truthy(patterns) && Truthy(preferences) && Truthy(trajectory) &&
            PostgresRule(patterns).Some? && EventDrivenRule(trajectory).Some? && SpecializationRule(patterns).Some? ==>
              Generate(patterns, preferences, trajectory, create) ==
              Recommendations(Obj(map["recommendations" := Arr(MapSeq(
                Appended(PostgresRule(patterns).value,
                         if EventDrivenRule(trajectory).value then Some(EventDrivenOf(trajectory)) else None,
                         SpecializationRule(patterns).value), create))]))
  {
  }

  /** The appending half of `generate_recommendations`: given what the
      rules decided, each rule in order appends its recommendation to the
      list when it fired. */
  method AppendRecommendations(first: bool, eventDriven: Option<Advice>, fourth: bool, create: Advice -> Json)
    returns (recommendations: seq<Json>)
    requires eventDriven.Some? ==> eventDriven.value.EventDrivenAdvice?
    ensures recommendations == MapSeq(Appended(first, eventDriven, fourth), create)
  {
    var planned: seq<Advice> := [];
    recommendations := [];
    // Rule 1: async and database patterns with a database or async impact.
    planned, recommendations := AppendIfFired(planned, recommendations,
                                              if first then Some(PostgresAdvice) else None, create);
    ghost var p1 := planned;
    // Rule 2: fast growth with an accelerating or steady trend.
    planned, recommendations := AppendIfFired(planned, recommendations, eventDriven, create);
    ghost var p2 := planned;
    // Rule 3: always.
    planned, recommendations := AppendIfFired(planned, recommendations, Some(LeadershipAdvice), create);
    ghost var p3 := planned;
    // Rule 4: five or more common technologies.
    planned, recommendations := AppendIfFired(planned, recommendations,
                                              if fourth then Some(SpecializationAdvice) else None, create);
    InOrder(p1, p2, p3, planned, first, eventDriven, fourth);
  }

  /** `generate_recommendations`: falsy inputs are refused; otherwise the
      rules are evaluated, and any of them raising ends the generation
      with nothing. The rules raise only on malformed input and the list
      is discarded when one does, so they can all be evaluated before the
      appending starts. */
  method GenerateRecommendations(patterns: Json, preferences: Json, trajectory: Json, create: Advice -> Json)
    returns (r: Generated)
    ensures r == Generate(patterns, preferences, trajectory, create)
  {
    if !(Truthy(patterns) && Truthy(preferences) && Truthy(trajectory)) {
      return MissingInputs;
    }
    RuleOutcomes(patterns, preferences, trajectory, create);
    var first := PostgresRule(patterns);
    var second := EventDrivenRule(trajectory);
    var fourth := SpecializationRule(patterns);
    if first.None? || second.None? || fourth.None? {
      return GenerationFailed;
    }
    var eventDriven := if second.value then Some(EventDrivenOf(trajectory)) else None;
    var recommendations := AppendRecommendations(first.value, eventDriven, fourth.value, create);
    return Recommendations(Obj(map["recommendations" := Arr(recommendations)]));
  }

  /** `generate_recommendations` refuses exactly the falsy inputs before
      evaluating any rule. */
  lemma MissingInputsExactly(patterns: Json, preferences: Json, trajectory: Json, create: Advice -> Json)
    ensures Generate(patterns, preferences, trajectory, create).MissingInputs? <==>
      !Truthy(patterns) || !Truthy(preferences) || !Truthy(trajectory)
  {
  }

  /** Whenever the rules can be evaluated, the leadership recommendation is
      made, with status "not_yet". */
  lemma LeadershipAlwaysIncluded(patterns: Json, trajectory: Json)
    requires Plan(patterns, trajectory).Some?
    ensures LeadershipAdvice in Plan(patterns, trajectory).value
    ensures SkillOf(LeadershipAdvice) == "Team Leadership / Mentoring" && Status(LeadershipAdvice) == "not_yet"
  {
  }

  /** Some planned recommendation is the event-driven one. */
  predicate HasEventDriven(advices: seq<Advice>) {
    exists a :: a in advices && a.EventDrivenAdvice?
  }

  /** The event-driven recommendation is made exactly when the growth rate
      is above 2 and the trend is accelerating or steady, and it then quotes
      that rate and trend. */
  lemma EventDrivenExactly(patterns: Json, trajectory: Json)
    requires Plan(patterns, trajectory).Some?
    ensures HasEventDriven(Plan(patterns, trajectory).value) <==>
      trajectory.Obj? && NumberValue(GrowthRate(trajectory)) > 2.0 &&
      (Get(trajectory.fields, "trend", Null) == Str("accelerating") || Get(trajectory.fields, "trend", Null) == Str("steady"))
    ensures HasEventDriven(Plan(patterns, trajectory).value) ==>
      EventDrivenAdvice(NumberValue(GrowthRate(trajectory)), Get(trajectory.fields, "trend", Null).s) in Plan(patterns, trajectory).value
  {
    if EventDrivenRule(trajectory) == Some(true) {
      assert EventDrivenOf(trajectory) in Plan(patterns, trajectory).value;
    }
  }

  const RequiredRecommendationKeys: set<string> := {"skill", "status", "confidence", "reasoning"}
  const Statuses: seq<Json> := [Str("ready"), Str("ready_soon"), Str("not_yet")]

  /** The check of one recommendation in `validate_recommendations`. */
  function CheckRecommendation(rec: Json): Check {
    if !rec.Obj? then Crashed
    else if !(RequiredRecommendationKeys <= rec.fields.Keys) then Refused("Recommendation missing keys")
    else if rec.fields["status"] !in Statuses then Refused("Invalid status")
    else
      match InRange(rec.fields["confidence"], 0.0, 1.0)
      case None => Crashed
      case Some(ok) => if ok then Passed else Refused("Confidence must be 0-1")
  }

  function CheckRecommendations(recs: seq<Json>): Check {
    if recs == [] then Passed
    else if CheckRecommendation(recs[0]) != Passed then CheckRecommendation(recs[0])
    else CheckRecommendations(recs[1..])
  }

  /** `validate_recommendations`. */
  function ValidateRecommendations(j: Json): (c: Check)
    ensures !j.Obj? ==> c == Refused("Recommendations must be a dictionary")
    ensures j.Obj? && "recommendations" !in j.fields ==> c == Refused("Missing 'recommendations' key")
  {
    if !j.Obj? then Refused("Recommendations must be a dictionary")
    else if "recommendations" !in j.fields then Refused("Missing 'recommendations' key")
    else if !j.fields["recommendations"].Arr? then Refused("Recommendations must be a list")
    else CheckRecommendations(j.fields["recommendations"].items)
  }

  /** A well-formed recommendation: a dictionary with the four keys, a
      known status and a numeric confidence in [0, 1]. */
  predicate RecommendationOk(rec: Json) {
    rec.Obj? && RequiredRecommendationKeys <= rec.fields.Keys && rec.fields["status"] in Statuses
    && InRange(rec.fields["confidence"], 0.0, 1.0) == Some(true)
  }

  lemma {:induction false} CheckRecommendationsPassed(recs: seq<Json>)
    ensures CheckRecommendations(recs) == Passed <==> forall i :: 0 <= i < |recs| ==> RecommendationOk(recs[i])
    decreases |recs|
  {
    if recs != [] {
      CheckRecommendationsPassed(recs[1..]);
      assert forall i :: 1 <= i < |recs| ==> recs[i] == recs[1..][i - 1];
      assert CheckRecommendation(recs[0]) == Passed <==> RecommendationOk(recs[0]);
    }
  }

  /** `validate_recommendations` returns True exactly for a dictionary
      whose "recommendations" entry is a list of well-formed
      recommendations. */
  lemma ValidateRecommendationsExactly(j: Json)
    ensures ValidateRecommendations(j) == Passed <==>
      j.Obj? && "recommendations" in j.fields && j.fields["recommendations"].Arr? &&
      forall i :: 0 <= i < |j.fields["recommendations"].items| ==> RecommendationOk(j.fields["recommendations"].items[i])
  {
    if j.Obj? && "recommendations" in j.fields && j.fields["recommendations"].Arr? {
      CheckRecommendationsPassed(j.fields["recommendations"].items);
    }
  }

  /** Every recommendation the engine makes is well formed. */
  lemma AdviceOk(advice: Advice, format1: real -> string)
    ensures RecommendationOk(AdviceJson(advice, format1))
  {
    var j := AdviceJson(advice, format1);
    AdviceJsonShape(advice, format1);
    assert RequiredRecommendationKeys <= RecommendationKeys;
    assert j.fields["status"] in Statuses;
  }

  /** What `generate_recommendations` returns passes
      `validate_recommendations`. */
  lemma GeneratedValidates(patterns: Json, preferences: Json, trajectory: Json, format1: real -> string)
    requires Generate(patterns, preferences, trajectory, Recommender(format1)).Recommendations?
    ensures ValidateRecommendations(Generate(patterns, preferences, trajectory, Recommender(format1)).value) == Passed
  {
    var advices := Plan(patterns, trajectory).value;
    var items := MapSeq(advices, Recommender(format1));
    forall k | 0 <= k < |items| ensures RecommendationOk(items[k]) {
      MapSeqAt(advices, Recommender(format1), k);
      AdviceOk(advices[k], format1);
    }
    ValidateRecommendationsExactly(Generate(patterns, preferences, trajectory, Recommender(format1)).value);
  }
}
