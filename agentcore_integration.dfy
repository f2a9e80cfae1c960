/** The backend's oracle client wrapper: the reply text is parsed as JSON,
    falling back to the greedy `\{.*\}` match of the reply, and every failure
    on the way is reported as an integration error. The mock client answers
    a prompt by looking for the words "pattern" and "preference" in it.
    `parse` stands for `json.loads` (None where it raises); the prompt
    builders are not part of this model, so the text the client returned, or
    the message of the exception raised on the way to it, is an input. */
module AgentCoreIntegration {
  import opened Json
  import opened Text
  import opened JsonExtraction

  /** What a call of the backend caller produced: a parsed value, or an
      `AgentCoreIntegrationError` with its message. */
  datatype Answer = Answer(value: Json) | IntegrationError(message: string)

  /** What `client.analyze(prompt)` did, prompt building included. */
  datatype Reply = Replied(text: string) | Raised(message: string)

  /** `response[:100]`. */
  function Preview(response: string): (p: string)
    ensures |p| <= 100 && IsPrefix(p, response)
    ensures |response| <= 100 ==> p == response
  {
    if |response| <= 100 then response else response[..100]
  }

  /** `_parse_json_response`: the whole reply when it parses; otherwise the
      span the regular expression matches, when there is one and it parses;
      otherwise an error quoting the start of the reply. */
  function ParseJsonResponse(response: string, parse: string -> Option<Json>): (r: Answer)
    ensures parse(response).Some? ==> r == Answer(parse(response).value)
    ensures parse(response).None? && r.Answer? ==>
      var span := BraceSpan(response);
      span.Some? && parse(response[span.value.0..span.value.1]) == Some(r.value)
    ensures r.IntegrationError? <==>
      parse(response).None? &&
      (BraceSpan(response).None? ||
       parse(response[BraceSpan(response).value.0..BraceSpan(response).value.1]).None?)
    ensures r.IntegrationError? ==> r.message == "Could not parse JSON response: " + Preview(response)
  {
    RegexMatchesBraceSpan(response);
    var error := IntegrationError("Could not parse JSON response: " + Preview(response));
    if parse(response).Some? then Answer(parse(response).value)
    else
      match RegexSpan(response, 0)
      case None => error
      case Some((s, e)) =>
        if parse(response[s..e]).Some? then Answer(parse(response[s..e]).value) else error
  }

  /** The backend parser and the command-line extractor agree on every
      non-empty reply, and on the empty one too when the parser refuses it,
      as `json.loads` does. */
  lemma ParseAgreesWithExtract(response: string, parse: string -> Option<Json>)
    requires response != [] || parse([]).None?
    ensures ParseJsonResponse(response, parse).Answer? <==> ExtractJson(response, parse).Some?
    ensures ParseJsonResponse(response, parse).Answer? ==>
      ExtractJson(response, parse) == Some(ParseJsonResponse(response, parse).value)
  {
    if response == [] {
      assert BraceSpan(response).None?;
    }
  }

  /** The error wrapping shared by `detect_patterns` and
      `analyze_preferences`: an exception raised while building the prompt
      or calling the client, or a reply that does not parse, becomes an
      integration error whose message starts with `prefix` and carries the
      original message. */
  function Wrapped(prefix: string, reply: Reply, parse: string -> Option<Json>): (r: Answer)
    ensures r.Answer? <==> reply.Replied? && ParseJsonResponse(reply.text, parse).Answer?
    ensures r.Answer? ==> parse(reply.text).Some? || BraceSpan(reply.text).Some?
    ensures r.IntegrationError? ==>
      r.message == prefix + ": " + (if reply.Raised? then reply.message
                                     else ParseJsonResponse(reply.text, parse).message)
  {
    match reply
    case Raised(m) => IntegrationError(prefix + ": " + m)
    case Replied(t) =>
      var parsed := ParseJsonResponse(t, parse);
      if parsed.Answer? then parsed else IntegrationError(prefix + ": " + parsed.message)
  }

  /** `AgentCoreCaller.detect_patterns`. */
  function DetectPatterns(reply: Reply, parse: string -> Option<Json>): (r: Answer)
    ensures r.IntegrationError? ==> IsPrefix("Pattern detection failed: ", r.message)
    ensures reply.Raised? ==> r.IntegrationError?
  {
    Wrapped("Pattern detection failed", reply, parse)
  }

  /** `AgentCoreCaller.analyze_preferences`. */
  function AnalyzePreferences(reply: Reply, parse: string -> Option<Json>): (r: Answer)
    ensures r.IntegrationError? ==> IsPrefix("Preference analysis failed: ", r.message)
    ensures reply.Raised? ==> r.IntegrationError?
  {
    Wrapped("Preference analysis failed", reply, parse)
  }

  /** Which canned payload the mock client answers with. */
  datatype MockKind = PatternKind | PreferenceKind | DefaultKind

  predicate MentionsPattern(prompt: string) {
    Contains(prompt, "Pattern") || Contains(prompt, "pattern")
  }

  predicate MentionsPreference(prompt: string) {
    Contains(prompt, "Preference") || Contains(prompt, "preference")
  }

  /** The dispatch of `MockAgentCoreClient.analyze`. */
  function MockKindFor(prompt: string): MockKind {
    if MentionsPattern(prompt) then PatternKind
    else if MentionsPreference(prompt) then PreferenceKind
    else DefaultKind
  }

  /** The pattern test comes first, and only those two spellings of each
      word are looked for. */
  lemma MockDispatchOrder(prompt: string)
    ensures MockKindFor(prompt) == PatternKind <==> MentionsPattern(prompt)
    ensures MockKindFor(prompt) == PreferenceKind <==> !MentionsPattern(prompt) && MentionsPreference(prompt)
    ensures MockKindFor(prompt) == DefaultKind <==> !MentionsPattern(prompt) && !MentionsPreference(prompt)
  {
  }

  /** A prompt naming both patterns and preferences gets the pattern
      payload. */
  lemma BothWordsGivePatterns()
    ensures MockKindFor("pattern preference") == PatternKind
  {
    assert IsPrefix("pattern", "pattern preference"[0..]);
  }

  /** A detected pattern as the services exchange it. */
  datatype PatternEntry = PatternEntry(name: string, evidence: string, confidence: real, impact: string)

  /** The dictionary of a pattern entry. */
  function EntryJson(e: PatternEntry): (j: Json)
    ensures j.Obj? && j.fields.Keys == {"name", "evidence", "confidence", "impact"}
    ensures j.fields["name"] == Str(e.name) && j.fields["evidence"] == Str(e.evidence)
    ensures j.fields["confidence"] == Num(e.confidence) && j.fields["impact"] == Str(e.impact)
  {
    Obj(map["name" := Str(e.name), "evidence" := Str(e.evidence), "confidence" := Num(e.confidence), "impact" := Str(e.impact)])
  }

  /** One entry of the mock preference payload. */
  function MockPreference(name: string, score: real, reasoning: string, evidence: string): Json {
    Obj(map["name" := Str(name), "score" := Num(score), "reasoning" := Str(reasoning), "evidence" := Str(evidence)])
  }

  /** `_mock_pattern_response`, before `json.dumps`. */
  function MockPatternPayload(): Json {
    Obj(map["patterns" := Arr([
      EntryJson(PatternEntry("Database Avoidance", "0/3 projects use SQL", 0.98, "You prefer state simplicity")),
      EntryJson(PatternEntry("Async-First Thinking", "2/3 projects use async/await", 0.87, "You build for concurrency from day 1")),
      EntryJson(PatternEntry("Rapid Learning", "2.5x growth in 8 weeks", 0.92, "You're learning quickly"))])])
  }

  /** `_mock_preference_response`, before `json.dumps`. */
  function MockPreferencePayload(): Json {
    Obj(map["preferences" := Arr([
      MockPreference("State Simplicity", 0.92, "Avoids databases consistently", "No SQL in any project"),
      MockPreference("Async/Concurrency Comfort", 0.87, "Uses async patterns effectively", "Async/await in 2/3 projects"),
      MockPreference("Complexity Tolerance", 0.78, "Comfortable with 8.1/10 average", "Handles sophisticated architectures")])])
  }

  /** `_mock_default_response`, before `json.dumps`. */
  function MockDefaultPayload(): Json {
    Obj(map["status" := Str("success"), "message" := Str("Mock response")])
  }

  function MockPayload(kind: MockKind): Json {
    match kind
    case PatternKind => MockPatternPayload()
    case PreferenceKind => MockPreferencePayload()
    case DefaultKind => MockDefaultPayload()
  }

  /** `MockAgentCoreClient.analyze`: the chosen payload serialised by
      `dumps` (standing for `json.dumps`). */
  function MockAnalyze(prompt: string, dumps: Json -> string): string {
    dumps(MockPayload(MockKindFor(prompt)))
  }

  /** Every confidence of the mock patterns lies in [0, 1]. */
  lemma MockConfidencesInUnit()
    ensures var items := MockPatternPayload().fields["patterns"].items;
            |items| == 3 &&
            forall i :: 0 <= i < |items| ==>
              items[i].Obj? && "confidence" in items[i].fields &&
              InRange(items[i].fields["confidence"], 0.0, 1.0) == Some(true)
  {
  }

  /** Every score of the mock preferences lies in [0, 1]. */
  lemma MockScoresInUnit()
    ensures var items := MockPreferencePayload().fields["preferences"].items;
            |items| == 3 &&
            forall i :: 0 <= i < |items| ==>
              items[i].Obj? && "score" in items[i].fields &&
              InRange(items[i].fields["score"], 0.0, 1.0) == Some(true)
  {
  }

  /** With the mock client, whose replies `json.loads` reads back, pattern
      detection on a prompt that mentions patterns yields the mock pattern
      payload. */
  lemma MockDetectPatterns(prompt: string, parse: string -> Option<Json>, dumps: Json -> string)
    requires MentionsPattern(prompt)
    requires parse(dumps(MockPatternPayload())) == Some(MockPatternPayload())
    ensures DetectPatterns(Replied(MockAnalyze(prompt, dumps)), parse) == Answer(MockPatternPayload())
  {
  }
}
