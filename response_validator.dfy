/** `ResponseValidator.validate` of the oracle caller: an ordered,
    short-circuiting schema check of a candidate analysis record. The first
    failing check is reported as the field it names and a reason; nothing is
    aggregated. */
module ResponseValidator {
  import opened Json
  import opened Text

  /** The Python types a required field must have. */
  datatype Kind = NumberKind | ListKind | StringKind

  predicate HasKind(j: Json, k: Kind) {
    match k
    case NumberKind => IsNumber(j)
    case ListKind => j.Arr?
    case StringKind => j.Str?
  }

  /** REQUIRED_FIELDS, in the order the check visits them. */
  const RequiredFields: seq<(string, Kind)> := [
    ("complexity_score", NumberKind),
    ("technologies", ListKind),
    ("patterns", ListKind),
    ("skill_level", StringKind),
    ("recommendations", ListKind),
    ("reasoning", StringKind)
  ]

  const SkillLevels: set<string> := {"beginner", "intermediate", "advanced", "expert"}

  const RecommendationFields: set<string> := {"title", "description", "readiness", "why"}

  datatype Field = Root | Named(name: string) | RecommendationAt(index: nat)

  datatype Reason =
    | NotADictionary
    | MissingField
    | WrongType
    | ScoreOutOfRange
    | UnknownSkillLevel
    | NoTechnologies
    | NonStringItem
    | RecommendationNotDictionary
    | MissingRecommendationFields(missing: set<string>)

  datatype ValidationError = ValidationError(field: Field, reason: Reason)

  datatype Verdict = Accepted | Rejected(error: ValidationError)

  predicate FieldOk(m: map<string, Json>, f: (string, Kind)) {
    f.0 in m && HasKind(m[f.0], f.1)
  }

  /** The loop over REQUIRED_FIELDS: the first field that is missing or has
      the wrong type, a missing field being reported before a wrong type. */
  function CheckFields(m: map<string, Json>, fields: seq<(string, Kind)>): (r: Option<ValidationError>)
    ensures r.None? <==> forall i :: 0 <= i < |fields| ==> FieldOk(m, fields[i])
    ensures r.Some? ==>
      exists k :: 0 <= k < |fields| && !FieldOk(m, fields[k])
        && (forall i :: 0 <= i < k ==> FieldOk(m, fields[i]))
        && r.value == ValidationError(Named(fields[k].0), if fields[k].0 in m then WrongType else MissingField)
  {
    if fields == [] then None
    else if fields[0].0 !in m then Some(ValidationError(Named(fields[0].0), MissingField))
    else if !HasKind(m[fields[0].0], fields[0].1) then Some(ValidationError(Named(fields[0].0), WrongType))
    else
      var r := CheckFields(m, fields[1..]);
      if r.Some? then
        var k :| 0 <= k < |fields| - 1 && !FieldOk(m, fields[1..][k])
          && (forall i :: 0 <= i < k ==> FieldOk(m, fields[1..][i]))
          && r.value == ValidationError(Named(fields[1..][k].0), if fields[1..][k].0 in m then WrongType else MissingField);
        assert forall i :: 0 <= i < k + 1 ==> FieldOk(m, fields[i]) by {
          forall i | 0 <= i < k + 1 ensures FieldOk(m, fields[i]) {
            if i > 0 { assert fields[i] == fields[1..][i - 1]; }
          }
        }
        assert fields[k + 1] == fields[1..][k];
        r
      else
        assert forall i :: 1 <= i < |fields| ==> fields[i] == fields[1..][i - 1];
        r
  }

  predicate RecommendationOk(rec: Json) {
    rec.Obj? && RecommendationFields <= rec.fields.Keys
  }

  /** The loop over `enumerate(recommendations)` from index `from` on. */
  function CheckRecommendations(recs: seq<Json>, from: nat): (r: Option<ValidationError>)
    requires from <= |recs|
    ensures r.None? <==> forall i :: from <= i < |recs| ==> RecommendationOk(recs[i])
    ensures r.Some? ==>
      exists k :: from <= k < |recs| && !RecommendationOk(recs[k])
        && (forall i :: from <= i < k ==> RecommendationOk(recs[i]))
        && r.value.field == RecommendationAt(k)
    decreases |recs| - from
  {
    if from == |recs| then None
    else if !recs[from].Obj? then
      Some(ValidationError(RecommendationAt(from), RecommendationNotDictionary))
    else if !(RecommendationFields <= recs[from].fields.Keys) then
      Some(ValidationError(RecommendationAt(from), MissingRecommendationFields(RecommendationFields - recs[from].fields.Keys)))
    else
      CheckRecommendations(recs, from + 1)
  }

  /** `ResponseValidator.validate`. */
  function Validate(j: Json): (v: Verdict)
    ensures v.Rejected? && v.error.field == Root <==> !j.Obj?
  {
    if !j.Obj? then Rejected(ValidationError(Root, NotADictionary))
    else
      var m := j.fields;
      var missing := CheckFields(m, RequiredFields);
      if missing.Some? then Rejected(missing.value)
      else
        assert FieldOk(m, RequiredFields[0]) && FieldOk(m, RequiredFields[1]) && FieldOk(m, RequiredFields[2]);
        assert FieldOk(m, RequiredFields[3]) && FieldOk(m, RequiredFields[4]);
        var score := NumberValue(m["complexity_score"]);
        if !(0.0 <= score <= 10.0) then
          Rejected(ValidationError(Named("complexity_score"), ScoreOutOfRange))
        else if Lower(m["skill_level"].s) !in SkillLevels then
          Rejected(ValidationError(Named("skill_level"), UnknownSkillLevel))
        else if m["technologies"].items == [] then
          Rejected(ValidationError(Named("technologies"), NoTechnologies))
        else if !AllStrings(m["technologies"].items) then
          Rejected(ValidationError(Named("technologies"), NonStringItem))
        else if !AllStrings(m["patterns"].items) then
          Rejected(ValidationError(Named("patterns"), NonStringItem))
        else
          var bad := CheckRecommendations(m["recommendations"].items, 0);
          if bad.Some? then Rejected(bad.value) else Accepted
  }

  /** What an accepted record is, stated without reference to the order of
      the checks. `readiness` values are never inspected. */
  ghost predicate WellFormedRecord(j: Json) {
    && j.Obj?
    && (forall i :: 0 <= i < |RequiredFields| ==> FieldOk(j.fields, RequiredFields[i]))
    && "complexity_score" in j.fields && IsNumber(j.fields["complexity_score"])
    && 0.0 <= NumberValue(j.fields["complexity_score"]) <= 10.0
    && "skill_level" in j.fields && j.fields["skill_level"].Str?
    && Lower(j.fields["skill_level"].s) in SkillLevels
    && "technologies" in j.fields && j.fields["technologies"].Arr?
    && j.fields["technologies"].items != [] && AllStrings(j.fields["technologies"].items)
    && "patterns" in j.fields && j.fields["patterns"].Arr? && AllStrings(j.fields["patterns"].items)
    && "recommendations" in j.fields && j.fields["recommendations"].Arr?
    && (forall i :: 0 <= i < |j.fields["recommendations"].items| ==>
          RecommendationOk(j.fields["recommendations"].items[i]))
  }

  /** The validator accepts exactly the well-formed records. */
  lemma ValidateAcceptsExactlyWellFormed(j: Json)
    ensures Validate(j) == Accepted <==> WellFormedRecord(j)
  {
    if j.Obj? && CheckFields(j.fields, RequiredFields).None? {
      assert FieldOk(j.fields, RequiredFields[0]) && FieldOk(j.fields, RequiredFields[1]);
      assert FieldOk(j.fields, RequiredFields[2]) && FieldOk(j.fields, RequiredFields[3]);
      assert FieldOk(j.fields, RequiredFields[4]);
    }
  }

  /** Keys other than the six required ones do not affect the verdict, so
      tagging an accepted record with `source` keeps it accepted. */
  lemma {:induction false} ExtraKeyIrrelevant(m: map<string, Json>, key: string, value: Json)
    requires forall i :: 0 <= i < |RequiredFields| ==> key != RequiredFields[i].0
    ensures Validate(Obj(m[key := value])) == Validate(Obj(m))
  {
    var m' := m[key := value];
    assert forall i :: 0 <= i < |RequiredFields| ==> (FieldOk(m, RequiredFields[i]) <==> FieldOk(m', RequiredFields[i]));
    CheckFieldsAgree(m, m', RequiredFields);
    if CheckFields(m, RequiredFields).None? {
      assert FieldOk(m, RequiredFields[0]) && FieldOk(m, RequiredFields[1]) && FieldOk(m, RequiredFields[2]);
      assert FieldOk(m, RequiredFields[3]) && FieldOk(m, RequiredFields[4]);
      assert m'["complexity_score"] == m["complexity_score"] && m'["skill_level"] == m["skill_level"];
      assert m'["technologies"] == m["technologies"] && m'["patterns"] == m["patterns"];
      assert m'["recommendations"] == m["recommendations"];
    }
  }

  /** Two dictionaries that agree on the listed fields get the same answer
      from the required-field loop. */
  lemma {:induction false} CheckFieldsAgree(m: map<string, Json>, m': map<string, Json>, fields: seq<(string, Kind)>)
    requires forall i :: 0 <= i < |fields| ==> (fields[i].0 in m <==> fields[i].0 in m')
    requires forall i :: 0 <= i < |fields| && fields[i].0 in m ==> m[fields[i].0] == m'[fields[i].0]
    ensures CheckFields(m, fields) == CheckFields(m', fields)
    decreases |fields|
  {
    if fields != [] {
      assert fields[0].0 in m <==> fields[0].0 in m';
      CheckFieldsAgree(m, m', fields[1..]);
    }
  }

  /** A dictionary whose first three fields are present and well typed but
      which lacks `skill_level` is rejected naming `skill_level`, whatever the
      later fields hold. */
  lemma MissingSkillLevelNamed(m: map<string, Json>)
    requires FieldOk(m, RequiredFields[0]) && FieldOk(m, RequiredFields[1]) && FieldOk(m, RequiredFields[2])
    requires "skill_level" !in m
    ensures Validate(Obj(m)) == Rejected(ValidationError(Named("skill_level"), MissingField))
  {
    assert !FieldOk(m, RequiredFields[3]);
    var r := CheckFields(m, RequiredFields);
    var k :| 0 <= k < |RequiredFields| && !FieldOk(m, RequiredFields[k])
        && (forall i :: 0 <= i < k ==> FieldOk(m, RequiredFields[i]))
        && r.value == ValidationError(Named(RequiredFields[k].0), if RequiredFields[k].0 in m then WrongType else MissingField);
    assert k == 3;
  }

  /** Once every required field is present and well typed, an out-of-range
      score is the first failure reported, before any check on the other
      fields' contents. */
  lemma ScoreCheckedFirst(m: map<string, Json>)
    requires forall i :: 0 <= i < |RequiredFields| ==> FieldOk(m, RequiredFields[i])
    requires "complexity_score" in m && IsNumber(m["complexity_score"])
    requires !(0.0 <= NumberValue(m["complexity_score"]) <= 10.0)
    ensures Validate(Obj(m)) == Rejected(ValidationError(Named("complexity_score"), ScoreOutOfRange))
  {
  }

  /** A dictionary with exactly the six required keys. */
  function Record(score: Json, technologies: seq<Json>, patterns: seq<Json>, skill: string,
                  recommendations: seq<Json>, reasoning: string): Json
  {
    Obj(map[
      "complexity_score" := score,
      "technologies" := Arr(technologies),
      "patterns" := Arr(patterns),
      "skill_level" := Str(skill),
      "recommendations" := Arr(recommendations),
      "reasoning" := Str(reasoning)
    ])
  }

  lemma RecordLookups(score: Json, technologies: seq<Json>, patterns: seq<Json>, skill: string,
                      recommendations: seq<Json>, reasoning: string)
    ensures var m := Record(score, technologies, patterns, skill, recommendations, reasoning).fields;
      && (forall i :: 0 <= i < |RequiredFields| ==> RequiredFields[i].0 in m)
      && m["complexity_score"] == score && m["technologies"] == Arr(technologies)
      && m["patterns"] == Arr(patterns) && m["skill_level"] == Str(skill)
      && m["recommendations"] == Arr(recommendations) && m["reasoning"] == Str(reasoning)
  {
  }

  /** A record with the six required keys is accepted exactly when its score
      is a number in [0, 10], its skill level lower-cases to a known level,
      its technologies are a non-empty list of strings, its patterns are
      strings, and every recommendation is a dictionary with the four
      recommendation keys. */
  lemma RecordVerdict(score: Json, technologies: seq<Json>, patterns: seq<Json>, skill: string,
                      recommendations: seq<Json>, reasoning: string)
    ensures Validate(Record(score, technologies, patterns, skill, recommendations, reasoning)) == Accepted
      <==> && IsNumber(score) && 0.0 <= NumberValue(score) <= 10.0
           && Lower(skill) in SkillLevels
           && technologies != [] && AllStrings(technologies) && AllStrings(patterns)
           && (forall i :: 0 <= i < |recommendations| ==> RecommendationOk(recommendations[i]))
  {
    var j := Record(score, technologies, patterns, skill, recommendations, reasoning);
    RecordLookups(score, technologies, patterns, skill, recommendations, reasoning);
    ValidateAcceptsExactlyWellFormed(j);
    if IsNumber(score) {
      assert forall i :: 0 <= i < |RequiredFields| ==> FieldOk(j.fields, RequiredFields[i]);
    } else {
      assert !FieldOk(j.fields, RequiredFields[0]);
    }
  }

  /** One recommendation with the four required keys and the readiness
      value "now", which the prompt does not list. */
  const SampleRecommendation: Json :=
    Obj(map["title" := Str("t"), "description" := Str("d"), "readiness" := Str("now"), "why" := Str("w")])

  /** The score bound is inclusive at both ends and a bool passes as a
      number; scores just outside the range are rejected. The skill level is
      compared after lower-casing and the `readiness` value "now" is not
      inspected. */
  lemma ScoreBoundaries(score: Json)
    requires score in {Num(10.0), Num(0.0), Bool(true), Num(11.0), Num(-0.5)}
    ensures Validate(Record(score, [Str("Python")], [], "Advanced", [SampleRecommendation], "r")) == Accepted
      <==> score in {Num(10.0), Num(0.0), Bool(true)}
  {
    AdvancedIsKnown();
    assert RecommendationOk([SampleRecommendation][0]);
    RecordVerdict(score, [Str("Python")], [], "Advanced", [SampleRecommendation], "r");
  }

  lemma AdvancedIsKnown()
    ensures Lower("Advanced") in SkillLevels
  {
    assert Lower("Advanced") == "advanced";
  }

  /** A score given as a string is a type error, not a range error. */
  lemma StringScoreWrongType()
    ensures Validate(Record(Str("5"), [Str("Python")], [], "Advanced", [SampleRecommendation], "r")) == Rejected(ValidationError(Named("complexity_score"), WrongType))
  {
    var m := Record(Str("5"), [Str("Python")], [], "Advanced", [SampleRecommendation], "r").fields;
    assert !FieldOk(m, RequiredFields[0]);
    var r := CheckFields(m, RequiredFields);
    var k :| 0 <= k < |RequiredFields| && !FieldOk(m, RequiredFields[k])
        && (forall i :: 0 <= i < k ==> FieldOk(m, RequiredFields[i]))
        && r.value == ValidationError(Named(RequiredFields[k].0), if RequiredFields[k].0 in m then WrongType else MissingField);
    assert k == 0;
  }
}
