/** Recovering a JSON value from free text returned by the oracle: parse the
    whole text, and failing that the span from the first `{` to the last `}`.
    `parse` stands for `json.loads` (None where it raises). */
module JsonExtraction {
  import opened Json
  import opened Text

  /** The candidate span `text[start:end]` of `_extract_json`, where `start`
      is `text.find('{')` and `end` is `text.rfind('}') + 1`, when
      `start >= 0 and end > start`. No brace depth is tracked. */
  function BraceSpan(text: string): (r: Option<(nat, nat)>)
    ensures r.Some? <==> exists i, j :: 0 <= i < j < |text| && text[i] == '{' && text[j] == '}'
    ensures r.Some? ==>
      var (s, e) := r.value;
      s < e <= |text| && text[s] == '{' && text[e - 1] == '}'
      && '{' !in text[..s] && '}' !in text[e..]
  {
    var start := Find(text, '{');
    var end := RFind(text, '}') + 1;
    if start >= 0 && end > start then Some((start, end)) else None
  }

  /** `re.search(r'\{.*\}', text, re.DOTALL)` scanning from `from`: the
      leftmost `{` that has some `}` after it, matched greedily up to the
      last `}` of the text. */
  function RegexSpan(text: string, from: nat): (r: Option<(nat, nat)>)
    requires from <= |text|
    decreases |text| - from
  {
    if from == |text| then None
    else if text[from] == '{' && '}' in text[from + 1..] then Some((from, RFind(text, '}') + 1))
    else RegexSpan(text, from + 1)
  }

  /** With no `}` at or after `from`, the regular expression finds nothing. */
  lemma {:induction false} RegexSpanNone(text: string, from: nat)
    requires from <= |text| && '}' !in text[from..]
    ensures RegexSpan(text, from) == None
    decreases |text| - from
  {
    if from < |text| {
      assert text[from + 1..] == text[from..][1..];
      RegexSpanNone(text, from + 1);
    }
  }

  lemma {:induction false} RegexSpanFrom(text: string, from: nat)
    requires from <= |text| && '{' !in text[..from]
    ensures RegexSpan(text, from) == BraceSpan(text)
    decreases |text| - from
  {
    if from == |text| {
      assert text[..from] == text;
    } else if text[from] == '{' {
      assert forall k :: 0 <= k < from ==> text[k] != '{' by {
        forall k | 0 <= k < from ensures text[k] != '{' { assert text[k] == text[..from][k]; }
      }
      assert Find(text, '{') == from;
      var last := RFind(text, '}');
      if '}' in text[from + 1..] {
        var k :| from + 1 <= k < |text| && text[k] == '}' by {
          var i :| 0 <= i < |text[from + 1..]| && text[from + 1..][i] == '}';
          assert text[from + 1 + i] == '}';
        }
        assert last >= k;
      } else {
        assert forall k :: from + 1 <= k < |text| ==> text[k] != '}' by {
          forall k | from + 1 <= k < |text| ensures text[k] != '}' { assert text[k] == text[from + 1..][k - from - 1]; }
        }
        RegexSpanNone(text, from + 1);
      }
    } else {
      assert text[..from + 1] == text[..from] + [text[from]];
      RegexSpanFrom(text, from + 1);
    }
  }

  /** The greedy regular expression of the backend parser and the
      `find`/`rfind` span of the command-line extractor pick the same text. */
  lemma RegexMatchesBraceSpan(text: string)
    ensures RegexSpan(text, 0) == BraceSpan(text)
  {
    RegexSpanFrom(text, 0);
  }

  /** `_extract_json`: nothing for empty text; the whole text when it
      parses; otherwise the brace span when there is one. */
  function ExtractJson(text: string, parse: string -> Option<Json>): (r: Option<Json>)
    ensures text == [] ==> r.None?
    ensures text != [] && parse(text).Some? ==> r == parse(text)
    ensures r.Some? && r != parse(text) ==>
      BraceSpan(text).Some? && r == parse(text[BraceSpan(text).value.0..BraceSpan(text).value.1])
    ensures text != [] && parse(text).None? && BraceSpan(text).None? ==> r.None?
    ensures text != [] && parse(text).None? && BraceSpan(text).Some? ==>
      r == parse(text[BraceSpan(text).value.0..BraceSpan(text).value.1])
  {
    if text == [] then None
    else if parse(text).Some? then parse(text)
    else
      match BraceSpan(text)
      case None => None
      case Some((s, e)) => parse(text[s..e])
  }

  /** Greediness: with two objects in the text the candidate runs from the
      first `{` to the last `}`, taking the text between them along. */
  lemma GreedyAcrossObjects()
    ensures BraceSpan("x{a}y{b}z") == Some((1, 8))
  {
    var t := "x{a}y{b}z";
    assert t[1] == '{' && t[7] == '}';
    var r := BraceSpan(t);
    assert r.Some?;
    assert r.value.0 == 1 by { assert t[0] != '{'; assert '{' !in t[..r.value.0]; }
    assert r.value.1 == 8 by { assert t[8] != '}'; assert '}' !in t[r.value.1..]; }
  }

  /** A closing brace before the only opening brace gives no candidate. */
  lemma ReversedBracesNoSpan()
    ensures BraceSpan("}x{") == None
  {
    var t := "}x{";
    assert forall i :: 0 <= i < |t| && t[i] == '{' ==> i == 2;
  }
}
