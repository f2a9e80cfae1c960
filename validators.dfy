/** The input guardrails of the command-line tool: which files are worth
    analysing, and how free text is made safe to embed in a prompt. File
    sizes and path components come in as values; the file system is not
    part of this model. */
module Validators {
  import opened Text

  const MaxFileSizeMb: int := 10
  const SkipDirs: set<string> := {"node_modules", "__pycache__", ".git"}
  const CodeSuffixes: set<string> := {".py", ".ts", ".tsx", ".js", ".json", ".html", ".css"}

  /** `should_analyze_file` for a file of `size` bytes whose path has the
      components `parts` and the suffix `suffix`. */
  function ShouldAnalyzeFile(size: int, parts: seq<string>, suffix: string): bool {
    if size > MaxFileSizeMb * 1024 * 1024 then false
    else if exists d :: d in SkipDirs && d in parts then false
    else suffix in CodeSuffixes
  }

  /** The three cases the guardrail distinguishes: a file over 10 MiB, a
      file under a skipped directory, and a small source file. */
  lemma ShouldAnalyzeFileCases(name: string)
    ensures !ShouldAnalyzeFile(11 * 1024 * 1024, ["tmp", name], ".py")
    ensures !ShouldAnalyzeFile(14, ["tmp", "node_modules", name], ".py")
    ensures ShouldAnalyzeFile(14, ["tmp", "valid.py"], ".py")
    ensures !ShouldAnalyzeFile(14, ["tmp", "notes.md"], ".md")
  {
    assert "node_modules" in SkipDirs && "node_modules" in ["tmp", "node_modules", name];
    assert forall d :: d in SkipDirs ==> d !in ["tmp", "valid.py"] by {
      assert "tmp" !in SkipDirs && "valid.py" !in SkipDirs;
    }
    assert forall d :: d in SkipDirs ==> d !in ["tmp", "notes.md"] by {
      assert "tmp" !in SkipDirs && "notes.md" !in SkipDirs;
    }
  }

  /** A file is analysed exactly when it is at most 10 MiB, no component
      of its path is a skipped directory, and its suffix is a source
      suffix. */
  lemma ShouldAnalyzeFileExactly(size: int, parts: seq<string>, suffix: string)
    ensures ShouldAnalyzeFile(size, parts, suffix) <==>
      && size <= MaxFileSizeMb * 1024 * 1024
      && (forall i :: 0 <= i < |parts| ==> parts[i] !in SkipDirs)
      && suffix in CodeSuffixes
  {
    if exists d :: d in SkipDirs && d in parts {
      var d :| d in SkipDirs && d in parts;
      var i :| 0 <= i < |parts| && parts[i] == d;
    }
  }

  /** A skipped file stays skipped when its path gains components or the
      file grows; an analysed file stays analysed when it shrinks. */
  lemma ShouldAnalyzeFileMonotone(size: int, smaller: int, parts: seq<string>, more: seq<string>, suffix: string)
    requires smaller <= size
    ensures !ShouldAnalyzeFile(smaller, parts, suffix) ==> !ShouldAnalyzeFile(size, parts + more, suffix)
    ensures ShouldAnalyzeFile(size, parts, suffix) ==> ShouldAnalyzeFile(smaller, parts, suffix)
  {
    ShouldAnalyzeFileExactly(size, parts, suffix);
    ShouldAnalyzeFileExactly(smaller, parts, suffix);
    ShouldAnalyzeFileExactly(size, parts + more, suffix);
    assert forall i :: 0 <= i < |parts| ==> (parts + more)[i] == parts[i];
  }

  const Null: char := '\0'

  /** The end index of Python's `s[:stop]` on a string of length `len`: a
      negative `stop` counts from the end. */
  function SliceEnd(stop: int, len: nat): (r: nat)
    ensures r <= len
    ensures 0 <= stop <= len ==> r == stop
    ensures stop < 0 && -stop <= len ==> r == len + stop
  {
    if stop >= 0 then (if stop <= len then stop else len)
    else if len + stop >= 0 then len + stop else 0
  }

  /** The text after the three replacements: null bytes removed, `"""`
      turned into `'''`, and `'''` into three backticks. */
  function Escaped(text: string): string {
    var noNull := ReplaceAll(text, [Null], "");
    var single := ReplaceAll(noNull, "\"\"\"", "'''");
    ReplaceAll(single, "'''", "```")
  }

  /** The length limit, with the three-character ellipsis counted in. */
  function Truncate(text: string, maxLength: int): string {
    if |text| > maxLength then text[..SliceEnd(maxLength - 3, |text|)] + "..." else text
  }

  /** `sanitize_for_prompt(text, max_length)`. */
  function SanitizeForPrompt(text: string, maxLength: int): string {
    if text == [] then "" else Truncate(Escaped(text), maxLength)
  }

  /** Cutting a string free of `x` and of `xxx` and appending the ellipsis
      keeps it so, for any `x` other than the full stop. */
  lemma TruncateKeepsSafe(text: string, maxLength: int, x: char)
    requires x != '.' && x !in text && NoTriple(text, '"') && NoTriple(text, '\'')
    ensures var out := Truncate(text, maxLength);
            x !in out && NoTriple(out, '"') && NoTriple(out, '\'')
  {
    if |text| > maxLength {
      var head := text[..SliceEnd(maxLength - 3, |text|)];
      var out := head + "...";
      forall i | 0 <= i < |out| - 2
        ensures !(out[i] == '"' && out[i + 1] == '"' && out[i + 2] == '"')
        ensures !(out[i] == '\'' && out[i + 1] == '\'' && out[i + 2] == '\'')
      {
        if i + 2 < |head| {
          assert out[i] == text[i] && out[i + 1] == text[i + 1] && out[i + 2] == text[i + 2];
        } else {
          assert out[i + 2] == '.';
        }
      }
      assert forall k :: 0 <= k < |head| ==> head[k] == text[k];
    }
  }

  /** Whatever the input, the output has no null byte and no triple quote
      of either kind; the empty string stays empty. */
  lemma SanitizeIsSafe(text: string, maxLength: int)
    ensures var out := SanitizeForPrompt(text, maxLength);
            Null !in out && NoTriple(out, '"') && NoTriple(out, '\'')
    ensures text == [] ==> SanitizeForPrompt(text, maxLength) == []
  {
    if text != [] {
      var noNull := ReplaceAll(text, [Null], "");
      var single := ReplaceAll(noNull, "\"\"\"", "'''");
      var ticks := ReplaceAll(single, "'''", "```");
      ReplaceLeavesNoChar(text, [Null], "", Null);
      ReplaceLeavesNoChar(noNull, "\"\"\"", "'''", Null);
      ReplaceLeavesNoChar(single, "'''", "```", Null);
      ReplaceLeavesNoTriple(noNull, "\"\"\"", "'''", '"');
      ReplaceLeavesNoTriple(single, "'''", "```", '"');
      ReplaceLeavesNoTriple(single, "'''", "```", '\'');
      TruncateKeepsSafe(ticks, maxLength, Null);
    }
  }

  /** Over the limit, the output is the first `max_length - 3` characters
      of the escaped text and an ellipsis: exactly `max_length` long. */
  lemma SanitizeLength(text: string, maxLength: int)
    requires text != [] && maxLength >= 3
    ensures var escaped := Escaped(text);
            var out := SanitizeForPrompt(text, maxLength);
            && (|escaped| > maxLength ==> out == escaped[..maxLength - 3] + "..." && |out| == maxLength)
            && (|escaped| <= maxLength ==> out == escaped)
  {
  }

  /** Below three, the ellipsis alone exceeds the limit and the negative
      slice bound counts from the end, so the output is longer than
      `max_length`. */
  lemma ShortLimitOverflows(text: string, maxLength: int)
    requires text != [] && maxLength < 3 && |Escaped(text)| > maxLength
    ensures var escaped := Escaped(text);
            var out := SanitizeForPrompt(text, maxLength);
            |out| == SliceEnd(maxLength - 3, |escaped|) + 3 && |out| > maxLength
  {
  }

  /** Text within the limit with nothing to escape comes back unchanged. */
  lemma SanitizeUnchanged(text: string, maxLength: int)
    requires Null !in text && NoTriple(text, '"') && NoTriple(text, '\'') && |text| <= maxLength
    ensures SanitizeForPrompt(text, maxLength) == text
  {
    if text != [] {
      AbsentCharNotContained(text, Null);
      ReplaceAbsentIdentity(text, [Null], "");
      NoTripleNotContained(text, '"');
      assert "\"\"\"" == ['"', '"', '"'];
      ReplaceAbsentIdentity(text, "\"\"\"", "'''");
      NoTripleNotContained(text, '\'');
      assert "'''" == ['\'', '\'', '\''];
      ReplaceAbsentIdentity(text, "'''", "```");
    }
  }
}
