/** String helpers standing for the Python `str` methods the core calls:
    `lower`, `in` (substring), `find`, `rfind` and integer formatting. */
module Text {

  /** ASCII lower-casing, the part of `str.lower` the core's literals need. */
  function LowerChar(c: char): (d: char)
    ensures 'A' <= c <= 'Z' ==> d as int == c as int + 32
    ensures !('A' <= c <= 'Z') ==> d == c
  {
    if 'A' <= c <= 'Z' then (c as int + 32) as char else c
  }

  function Lower(s: string): (r: string)
    ensures |r| == |s|
    ensures forall i :: 0 <= i < |s| ==> r[i] == LowerChar(s[i])
  {
    if s == [] then [] else [LowerChar(s[0])] + Lower(s[1..])
  }

  predicate NoUpper(s: string) {
    forall i :: 0 <= i < |s| ==> !('A' <= s[i] <= 'Z')
  }

  /** A string without upper-case ASCII letters is its own lower-casing. */
  lemma LowerOfLowercase(s: string)
    requires NoUpper(s)
    ensures Lower(s) == s
  {
  }

  predicate IsPrefix(p: string, s: string) {
    |p| <= |s| && s[..|p|] == p
  }

  /** Python's `sub in s`. */
  function Contains(s: string, sub: string): (r: bool)
    ensures r <==> exists i :: 0 <= i <= |s| - |sub| && IsPrefix(sub, s[i..])
    decreases |s|
  {
    if IsPrefix(sub, s) then
      assert IsPrefix(sub, s[0..]);
      true
    else if |s| <= |sub| then
      assert forall i :: 0 <= i <= |s| - |sub| ==> i == 0 && s[i..] == s;
      false
    else
      var r := Contains(s[1..], sub);
      assert forall i :: 1 <= i <= |s| - |sub| ==> s[i..] == s[1..][i - 1..];
      r
  }

  /** `s.find(c)`: the first index of `c`, or -1. */
  function Find(s: string, c: char): (r: int)
    ensures -1 <= r < |s|
    ensures r == -1 <==> c !in s
    ensures r >= 0 ==> s[r] == c && c !in s[..r]
    ensures forall i :: 0 <= i < |s| && s[i] == c ==> 0 <= r <= i
  {
    if s == [] then -1
    else if s[0] == c then 0
    else
      var k := Find(s[1..], c);
      assert s[1..] == s[1..|s|];
      if k == -1 then -1
      else
        assert s[..k + 1] == [s[0]] + s[1..][..k];
        k + 1
  }

  /** `s.rfind(c)`: the last index of `c`, or -1. */
  function RFind(s: string, c: char): (r: int)
    ensures -1 <= r < |s|
    ensures r == -1 <==> c !in s
    ensures r >= 0 ==> s[r] == c && c !in s[r + 1..]
    ensures forall i :: 0 <= i < |s| && s[i] == c ==> r >= i
  {
    if s == [] then -1
    else if s[|s| - 1] == c then |s| - 1
    else
      var k := RFind(s[..|s| - 1], c);
      assert s == s[..|s| - 1] + [s[|s| - 1]];
      if k >= 0 then
        assert s[k + 1..] == s[..|s| - 1][k + 1..] + [s[|s| - 1]];
        k
      else k
  }

  function DigitChar(d: nat): (c: char)
    requires d < 10
    ensures '0' <= c <= '9'
  {
    ('0' as int + d) as char
  }

  /** Decimal rendering of a natural number, as Python's `str(n)`. */
  function NatToString(n: nat): (s: string)
    ensures |s| >= 1
    ensures forall i :: 0 <= i < |s| ==> '0' <= s[i] <= '9'
    decreases n
  {
    if n < 10 then [DigitChar(n)] else NatToString(n / 10) + [DigitChar(n % 10)]
  }

  /** Python's `s.replace(pat, rep)` for a non-empty pattern: occurrences
      replaced left to right, without overlap. */
  function ReplaceAll(s: string, pat: string, rep: string): string
    requires pat != []
    decreases |s|
  {
    if |s| < |pat| then s
    else if s[..|pat|] == pat then rep + ReplaceAll(s[|pat|..], pat, rep)
    else [s[0]] + ReplaceAll(s[1..], pat, rep)
  }

  /** No three consecutive copies of `x`. */
  predicate NoTriple(s: string, x: char) {
    forall i :: 0 <= i < |s| - 2 ==> !(s[i] == x && s[i + 1] == x && s[i + 2] == x)
  }

  /** With a replacement free of `x`, a replaced string starting with `x`
      starts with a character kept from the input. */
  lemma HeadKept(t: string, pat: string, rep: string, x: char)
    requires pat != [] && rep != [] && x !in rep
    ensures var out := ReplaceAll(t, pat, rep);
            out != [] && out[0] == x ==> t != [] && t[0] == x && out[1..] == ReplaceAll(t[1..], pat, rep)
  {
    if |t| >= |pat| && t[..|pat|] == pat {
      assert ReplaceAll(t, pat, rep)[0] == rep[0] != x;
    }
  }

  /** After replacing every `xxx` with text free of `x` no `xxx` remains,
      and replacing any pattern with such text creates none. */
  lemma {:induction false} ReplaceLeavesNoTriple(s: string, pat: string, rep: string, x: char)
    requires pat != [] && rep != [] && x !in rep
    requires pat == [x, x, x] || NoTriple(s, x)
    ensures NoTriple(ReplaceAll(s, pat, rep), x)
    decreases |s|
  {
    var out := ReplaceAll(s, pat, rep);
    if |s| < |pat| {
      if pat == [x, x, x] {
        assert |out| < 3;
      }
    } else if s[..|pat|] == pat {
      var rest := s[|pat|..];
      assert NoTriple(s, x) ==> NoTriple(rest, x) by {
        if NoTriple(s, x) {
          forall i | 0 <= i < |rest| - 2
            ensures !(rest[i] == x && rest[i + 1] == x && rest[i + 2] == x)
          {
            assert rest[i] == s[i + |pat|] && rest[i + 1] == s[i + 1 + |pat|] && rest[i + 2] == s[i + 2 + |pat|];
          }
        }
      }
      ReplaceLeavesNoTriple(rest, pat, rep, x);
      var tail := ReplaceAll(rest, pat, rep);
      assert out == rep + tail;
      forall i | 0 <= i < |out| - 2
        ensures !(out[i] == x && out[i + 1] == x && out[i + 2] == x)
      {
        if i < |rep| {
          assert out[i] == rep[i];
        } else {
          assert out[i] == tail[i - |rep|] && out[i + 1] == tail[i + 1 - |rep|] && out[i + 2] == tail[i + 2 - |rep|];
        }
      }
    } else {
      var rest := s[1..];
      assert NoTriple(s, x) ==> NoTriple(rest, x) by {
        if NoTriple(s, x) {
          forall i | 0 <= i < |rest| - 2
            ensures !(rest[i] == x && rest[i + 1] == x && rest[i + 2] == x)
          {
            assert rest[i] == s[i + 1] && rest[i + 1] == s[i + 2] && rest[i + 2] == s[i + 3];
          }
        }
      }
      ReplaceLeavesNoTriple(rest, pat, rep, x);
      var tail := ReplaceAll(rest, pat, rep);
      assert out == [s[0]] + tail;
      forall i | 0 <= i < |out| - 2
        ensures !(out[i] == x && out[i + 1] == x && out[i + 2] == x)
      {
        if i == 0 {
          HeadKept(rest, pat, rep, x);
          if rest != [] {
            HeadKept(rest[1..], pat, rep, x);
            if |rest| >= 2 {
              assert rest[0] == s[1] && rest[1..][0] == s[2];
              assert s[..3] == [s[0], s[1], s[2]];
            }
          }
        } else {
          assert out[i] == tail[i - 1] && out[i + 1] == tail[i] && out[i + 2] == tail[i + 1];
        }
      }
    }
  }

  /** Replacing `[x]` with text free of `x` removes every `x`, and
      replacing any pattern with such text adds none. */
  lemma {:induction false} ReplaceLeavesNoChar(s: string, pat: string, rep: string, x: char)
    requires pat != [] && x !in rep
    requires pat == [x] || x !in s
    ensures x !in ReplaceAll(s, pat, rep)
    decreases |s|
  {
    if |s| < |pat| {
    } else if s[..|pat|] == pat {
      assert x !in s ==> x !in s[|pat|..];
      ReplaceLeavesNoChar(s[|pat|..], pat, rep, x);
    } else {
      assert x !in s ==> x !in s[1..];
      ReplaceLeavesNoChar(s[1..], pat, rep, x);
    }
  }

  /** Where the pattern never occurs, replacing changes nothing. */
  lemma {:induction false} ReplaceAbsentIdentity(s: string, pat: string, rep: string)
    requires pat != [] && !Contains(s, pat)
    ensures ReplaceAll(s, pat, rep) == s
    decreases |s|
  {
    if |s| >= |pat| {
      assert !IsPrefix(pat, s[0..]) && s[0..] == s;
      var rest := s[1..];
      if |rest| >= |pat| {
        forall i | 0 <= i <= |rest| - |pat|
          ensures !IsPrefix(pat, rest[i..])
        {
          assert rest[i..] == s[i + 1..];
        }
      }
      ReplaceAbsentIdentity(rest, pat, rep);
      assert s == [s[0]] + rest;
    }
  }

  /** A string free of `x` does not contain the one-character string `x`. */
  lemma AbsentCharNotContained(s: string, x: char)
    requires x !in s
    ensures !Contains(s, [x])
  {
    forall i | 0 <= i <= |s| - 1
      ensures !IsPrefix([x], s[i..])
    {
      assert s[i..][..1] == [s[i]];
    }
  }

  /** A string without `xxx` does not contain it. */
  lemma NoTripleNotContained(s: string, x: char)
    requires NoTriple(s, x)
    ensures !Contains(s, [x, x, x])
  {
    forall i | 0 <= i <= |s| - 3
      ensures !IsPrefix([x, x, x], s[i..])
    {
      assert s[i..][..3] == [s[i], s[i + 1], s[i + 2]];
    }
  }
}
