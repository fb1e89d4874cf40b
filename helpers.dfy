// backend/app/utils/helpers.py: the filename sanitiser and the study-id
// extractor.

module Helpers {
  import opened Common
  import opened Strings

  /** The characters `sanitize_filename` replaces, in the order it visits them. */
  const UnsafeChars: seq<char> := ['/', '\\', ':', '*', '?', '"', '<', '>', '|']

  /** Every unsafe character replaced by '_', everything else kept in place. */
  function Sanitized(filename: string): (r: string)
  {
    ReplaceAny(filename, UnsafeChars, '_')
  }

  /** `sanitize_filename`: one `str.replace` per unsafe character. */
  method SanitizeFilename(filename: string) returns (safe: string)
    ensures safe == Sanitized(filename)
    ensures |safe| == |filename|
    ensures forall c :: c in UnsafeChars ==> c !in safe
  {
    safe := filename;
    for k := 0 to |UnsafeChars|
      invariant safe == ReplaceAny(filename, UnsafeChars[..k], '_')
    {
      ReplaceAnyStep(filename, UnsafeChars[..k], UnsafeChars[k], '_');
      assert UnsafeChars[..k] + [UnsafeChars[k]] == UnsafeChars[..k + 1];
      safe := ReplaceChar(safe, UnsafeChars[k], '_');
    }
    assert UnsafeChars[..|UnsafeChars|] == UnsafeChars;
  }

  /** The result holds no unsafe character, has the input's length, and keeps
    * every safe character at its position. */
  lemma SanitizedProperties(filename: string)
    ensures |Sanitized(filename)| == |filename|
    ensures forall i :: 0 <= i < |filename| ==> Sanitized(filename)[i] !in UnsafeChars
    ensures forall i :: 0 <= i < |filename| && filename[i] !in UnsafeChars ==>
      Sanitized(filename)[i] == filename[i]
  {
  }

  /** Sanitising twice is sanitising once. */
  lemma SanitizedIdempotent(filename: string)
    ensures Sanitized(Sanitized(filename)) == Sanitized(filename)
  {
  }

  // ---- extract_study_id_from_filename ----

  /** The three patterns, tried in this order. */
  datatype StudyPattern =
    | CodePattern      // ([A-Z]{2,4}[-_]?\d{2,4}[-_]?\d{2,4})
    | StudyWord        // (study[-_]?\d+)
    | ProtocolWord     // (protocol[-_]?[A-Z0-9]+)

  predicate IsSep(c: char) { c == '-' || c == '_' }

  predicate IsUpperOrDigit(c: char) { IsUpperLetter(c) || IsDigit(c) }

  /** Length of the run of characters satisfying `p` at `i`, at most `cap`. */
  function RunLen(s: string, i: nat, p: char -> bool, cap: nat): (n: nat)
    requires i <= |s|
    ensures n <= cap && i + n <= |s|
    ensures forall k :: i <= k < i + n ==> p(s[k])
    ensures n < cap && i + n < |s| ==> !p(s[i + n])
    decreases cap
  {
    if cap == 0 || i == |s| || !p(s[i]) then 0 else 1 + RunLen(s, i + 1, p, cap - 1)
  }

  /** `\d{2,4}` at the end of the pattern: greedy, so the longest run wins. */
  function FinalDigits(s: string, j: nat): (e: Option<nat>)
    requires j <= |s|
    ensures e.Some? ==> j + 2 <= e.value <= |s|
  {
    var n := RunLen(s, j, IsDigit, 4);
    if n >= 2 then Some(j + n) else None
  }

  /** `[-_]?\d{2,4}`: the separator is taken when present. */
  function SepFinalDigits(s: string, j: nat): (e: Option<nat>)
    requires j <= |s|
    ensures e.Some? ==> j <= e.value <= |s|
  {
    if j < |s| && IsSep(s[j]) && FinalDigits(s, j + 1).Some? then FinalDigits(s, j + 1)
    else FinalDigits(s, j)
  }

  /** `\d{2,4}[-_]?\d{2,4}` trying `d` digits first, then fewer. */
  function MiddleDigits(s: string, j: nat, d: nat): (e: Option<nat>)
    requires j + d <= |s|
    ensures e.Some? ==> j <= e.value <= |s|
    decreases d
  {
    if d < 2 then None
    else
      var e := SepFinalDigits(s, j + d);
      if e.Some? then e else MiddleDigits(s, j, d - 1)
  }

  /** `[-_]?\d{2,4}[-_]?\d{2,4}` after the letters. */
  function AfterLetters(s: string, j: nat): (e: Option<nat>)
    requires j <= |s|
    ensures e.Some? ==> j <= e.value <= |s|
  {
    var withSep :=
      if j < |s| && IsSep(s[j]) then MiddleDigits(s, j + 1, RunLen(s, j + 1, IsDigit, 4)) else None;
    if withSep.Some? then withSep else MiddleDigits(s, j, RunLen(s, j, IsDigit, 4))
  }

  /** `[A-Z]{2,4}` trying `n` letters first, then fewer. */
  function CodeLetters(s: string, i: nat, n: nat): (e: Option<nat>)
    requires i + n <= |s|
    ensures e.Some? ==> i <= e.value <= |s|
    decreases n
  {
    if n < 2 then None
    else
      var e := AfterLetters(s, i + n);
      if e.Some? then e else CodeLetters(s, i, n - 1)
  }

  /** A literal word, an optional separator, then a non-empty run of `tail`. */
  function WordThenRun(s: string, i: nat, word: string, tail: char -> bool): (e: Option<nat>)
    requires i <= |s|
    ensures e.Some? ==> i <= e.value <= |s| && StartsWith(s[i..], word)
  {
    if !StartsWith(s[i..], word) then None
    else
      var j := i + |word|;
      if j < |s| && IsSep(s[j]) && j + 1 < |s| && tail(s[j + 1]) then
        Some(j + 1 + RunLen(s, j + 1, tail, |s| - (j + 1)))
      else if j < |s| && tail(s[j]) then Some(j + RunLen(s, j, tail, |s| - j))
      else None
  }

  /** The end of a match of pattern `p` starting at `i`, if there is one. */
  function MatchAt(p: StudyPattern, s: string, i: nat): (e: Option<nat>)
    requires i <= |s|
    ensures e.Some? ==> i <= e.value <= |s|
  {
    match p
    case CodePattern => CodeLetters(s, i, RunLen(s, i, IsUpperLetter, 4))
    case StudyWord => WordThenRun(s, i, "study", IsDigit)
    case ProtocolWord => WordThenRun(s, i, "protocol", IsUpperOrDigit)
  }

  /** Where pattern `p` matches `s`, position by position. */
  function Matches(p: StudyPattern, s: string): (r: seq<Option<nat>>)
    ensures |r| == |s| + 1
  {
    seq(|s| + 1, k requires 0 <= k <= |s| => MatchAt(p, s, k))
  }

  /** The first position from `i` on where a match ends, with that end. */
  function FirstMatch(ms: seq<Option<nat>>, i: nat): (m: Option<(nat, nat)>)
    requires i <= |ms|
    ensures m.Some? ==> i <= m.value.0 < |ms| && ms[m.value.0] == Some(m.value.1)
    decreases |ms| - i
  {
    if i == |ms| then None
    else if ms[i].Some? then Some((i, ms[i].value))
    else FirstMatch(ms, i + 1)
  }

  /** No position before the one reported matches, and when none is
    * reported, no position from `i` on matches. */
  lemma {:induction false} FirstMatchIsLeftmost(ms: seq<Option<nat>>, i: nat)
    requires i <= |ms|
    ensures var m := FirstMatch(ms, i);
      && (m.Some? ==> forall k :: i <= k < m.value.0 ==> ms[k].None?)
      && (m.None? ==> forall k :: i <= k < |ms| ==> ms[k].None?)
    decreases |ms| - i
  {
    if i < |ms| && ms[i].None? {
      FirstMatchIsLeftmost(ms, i + 1);
    }
  }

  /** `re.search`: the leftmost position where `p` matches, with its end. */
  function Search(p: StudyPattern, s: string, i: nat): (m: Option<(nat, nat)>)
    requires i <= |s|
    ensures m.Some? ==> i <= m.value.0 <= m.value.1 <= |s| && MatchAt(p, s, m.value.0) == Some(m.value.1)
  {
    FirstMatch(Matches(p, s), i)
  }

  /** The search finds the leftmost match: no position before the one it
    * reports matches, and when it reports none, no position matches. */
  lemma SearchIsLeftmost(p: StudyPattern, s: string, i: nat)
    requires i <= |s|
    ensures var m := Search(p, s, i);
      && (m.Some? ==> forall k :: i <= k < m.value.0 ==> MatchAt(p, s, k).None?)
      && (m.None? ==> forall k :: i <= k <= |s| ==> MatchAt(p, s, k).None?)
  {
    var ms := Matches(p, s);
    FirstMatchIsLeftmost(ms, i);
    forall k | i <= k <= |s| ensures MatchAt(p, s, k) == ms[k] {
    }
  }

  function SearchGroup(p: StudyPattern, s: string): (r: Option<string>)
  {
    var m := Search(p, s, 0);
    if m.Some? then Some(s[m.value.0..m.value.1]) else None
  }

  /** `extract_study_id_from_filename`: the first pattern that matches the
    * upper-cased name gives the id. */
  function ExtractStudyId(filename: string): (r: Option<string>)
    ensures r.Some? ==> exists i, j :: 0 <= i <= j <= |filename| && r.value == Upper(filename)[i..j]
  {
    var upper := Upper(filename);
    var code := SearchGroup(CodePattern, upper);
    if code.Some? then code
    else
      var study := SearchGroup(StudyWord, upper);
      if study.Some? then study
      else SearchGroup(ProtocolWord, upper)
  }

  /** The 'study' and 'protocol' patterns are lower-case literals searched in
    * upper-cased text, so only the code pattern can ever supply the id. */
  lemma OnlyCodePatternMatches(filename: string)
    ensures SearchGroup(StudyWord, Upper(filename)).None?
    ensures SearchGroup(ProtocolWord, Upper(filename)).None?
    ensures ExtractStudyId(filename) == SearchGroup(CodePattern, Upper(filename))
  {
    var u := Upper(filename);
    forall k | 0 <= k <= |u|
      ensures MatchAt(StudyWord, u, k).None? && MatchAt(ProtocolWord, u, k).None?
    {
      LowerWordNeverStarts(u, k, "study");
      LowerWordNeverStarts(u, k, "protocol");
    }
  }

  lemma LowerWordNeverStarts(u: string, k: nat, word: string)
    requires k <= |u| && |word| > 0 && IsLowerLetter(word[0])
    requires forall i :: 0 <= i < |u| ==> !IsLowerLetter(u[i])
    ensures !StartsWith(u[k..], word)
  {
  }
}
