// backend/app/extractors/base_extractor.py: the completeness ratio of a list
// of extracted values, and the text normaliser.

module BaseExtractor {
  import opened Strings

  /** The Python values an extraction can yield. */
  datatype PyValue =
    | PyNone
    | PyBool(b: bool)
    | PyInt(i: int)
    | PyFloat(f: real)
    | PyStr(s: string)
    | PyList(items: seq<PyValue>)
    | PyDict(entries: seq<(string, PyValue)>)

  /** Python truthiness. */
  predicate Truthy(v: PyValue) {
    match v
    case PyNone => false
    case PyBool(b) => b
    case PyInt(i) => i != 0
    case PyFloat(f) => f != 0.0
    case PyStr(s) => s != ""
    case PyList(items) => |items| > 0
    case PyDict(entries) => |entries| > 0
  }

  /** `str(v) == 'unknown'`: only the string itself prints that way; numbers,
    * booleans, None, lists and dicts print as digits, words or brackets. */
  predicate PrintsUnknown(v: PyValue) {
    v == PyStr("unknown")
  }

  /** The three-branch test of `_calculate_confidence`, as written. */
  predicate CountsAsValid(v: PyValue) {
    if v.PyList? && |v.items| > 0 then true
    else if v.PyDict? && exists e :: e in v.entries && e.1 != PyStr("unknown") && Truthy(e.1) then true
    else Truthy(v) && !PrintsUnknown(v)
  }

  /** The branches collapse: an item counts iff it is truthy and does not
    * print as 'unknown'. */
  lemma CountsAsValidIff(v: PyValue)
    ensures CountsAsValid(v) <==> Truthy(v) && !PrintsUnknown(v)
  {
    if v.PyDict? && exists e :: e in v.entries && e.1 != PyStr("unknown") && Truthy(e.1) {
      var e :| e in v.entries && e.1 != PyStr("unknown") && Truthy(e.1);
      assert |v.entries| > 0;
    }
  }

  /** A non-empty dict whose values are all 'unknown' still counts: it falls
    * through to the last branch, where any non-empty dict is truthy. */
  lemma UnknownDictStillCounts(key: string)
    ensures CountsAsValid(PyDict([(key, PyStr("unknown"))]))
  {
  }

  /** Number of counted items. */
  function ValidCount(items: seq<PyValue>): (n: nat)
    ensures n <= |items|
  {
    if |items| == 0 then 0
    else ValidCount(items[..|items| - 1]) + (if CountsAsValid(items[|items| - 1]) then 1 else 0)
  }

  /** The counting loop of `_calculate_confidence`. */
  method CountValid(items: seq<PyValue>) returns (valid: nat)
    ensures valid == ValidCount(items)
  {
    valid := 0;
    for k := 0 to |items|
      invariant valid == ValidCount(items[..k])
    {
      assert items[..k + 1][..k] == items[..k];
      if items[k].PyList? && |items[k].items| > 0 {
        valid := valid + 1;
      } else if items[k].PyDict? &&
        exists e :: e in items[k].entries && e.1 != PyStr("unknown") && Truthy(e.1) {
        valid := valid + 1;
      } else if Truthy(items[k]) && !PrintsUnknown(items[k]) {
        valid := valid + 1;
      }
    }
    assert items[..|items|] == items;
  }

  lemma RatioBounded(a: nat, b: nat)
    requires 0 < b && a <= b
    ensures 0.0 <= a as real / b as real <= 1.0
  {
  }

  /** `_calculate_confidence` */
  method CalculateConfidence(items: seq<PyValue>) returns (r: real)
    ensures |items| == 0 ==> r == 0.0
    ensures |items| > 0 ==> r == ValidCount(items) as real / |items| as real
    ensures 0.0 <= r <= 1.0
  {
    if |items| == 0 {
      return 0.0;
    }
    var valid := CountValid(items);
    var total := |items|;
    r := valid as real / total as real;
    RatioBounded(valid, total);
  }

  // ---- _clean_text ----

  /** Whitespace other than the plain space is absent. */
  predicate OnlyPlainSpaces(s: string) {
    forall i :: 0 <= i < |s| ==> IsSpace(s[i]) ==> s[i] == ' '
  }

  /** `re.sub(r'\s+', ' ', text)` */
  function CollapseSpace(s: string): (r: string)
    ensures OnlyPlainSpaces(r)
    ensures |s| > 0 && IsSpace(s[0]) ==> |r| > 0 && r[0] == ' '
    decreases |s|
  {
    if |s| == 0 then ""
    else if IsSpace(s[0]) then
      var rest := CollapseSpace(s[1..]);
      if |rest| > 0 && rest[0] == ' ' && IsSpace(s[1]) then rest else [' '] + rest
    else [s[0]] + CollapseSpace(s[1..])
  }

  predicate IsPageWord(s: string, i: nat, word: string) {
    i + |word| <= |s| && Lower(s[i..i + |word|]) == word
  }

  /** End of a `Page\s+\d+\s+of\s+\d+` match at `i` (case-insensitive) once
    * whitespace runs are single spaces. */
  function PageMarkerAt(s: string, i: nat): (e: nat)
    requires i <= |s|
    ensures e == 0 || i < e <= |s|
  {
    var d1 := DigitRunLen(s, i + 5);
    var j := i + 5 + d1;
    var d2 := DigitRunLen(s, j + 4);
    if IsPageWord(s, i, "page") && i + 5 <= |s| && s[i + 4] == ' ' && d1 > 0
      && j + 4 <= |s| && s[j] == ' ' && IsPageWord(s, j + 1, "of") && s[j + 3] == ' ' && d2 > 0
    then j + 4 + d2
    else 0
  }

  function DigitRunLen(s: string, i: nat): (n: nat)
    ensures i <= |s| ==> i + n <= |s|
    ensures forall k :: i <= k < i + n ==> k < |s| && IsDigit(s[k])
    decreases |s| - i
  {
    if i < |s| && IsDigit(s[i]) then 1 + DigitRunLen(s, i + 1) else 0
  }

  /** `a` is `b` with some characters deleted (and nothing reordered or
    * added), matched greedily from the left. */
  predicate IsSubsequence(a: string, b: string)
    decreases |b|
  {
    if |a| == 0 then true
    else if |b| == 0 then false
    else if a[0] == b[0] then IsSubsequence(a[1..], b[1..])
    else IsSubsequence(a, b[1..])
  }

  lemma {:induction false} SubsequenceDropHead(a: string, b: string)
    requires |a| > 0 && IsSubsequence(a, b)
    ensures IsSubsequence(a[1..], b)
    decreases |b|, 1
  {
    if |a[1..]| > 0 && |b| > 0 {
      if a[0] == b[0] {
        SubsequenceDropHead(a[1..], b[1..]);
        SubsequenceSkip(a[1..], b);
      } else {
        SubsequenceDropHead(a, b[1..]);
        SubsequenceSkip(a[1..], b);
      }
    }
  }

  /** Skipping one more character of `b` keeps `a` a subsequence. */
  lemma {:induction false} SubsequenceSkip(a: string, b: string)
    requires |b| > 0 && IsSubsequence(a, b[1..])
    ensures IsSubsequence(a, b)
    decreases |b|, 0
  {
    if |a| > 0 && a[0] == b[0] {
      SubsequenceDropHead(a, b[1..]);
    }
  }

  lemma {:induction false} SubsequenceOfSuffix(a: string, b: string, k: nat)
    requires k <= |b| && IsSubsequence(a, b[k..])
    ensures IsSubsequence(a, b)
    decreases k
  {
    if k > 0 {
      assert b[k..] == b[1..][k - 1..];
      SubsequenceOfSuffix(a, b[1..], k - 1);
      SubsequenceSkip(a, b);
    }
  }

  /** `re.sub(r'Page\s+\d+\s+of\s+\d+', '', text, flags=re.IGNORECASE)`:
    * leftmost matches removed, scanning left to right. */
  function RemovePageMarkers(s: string): (r: string)
    ensures forall i :: 0 <= i < |r| ==> r[i] in s
    ensures IsSubsequence(r, s)
    decreases |s|
  {
    if |s| == 0 then ""
    else
      var e := PageMarkerAt(s, 0);
      if e > 0 then
        var rest := RemovePageMarkers(s[e..]);
        assert forall i :: 0 <= i < |rest| ==> rest[i] in s;
        SubsequenceOfSuffix(rest, s, e);
        rest
      else
        var rest := RemovePageMarkers(s[1..]);
        assert forall i :: 0 <= i < |rest| ==> rest[i] in s;
        assert ([s[0]] + rest)[1..] == rest;
        [s[0]] + rest
  }

  /** `re.sub(r'^\d+\s*$', '', text, flags=re.MULTILINE)` on a text without
    * line breaks: the whole text goes when it is digits and trailing spaces. */
  function RemoveBareNumber(s: string): (r: string)
    ensures r == "" || r == s
  {
    var d := DigitRunLen(s, 0);
    if d > 0 && forall k :: d <= k < |s| ==> IsSpace(s[k]) then "" else s
  }

  predicate IsDash(c: char) { c == '-' || c == '_' }

  function DashRunLen(s: string, i: nat): (n: nat)
    ensures i <= |s| ==> i + n <= |s|
    decreases |s| - i
  {
    if i < |s| && IsDash(s[i]) then 1 + DashRunLen(s, i + 1) else 0
  }

  /** No three dashes or underscores in a row. */
  predicate NoDashTriple(s: string) {
    forall i :: 0 <= i && i + 2 < |s| ==> !(IsDash(s[i]) && IsDash(s[i + 1]) && IsDash(s[i + 2]))
  }

  /** `re.sub(r'[-_]{3,}', '', text)`: whole runs of three or more are
    * deleted, so none remains, and runs shorter than three are kept. */
  function RemoveDashRuns(s: string): (r: string)
    ensures forall i :: 0 <= i < |r| ==> r[i] in s
    ensures IsSubsequence(r, s)
    ensures NoDashTriple(r)
    ensures DashRunLen(r, 0) <= (if DashRunLen(s, 0) >= 3 then 0 else DashRunLen(s, 0))
    decreases |s|
  {
    if |s| == 0 then ""
    else
      var n := DashRunLen(s, 0);
      if n >= 3 then
        var rest := RemoveDashRuns(s[n..]);
        assert forall i :: 0 <= i < |rest| ==> rest[i] in s;
        SubsequenceOfSuffix(rest, s, n);
        DashRunEnds(s, 0);
        rest
      else
        var rest := RemoveDashRuns(s[1..]);
        assert forall i :: 0 <= i < |rest| ==> rest[i] in s;
        var r := [s[0]] + rest;
        assert r[1..] == rest;
        DashRunShift(s);
        DashRunShift(r);
        assert NoDashTriple(r) by {
          forall i | 0 < i && i + 2 < |r| ensures !(IsDash(r[i]) && IsDash(r[i + 1]) && IsDash(r[i + 2])) {
            assert r[i] == rest[i - 1] && r[i + 1] == rest[i] && r[i + 2] == rest[i + 1];
          }
          if |r| >= 3 && IsDash(r[0]) && IsDash(r[1]) && IsDash(r[2]) {
            DashRunShift(rest);
            assert false;
          }
        }
        r
  }

  /** A dash run ends at a character that is not a dash. */
  lemma DashRunEnds(s: string, i: nat)
    requires i <= |s|
    ensures DashRunLen(s[i + DashRunLen(s, i)..], 0) == 0
    decreases |s| - i
  {
    if i < |s| && IsDash(s[i]) {
      DashRunEnds(s, i + 1);
    }
  }

  /** The run at the start is one longer than the run after its first
    * character, when that character is a dash. */
  lemma DashRunShift(s: string)
    ensures |s| > 0 && IsDash(s[0]) ==> DashRunLen(s, 0) == 1 + DashRunLen(s[1..], 0)
    ensures |s| > 0 && !IsDash(s[0]) ==> DashRunLen(s, 0) == 0
  {
    if |s| > 0 && IsDash(s[0]) {
      DashRunTail(s, 1);
    }
  }

  lemma DashRunTail(s: string, i: nat)
    requires 1 <= i <= |s|
    ensures DashRunLen(s, i) == DashRunLen(s[1..], i - 1)
    decreases |s| - i
  {
    if i < |s| && IsDash(s[i]) {
      DashRunTail(s, i + 1);
    }
  }

  predicate IsBullet(c: char) { c == '•' || c == '-' || c == '*' }

  /** `re.sub(r'^[•\-\*]\s*', '', text, flags=re.MULTILINE)` on a text
    * without line breaks: one leading bullet and the spaces after it. */
  function RemoveLeadingBullet(s: string): (r: string)
    ensures forall i :: 0 <= i < |r| ==> r[i] in s
    ensures |r| <= |s| && r == s[|s| - |r|..]
    ensures !(|s| > 0 && IsBullet(s[0])) ==> r == s
    ensures |s| > 0 && IsBullet(s[0]) ==>
      |r| < |s| && (forall k :: 1 <= k < |s| - |r| ==> IsSpace(s[k])) && (|r| > 0 ==> !IsSpace(r[0]))
  {
    if |s| > 0 && IsBullet(s[0]) then
      var r := TrimLeft(s[1..], IsSpace);
      assert forall i :: 0 <= i < |r| ==> r[i] == s[1..][|s[1..]| - |r| + i];
      r
    else s
  }

  /** `_clean_text` */
  function CleanText(text: string): (r: string)
    ensures text == "" ==> r == ""
    ensures |r| > 0 ==> !IsSpace(r[0]) && !IsSpace(r[|r| - 1])
    ensures OnlyPlainSpaces(r)
  {
    if text == "" then ""
    else
      var s1 := CollapseSpace(text);
      var s2 := RemovePageMarkers(s1);
      var s3 := RemoveBareNumber(s2);
      var s4 := RemoveDashRuns(s3);
      var s5 := RemoveLeadingBullet(s4);
      var r := Strip(s5);
      CharsSurvive(s1, s2, s3, s4, s5, r);
      r
  }

  /** Characters drawn from a text without line breaks bring none. */
  lemma PlainSpacesInherited(a: string, b: string)
    requires OnlyPlainSpaces(b)
    requires forall i :: 0 <= i < |a| ==> a[i] in b
    ensures OnlyPlainSpaces(a)
  {
    forall i | 0 <= i < |a| && IsSpace(a[i]) ensures a[i] == ' ' {
      var k :| 0 <= k < |b| && b[k] == a[i];
    }
  }

  lemma CharsSurvive(s1: string, s2: string, s3: string, s4: string, s5: string, r: string)
    requires OnlyPlainSpaces(s1)
    requires forall i :: 0 <= i < |s2| ==> s2[i] in s1
    requires s3 == "" || s3 == s2
    requires forall i :: 0 <= i < |s4| ==> s4[i] in s3
    requires forall i :: 0 <= i < |s5| ==> s5[i] in s4
    requires r == Strip(s5)
    ensures OnlyPlainSpaces(r)
  {
    PlainSpacesInherited(s2, s1);
    assert OnlyPlainSpaces(s3);
    PlainSpacesInherited(s4, s3);
    PlainSpacesInherited(s5, s4);
    StripDrawn(s5);
    PlainSpacesInherited(r, s5);
  }
}
