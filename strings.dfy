// Python string operations used throughout the services, modelled on
// sequences of characters. Case mapping and whitespace are the ASCII ones.

module Strings {

  /** The six characters space, tab, newline, carriage return, vertical tab
    * and form feed; Python's `str.split()`, `str.strip()` and `\s` also
    * treat `\x1c` to `\x1f` and non-ASCII spaces as whitespace. */
  predicate IsSpace(c: char) {
    c == ' ' || c == '\t' || c == '\n' || c == '\r' || c == '\U{B}' || c == '\U{C}'
  }

  predicate IsDigit(c: char) { '0' <= c <= '9' }

  predicate IsLowerLetter(c: char) { 'a' <= c <= 'z' }

  predicate IsUpperLetter(c: char) { 'A' <= c <= 'Z' }

  predicate IsAlpha(c: char) { IsLowerLetter(c) || IsUpperLetter(c) }

  /** A character of the regex class `\w`. */
  predicate IsWordChar(c: char) { IsAlpha(c) || IsDigit(c) || c == '_' }

  function LowerChar(c: char): (r: char)
    ensures !IsUpperLetter(r)
    ensures IsWordChar(r) == IsWordChar(c)
    ensures IsSpace(r) == IsSpace(c) && IsDigit(r) == IsDigit(c)
  {
    if IsUpperLetter(c) then (c as int + 32) as char else c
  }

  function UpperChar(c: char): (r: char)
    ensures !IsLowerLetter(r)
    ensures IsDigit(r) == IsDigit(c)
  {
    if IsLowerLetter(c) then (c as int - 32) as char else c
  }

  /** `str.lower()` */
  function Lower(s: string): (r: string)
    ensures |r| == |s|
    ensures forall i :: 0 <= i < |s| ==> r[i] == LowerChar(s[i])
  {
    seq(|s|, i requires 0 <= i < |s| => LowerChar(s[i]))
  }

  /** `str.upper()` */
  function Upper(s: string): (r: string)
    ensures |r| == |s|
    ensures forall i :: 0 <= i < |s| ==> r[i] == UpperChar(s[i])
  {
    seq(|s|, i requires 0 <= i < |s| => UpperChar(s[i]))
  }

  /** Drops leading characters satisfying `drop`. */
  function TrimLeft(s: string, drop: char -> bool): (r: string)
    ensures |r| <= |s| && r == s[|s| - |r|..]
    ensures |r| > 0 ==> !drop(r[0])
    ensures forall i :: 0 <= i < |s| - |r| ==> drop(s[i])
    decreases |s|
  {
    if |s| > 0 && drop(s[0]) then TrimLeft(s[1..], drop) else s
  }

  /** Drops trailing characters satisfying `drop`. */
  function TrimRight(s: string, drop: char -> bool): (r: string)
    ensures |r| <= |s| && r == s[..|r|]
    ensures |r| > 0 ==> !drop(r[|r| - 1])
    ensures forall i :: |r| <= i < |s| ==> drop(s[i])
    decreases |s|
  {
    if |s| > 0 && drop(s[|s| - 1]) then TrimRight(s[..|s| - 1], drop) else s
  }

  /** `str.strip()` */
  function Strip(s: string): (r: string)
    ensures |r| <= |s|
    ensures |r| > 0 ==> !IsSpace(r[0]) && !IsSpace(r[|r| - 1])
    ensures r == [] <==> forall i :: 0 <= i < |s| ==> IsSpace(s[i])
  {
    TrimLeft(TrimRight(s, IsSpace), IsSpace)
  }

  /** Stripping keeps only characters of the text. */
  lemma StripDrawn(s: string)
    ensures forall i :: 0 <= i < |Strip(s)| ==> Strip(s)[i] in s
  {
    var a := TrimRight(s, IsSpace);
    var r := TrimLeft(a, IsSpace);
    assert r == a[|a| - |r|..] && a == s[..|a|];
    forall i | 0 <= i < |r| ensures r[i] in s {
      assert r[i] == a[|a| - |r| + i] == s[|a| - |r| + i];
    }
  }

  /** `str.split(sep)` with a one-character separator: always at least one
    * part, and no part contains the separator. */
  function Split(s: string, sep: char): (r: seq<string>)
    ensures |r| >= 1
    ensures forall p :: p in r ==> sep !in p
    decreases |s|
  {
    if |s| == 0 then [""]
    else
      var rest := Split(s[1..], sep);
      if s[0] == sep then [""] + rest
      else [[s[0]] + rest[0]] + rest[1..]
  }

  /** `str.split()` with no argument: the maximal runs of non-whitespace. */
  function Words(s: string): (r: seq<string>)
    ensures |s| > 0 && !IsSpace(s[0]) ==> |r| > 0
    ensures forall w :: w in r ==> |w| > 0 && forall i :: 0 <= i < |w| ==> !IsSpace(w[i])
    decreases |s|
  {
    if |s| == 0 then []
    else
      var rest := Words(s[1..]);
      if IsSpace(s[0]) then rest
      else if |s| > 1 && !IsSpace(s[1]) then [[s[0]] + rest[0]] + rest[1..]
      else [[s[0]]] + rest
  }

  /** `sep.join(parts)` */
  function Join(parts: seq<string>, sep: string): string
  {
    if |parts| == 0 then ""
    else if |parts| == 1 then parts[0]
    else parts[0] + sep + Join(parts[1..], sep)
  }

  predicate StartsWith(s: string, prefix: string) {
    |prefix| <= |s| && s[..|prefix|] == prefix
  }

  /** `sub in s` */
  predicate Contains(s: string, sub: string)
    decreases |s|
  {
    StartsWith(s, sub) || (|s| > 0 && Contains(s[1..], sub))
  }

  /** `s.replace(c, r)` for a single character `c`. */
  function ReplaceChar(s: string, c: char, r: char): (t: string)
    ensures |t| == |s|
    ensures forall i :: 0 <= i < |s| ==> t[i] == (if s[i] == c then r else s[i])
  {
    seq(|s|, i requires 0 <= i < |s| => if s[i] == c then r else s[i])
  }

  /** Every character of `cs` in `s` replaced by `r`, everything else kept
    * in place: what one `str.replace` per character of `cs` leaves. */
  function ReplaceAny(s: string, cs: seq<char>, r: char): (t: string)
    ensures |t| == |s|
  {
    seq(|s|, i requires 0 <= i < |s| => if s[i] in cs then r else s[i])
  }

  /** One more `str.replace` extends the set of replaced characters. */
  lemma ReplaceAnyStep(s: string, cs: seq<char>, c: char, r: char)
    ensures ReplaceChar(ReplaceAny(s, cs, r), c, r) == ReplaceAny(s, cs + [c], r)
  {
    var a := ReplaceChar(ReplaceAny(s, cs, r), c, r);
    var b := ReplaceAny(s, cs + [c], r);
    forall i | 0 <= i < |s| ensures a[i] == b[i] {
      assert s[i] in cs + [c] <==> s[i] in cs || s[i] == c;
    }
  }

  predicate HasDigit(s: string) {
    exists i :: 0 <= i < |s| && IsDigit(s[i])
  }

  /** Number of characters of `s` satisfying `p`. */
  function CountWhere(s: string, p: char -> bool): (n: nat)
    ensures n <= |s|
  {
    if |s| == 0 then 0 else (if p(s[0]) then 1 else 0) + CountWhere(s[1..], p)
  }

  /** Number of maximal digit runs, as `len(re.findall(r'\d+', s))`. */
  function DigitRuns(s: string): nat
    decreases |s|
  {
    if |s| == 0 then 0
    else if IsDigit(s[0]) && (|s| == 1 || !IsDigit(s[1])) then 1 + DigitRuns(s[1..])
    else DigitRuns(s[1..])
  }

  /** `str.isupper()`: at least one cased character and no lower-case one. */
  predicate IsUpperWord(s: string) {
    (exists i :: 0 <= i < |s| && IsUpperLetter(s[i])) &&
    (forall i :: 0 <= i < |s| ==> !IsLowerLetter(s[i]))
  }

  /** `str.title()`: the first letter of every run of letters is upper-cased,
    * the others lower-cased. */
  function Title(s: string): (r: string)
    ensures |r| == |s|
  {
    TitleFrom(s, false)
  }

  function TitleFrom(s: string, afterLetter: bool): (r: string)
    ensures |r| == |s|
    decreases |s|
  {
    if |s| == 0 then ""
    else
      var c := if afterLetter then LowerChar(s[0]) else UpperChar(s[0]);
      [c] + TitleFrom(s[1..], IsAlpha(s[0]))
  }

  // ---- facts about the operations above ----

  lemma ContainsAt(s: string, sub: string, i: nat)
    requires i + |sub| <= |s| && s[i..i + |sub|] == sub
    ensures Contains(s, sub)
    decreases i
  {
    if i > 0 {
      assert s[1..][i - 1..i - 1 + |sub|] == sub;
      ContainsAt(s[1..], sub, i - 1);
    }
  }

  lemma {:induction false} ContainsWitness(s: string, sub: string) returns (i: nat)
    requires Contains(s, sub)
    ensures i + |sub| <= |s| && s[i..i + |sub|] == sub
    decreases |s|
  {
    if StartsWith(s, sub) {
      i := 0;
    } else {
      var j := ContainsWitness(s[1..], sub);
      assert s[1..][j..j + |sub|] == s[j + 1..j + 1 + |sub|];
      i := j + 1;
    }
  }

  /** A text can only contain a pattern whose every character it has. */
  lemma ContainsOnlyOwnChars(s: string, sub: string, c: char)
    requires Contains(s, sub) && c in sub
    ensures c in s
  {
    var i := ContainsWitness(s, sub);
    var k :| 0 <= k < |sub| && sub[k] == c;
    assert s[i + k] == sub[k];
  }

  lemma UpperHasNoLowerLetter(s: string, c: char)
    requires IsLowerLetter(c)
    ensures c !in Upper(s)
  {
  }

  /** The distinct words in order of first occurrence. */
  function Dedup(ws: seq<string>): (r: seq<string>)
    ensures forall w :: w in r <==> w in ws
    ensures forall i, j :: 0 <= i < j < |r| ==> r[i] != r[j]
  {
    if |ws| == 0 then []
    else
      var rest := Dedup(ws[..|ws| - 1]);
      var w := ws[|ws| - 1];
      assert forall x :: x in ws <==> x in ws[..|ws| - 1] || x == w;
      if w in rest then rest else rest + [w]
  }
}
