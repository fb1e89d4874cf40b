// backend/app/extractors/tlf_exractor.py: the parser of the language
// model's `KEY: value` reply in `_allm_tlf_analysis` and
// `_llm_tlf_analysis`. The request itself is not modelled; the reply text is
// a parameter.

module TlfLlm {
  import opened Common
  import opened Strings

  /** What the reply parser returns. A key the reply does not give, and a
    * text value reading "unknown", are both None. */
  datatype LlmResult = LlmResult(
    tlfType: Option<string>,
    outputNumber: Option<string>,
    title: Option<string>,
    clinicalDomain: Option<string>,
    population: Option<string>,
    treatmentGroups: Option<seq<string>>,
    confidence: Option<real>,
    methodName: string)
  {
    /** `.get("confidence", 0)` */
    function Confidence(): real {
      if confidence.Some? then confidence.value else 0.0
    }
  }

  /** The record returned when parsing raises: only the method name and a zero
    * confidence. */
  function ErrorResult(methodName: string): LlmResult {
    LlmResult(None, None, None, None, None, None, Some(0.0), methodName + "_error")
  }

  // ---- the regular expressions `KEY:\s*([^\n]+)` and `KEY:\s*([0-9.]+)` ----

  /** What follows the key: the rest of a line, or a run of digits and dots
    * (the confidence). */
  datatype Capture = RestOfLine | Numeral

  predicate NotNewline(c: char) { c != '\n' }

  predicate IsNumeralChar(c: char) { IsDigit(c) || c == '.' }

  /** The length of the run of characters satisfying `p` from `q`. */
  function RunFrom(s: string, q: nat, p: char -> bool): (n: nat)
    requires q <= |s|
    ensures q + n <= |s|
    decreases |s| - q
  {
    if q == |s| || !p(s[q]) then 0 else 1 + RunFrom(s, q + 1, p)
  }

  /** The run holds only characters satisfying `p`, and stops at the end of
    * the text or at one that does not. */
  lemma {:induction false} RunFromFacts(s: string, q: nat, p: char -> bool)
    requires q <= |s|
    ensures forall k :: q <= k < q + RunFrom(s, q, p) ==> p(s[k])
    ensures q + RunFrom(s, q, p) < |s| ==> !p(s[q + RunFrom(s, q, p)])
    decreases |s| - q
  {
    if q < |s| && p(s[q]) {
      RunFromFacts(s, q + 1, p);
    }
  }

  lemma {:induction false} RunFromExact(s: string, q: nat, n: nat, p: char -> bool)
    requires q + n <= |s|
    requires forall k :: q <= k < q + n ==> p(s[k])
    requires q + n == |s| || !p(s[q + n])
    ensures RunFrom(s, q, p) == n
    decreases n
  {
    if n > 0 {
      RunFromExact(s, q + 1, n - 1, p);
    }
  }

  /** The last position in [q, j) holding something other than a newline. */
  function LastNonNewline(s: string, q: nat, j: nat): (k: Option<nat>)
    requires q <= j <= |s|
    ensures k.Some? ==> q <= k.value < j && s[k.value] != '\n'
    decreases j - q
  {
    if j == q then None
    else if s[j - 1] != '\n' then Some(j - 1)
    else LastNonNewline(s, q, j - 1)
  }

  lemma {:induction false} LastNonNewlineNone(s: string, q: nat, j: nat)
    requires q <= j <= |s| && LastNonNewline(s, q, j).None?
    ensures forall i :: q <= i < j ==> s[i] == '\n'
    decreases j - q
  {
    if j > q {
      LastNonNewlineNone(s, q, j - 1);
    }
  }

  /** Group 1 of the capture at `q`, just after the key. `\s*` first takes
    * the whole whitespace run. For the rest of a line, when the text ends
    * inside that run, `\s*` gives characters back until `[^\n]+` can start on
    * one that is not a newline; for a numeral, giving whitespace back never
    * helps. */
  function CaptureAt(s: string, q: nat, c: Capture): Option<string>
    requires q <= |s|
  {
    var w := RunFrom(s, q, IsSpace);
    match c
    case RestOfLine =>
      if q + w < |s| then Some(s[q + w .. q + w + RunFrom(s, q + w, NotNewline)])
      else
        var k := LastNonNewline(s, q, q + w);
        if k.Some? then Some(s[k.value .. k.value + RunFrom(s, k.value, NotNewline)]) else None
    case Numeral =>
      var n := RunFrom(s, q + w, IsNumeralChar);
      if n > 0 then Some(s[q + w .. q + w + n]) else None
  }

  /** A captured group is non-empty, stays on one line and, for a numeral,
    * holds only digits and dots. */
  predicate WellCaptured(g: string, c: Capture) {
    && |g| > 0
    && (forall i :: 0 <= i < |g| ==> g[i] != '\n')
    && (c == Numeral ==> forall i :: 0 <= i < |g| ==> IsNumeralChar(g[i]))
  }

  /** Every capture is well formed, and the rest of a line is missing only
    * when nothing but newlines follows the key. */
  lemma CaptureFacts(s: string, q: nat, c: Capture)
    requires q <= |s|
    ensures CaptureAt(s, q, c).Some? ==> WellCaptured(CaptureAt(s, q, c).value, c)
    ensures c == RestOfLine ==> (CaptureAt(s, q, c).None? <==> forall i :: q <= i < |s| ==> s[i] == '\n')
  {
    RunFromFacts(s, q, IsSpace);
    match c
    case RestOfLine => LineCaptureFacts(s, q);
    case Numeral => RunFromFacts(s, q + RunFrom(s, q, IsSpace), IsNumeralChar);
  }

  lemma LineCaptureFacts(s: string, q: nat)
    requires q <= |s|
    requires forall k :: q <= k < q + RunFrom(s, q, IsSpace) ==> IsSpace(s[k])
    requires q + RunFrom(s, q, IsSpace) < |s| ==> !IsSpace(s[q + RunFrom(s, q, IsSpace)])
    ensures CaptureAt(s, q, RestOfLine).Some? ==> WellCaptured(CaptureAt(s, q, RestOfLine).value, RestOfLine)
    ensures CaptureAt(s, q, RestOfLine).None? <==> forall i :: q <= i < |s| ==> s[i] == '\n'
  {
    var w := RunFrom(s, q, IsSpace);
    if q + w < |s| {
      RunFromFacts(s, q + w, NotNewline);
      assert NotNewline(s[q + w]);
    } else {
      var k := LastNonNewline(s, q, q + w);
      if k.Some? {
        RunFromFacts(s, k.value, NotNewline);
        assert NotNewline(s[k.value]);
      } else {
        LastNonNewlineNone(s, q, q + w);
      }
    }
  }

  /** The keys of the reply, in the order the parser looks them up. */
  datatype Key = OutputType | OutputNumber | Title | ClinicalDomain | Population | TreatmentGroups | Confidence
  {
    /** The key as its pattern spells it, colon included, in lower case. */
    function Text(): (t: string)
      ensures |t| > 0
    {
      match this
      case OutputType => "output_type:"
      case OutputNumber => "output_number:"
      case Title => "title:"
      case ClinicalDomain => "clinical_domain:"
      case Population => "population:"
      case TreatmentGroups => "treatment_groups:"
      case Confidence => "confidence:"
    }
  }

  /** The key at `p`, compared ignoring case (`re.IGNORECASE`): the text
    * there, in lower case, is the key's lower-case spelling. */
  predicate KeyAt(s: string, p: nat, key: string) {
    p + |key| <= |s| && Lower(s[p .. p + |key|]) == key
  }

  /** The whole pattern matches at `p`. */
  predicate MatchAt(s: string, key: string, c: Capture, p: nat) {
    KeyAt(s, p, key) && CaptureAt(s, p + |key|, c).Some?
  }

  /** `re.search(...)` from `p`: group 1 of the leftmost match. */
  function SearchKey(s: string, key: string, c: Capture, p: nat): Option<string>
    requires p <= |s|
    decreases |s| - p
  {
    if MatchAt(s, key, c, p) then CaptureAt(s, p + |key|, c)
    else if p == |s| then None
    else SearchKey(s, key, c, p + 1)
  }

  /** The search gives the capture of the leftmost match. */
  lemma {:induction false} SearchKeyLeftmost(s: string, key: string, c: Capture, p: nat, i: nat)
    requires p <= i <= |s|
    requires forall j :: p <= j < i ==> !MatchAt(s, key, c, j)
    requires MatchAt(s, key, c, i)
    ensures SearchKey(s, key, c, p) == CaptureAt(s, i + |key|, c)
    decreases i - p
  {
    if p < i {
      assert !MatchAt(s, key, c, p) && p < |s|;
      SearchKeyLeftmost(s, key, c, p + 1, i);
    }
  }

  /** What the search finds is a well-formed capture. */
  lemma {:induction false} SearchKeyCaptures(s: string, key: string, c: Capture, p: nat)
    requires p <= |s|
    ensures SearchKey(s, key, c, p).Some? ==> WellCaptured(SearchKey(s, key, c, p).value, c)
    decreases |s| - p
  {
    if MatchAt(s, key, c, p) {
      CaptureFacts(s, p + |key|, c);
    } else if p < |s| {
      SearchKeyCaptures(s, key, c, p + 1);
    }
  }

  /** Without a match the search gives nothing. */
  lemma {:induction false} SearchKeyAbsent(s: string, key: string, c: Capture, p: nat)
    requires p <= |s|
    requires forall j :: p <= j <= |s| ==> !MatchAt(s, key, c, j)
    ensures SearchKey(s, key, c, p).None?
    decreases |s| - p
  {
    if p < |s| {
      SearchKeyAbsent(s, key, c, p + 1);
    }
  }

  /** The `n` characters after `key` at `i` and the single space that
    * follows it. */
  function After(s: string, i: nat, key: string, n: nat): string
    requires i + |key| + 1 + n <= |s|
  {
    s[i + |key| + 1 .. i + |key| + 1 + n]
  }

  /** At `q`: a single space, then `n` characters up to a newline or the
    * end of the text, the first not whitespace. */
  predicate LineAfter(s: string, q: nat, n: nat) {
    && 0 < n && q + 1 + n <= |s| && s[q] == ' ' && !IsSpace(s[q + 1])
    && (forall k :: q + 1 <= k < q + 1 + n ==> s[k] != '\n')
    && (q + 1 + n == |s| || s[q + 1 + n] == '\n')
  }

  /** At `q`: a single space, then a run of `n` digits and dots. */
  predicate NumeralAfter(s: string, q: nat, n: nat) {
    && 0 < n && q + 1 + n <= |s| && s[q] == ' '
    && (forall k :: q + 1 <= k < q + 1 + n ==> IsNumeralChar(s[k]))
    && (q + 1 + n == |s| || !IsNumeralChar(s[q + 1 + n]))
  }

  /** A reply whose first match of `key` is at `i`, followed by a space and
    * a line, gives that line for the key, trailing whitespace included. */
  lemma KeyLineCaptured(s: string, i: nat, key: string, n: nat)
    requires KeyAt(s, i, key) && LineAfter(s, i + |key|, n)
    requires forall j :: 0 <= j < i ==> !MatchAt(s, key, RestOfLine, j)
    ensures SearchKey(s, key, RestOfLine, 0) == Some(After(s, i, key, n))
  {
    LineCaptureAt(s, i + |key|, n);
    assert CaptureAt(s, i + |key|, RestOfLine) == Some(After(s, i, key, n));
    SearchKeyLeftmost(s, key, RestOfLine, 0, i);
  }

  lemma LineCaptureAt(s: string, q: nat, n: nat)
    requires LineAfter(s, q, n)
    ensures CaptureAt(s, q, RestOfLine) == Some(s[q + 1 .. q + 1 + n])
  {
    RunFromExact(s, q, 1, IsSpace);
    RunFromExact(s, q + 1, n, NotNewline);
  }

  /** A reply whose first match of `key` is at `i`, followed by a space and
    * a numeral, gives that numeral. */
  lemma NumeralCaptured(s: string, i: nat, key: string, n: nat)
    requires KeyAt(s, i, key) && NumeralAfter(s, i + |key|, n)
    requires forall j :: 0 <= j < i ==> !MatchAt(s, key, Numeral, j)
    ensures SearchKey(s, key, Numeral, 0) == Some(After(s, i, key, n))
  {
    NumeralCaptureAt(s, i + |key|, n);
    assert CaptureAt(s, i + |key|, Numeral) == Some(After(s, i, key, n));
    SearchKeyLeftmost(s, key, Numeral, 0, i);
  }

  lemma NumeralCaptureAt(s: string, q: nat, n: nat)
    requires NumeralAfter(s, q, n)
    ensures CaptureAt(s, q, Numeral) == Some(s[q + 1 .. q + 1 + n])
  {
    assert !IsSpace(s[q + 1]);
    RunFromExact(s, q, 1, IsSpace);
    RunFromExact(s, q + 1, n, IsNumeralChar);
  }

  // ---- float() on a run of digits and dots ----

  predicate AllDigits(ds: string) {
    forall i :: 0 <= i < |ds| ==> IsDigit(ds[i])
  }

  function DigitsValue(ds: string): nat
    requires AllDigits(ds)
  {
    if |ds| == 0 then 0
    else 10 * DigitsValue(ds[..|ds| - 1]) + (ds[|ds| - 1] as int - '0' as int)
  }

  function Pow10(n: nat): (p: nat)
    ensures p >= 1
  {
    if n == 0 then 1 else 10 * Pow10(n - 1)
  }

  /** `float(v)` where `v` holds only digits and dots: a number when there is
    * at most one dot and at least one digit, else the ValueError. Python
    * rounds to a double; the model keeps the exact decimal. */
  function ParseFloat(v: string): (r: Option<real>)
    requires forall i :: 0 <= i < |v| ==> IsNumeralChar(v[i])
    ensures r.Some? ==> r.value >= 0.0
  {
    var d := RunFrom(v, 0, IsDigit);
    RunFromFacts(v, 0, IsDigit);
    if d == |v| then
      if d > 0 then Some(DigitsValue(v) as real) else None
    else
      var frac := v[d + 1..];
      if '.' in frac || (d == 0 && |frac| == 0) then None
      else
        assert forall i :: 0 <= i < |frac| ==> IsNumeralChar(frac[i]) && frac[i] != '.';
        Some(DigitsValue(v[..d]) as real + DigitsValue(frac) as real / Pow10(|frac|) as real)
  }

  /** `float` accepts exactly the runs with at most one dot and a digit. */
  lemma ParseFloatAccepts(v: string)
    requires forall i :: 0 <= i < |v| ==> IsNumeralChar(v[i])
    ensures ParseFloat(v).Some? <==> CountWhere(v, IsDot) <= 1 && HasDigit(v)
  {
    var d := RunFrom(v, 0, IsDigit);
    RunFromFacts(v, 0, IsDigit);
    if d == |v| {
      UndottedRun(v);
    } else {
      DottedRun(v, d);
    }
  }

  lemma UndottedRun(v: string)
    requires forall i :: 0 <= i < |v| ==> IsDigit(v[i])
    ensures CountWhere(v, IsDot) == 0 && (HasDigit(v) <==> |v| > 0)
  {
    CountWhereNone(v, IsDot);
    if |v| > 0 {
      assert IsDigit(v[0]);
    }
  }

  lemma DottedRun(v: string, d: nat)
    requires forall i :: 0 <= i < |v| ==> IsNumeralChar(v[i])
    requires d < |v| && !IsDigit(v[d]) && forall k :: 0 <= k < d ==> IsDigit(v[k])
    ensures var frac := v[d + 1..];
      && ('.' in frac ==> CountWhere(v, IsDot) > 1)
      && ('.' !in frac ==> CountWhere(v, IsDot) == 1 && (HasDigit(v) <==> d > 0 || |frac| > 0))
  {
    var frac := v[d + 1..];
    assert IsNumeralChar(v[d]);
    CountWhereNone(v[..d], IsDot);
    DotCountSplit(v, d);
    if '.' in frac {
      var j :| 0 <= j < |frac| && frac[j] == '.';
      CountWherePositive(frac, IsDot, j);
    } else {
      CountWhereNone(frac, IsDot);
      if d > 0 {
        assert IsDigit(v[0]);
      } else if |frac| > 0 {
        assert IsNumeralChar(v[d + 1]) && v[d + 1] != '.';
      } else {
        assert |v| == 1;
      }
    }
  }

  lemma DotCountSplit(v: string, d: nat)
    requires d < |v| && v[d] == '.'
    ensures CountWhere(v, IsDot) == CountWhere(v[..d], IsDot) + 1 + CountWhere(v[d + 1..], IsDot)
  {
    assert v == v[..d] + ([v[d]] + v[d + 1..]);
    CountWhereAppend(v[..d], [v[d]] + v[d + 1..], IsDot);
    assert ([v[d]] + v[d + 1..])[1..] == v[d + 1..];
  }

  predicate IsDot(c: char) { c == '.' }

  lemma {:induction false} CountWhereAppend(a: string, b: string, p: char -> bool)
    ensures CountWhere(a + b, p) == CountWhere(a, p) + CountWhere(b, p)
    decreases |a|
  {
    if |a| > 0 {
      assert (a + b)[1..] == a[1..] + b;
      CountWhereAppend(a[1..], b, p);
    } else {
      assert a + b == b;
    }
  }

  lemma {:induction false} CountWhereNone(a: string, p: char -> bool)
    requires forall i :: 0 <= i < |a| ==> !p(a[i])
    ensures CountWhere(a, p) == 0
    decreases |a|
  {
    if |a| > 0 {
      assert !p(a[0]);
      CountWhereNone(a[1..], p);
    }
  }

  lemma {:induction false} CountWherePositive(a: string, p: char -> bool, j: nat)
    requires j < |a| && p(a[j])
    ensures CountWhere(a, p) >= 1
    decreases |a|
  {
    if j > 0 {
      CountWherePositive(a[1..], p, j - 1);
    }
  }

  /** "1.5" reads 1.5: a confidence above one is kept as written. */
  lemma ParseFloatAboveOne()
    ensures ParseFloat("1.5") == Some(1.5)
  {
    RunFromExact("1.5", 0, 1, IsDigit);
    assert "1.5"[2..] == "5" && "1.5"[..1] == "1";
    assert "1"[..0] == "" && "5"[..0] == "";
  }

  /** "1.2.3" holds two dots and cannot be read. */
  lemma ParseFloatTwoDots()
    ensures ParseFloat("1.2.3").None?
  {
    RunFromExact("1.2.3", 0, 1, IsDigit);
    assert "1.2.3"[2..] == "2.3" && "2.3"[1] == '.';
  }

  // ---- the parser ----

  /** A text value: itself, unless it reads "unknown" in any case. */
  function TextValue(value: string): Option<string> {
    if Lower(value) == "unknown" then None else Some(value)
  }

  /** The text field of `key`: group 1 stripped, "unknown" read as None. */
  function TextField(s: string, key: Key): Option<string> {
    TextAt(s, key.Text())
  }

  function TextAt(s: string, key: string): Option<string> {
    var g := SearchKey(s, key, RestOfLine, 0);
    if g.Some? then TextValue(Strip(g.value)) else None
  }

  predicate KeptGroup(g: string) {
    Strip(g) != "" && Lower(Strip(g)) != "unknown"
  }

  /** The stripped parts that are neither empty nor "unknown", in order. */
  function KeptGroups(parts: seq<string>): seq<string> {
    if |parts| == 0 then []
    else
      var p := parts[|parts| - 1];
      KeptGroups(parts[..|parts| - 1]) + (if KeptGroup(p) then [Strip(p)] else [])
  }

  function GroupsField(s: string): Option<seq<string>> {
    var g := SearchKey(s, TreatmentGroups.Text(), RestOfLine, 0);
    if g.Some? then Some(KeptGroups(Split(Strip(g.value), ';'))) else None
  }

  /** A string without whitespace is its own strip. */
  lemma StripKeepsSolid(v: string)
    requires forall i :: 0 <= i < |v| ==> !IsSpace(v[i])
    ensures Strip(v) == v
  {
    if |v| > 0 {
      assert TrimRight(v, IsSpace) == v;
      assert TrimLeft(v, IsSpace) == v;
    }
  }

  /** The confidence from its capture: absent, or `float(value) if value
    * else 0.0`, which fails (None inside) on a malformed numeral. */
  function ConfidenceOf(g: Option<string>): Option<Option<real>>
    requires g.Some? ==> forall i :: 0 <= i < |g.value| ==> IsNumeralChar(g.value[i])
  {
    if g.None? then None
    else
      assert forall i :: 0 <= i < |g.value| ==> IsNumeralChar(g.value[i]) && !IsSpace(g.value[i]);
      StripKeepsSolid(g.value);
      var v := Strip(g.value);
      Some(if v == "" then Some(0.0) else ParseFloat(v))
  }

  /** The confidence read after the first match of `key`. */
  function ConfidenceAt(s: string, key: string): Option<Option<real>> {
    SearchKeyCaptures(s, key, Numeral, 0);
    ConfidenceOf(SearchKey(s, key, Numeral, 0))
  }

  function ConfidenceField(s: string): Option<Option<real>> {
    ConfidenceAt(s, Confidence.Text())
  }

  /** The reply parser; `methodName` is "llm" or "async_llm". A confidence that
    * `float` rejects raises, and the whole reply becomes the error record. */
  function ParseReply(s: string, methodName: string): LlmResult {
    var conf := ConfidenceField(s);
    if conf.Some? && conf.value.None? then ErrorResult(methodName)
    else
      LlmResult(
        TextField(s, OutputType), TextField(s, OutputNumber), TextField(s, Title),
        TextField(s, ClinicalDomain), TextField(s, Population), GroupsField(s),
        if conf.Some? then conf.value else None,
        methodName)
  }

  /** Each kept group is stripped, non-empty and not "unknown"; every part
    * whose strip is such a value is kept. */
  lemma {:induction false} KeptGroupsFacts(parts: seq<string>)
    ensures forall g :: g in KeptGroups(parts) ==>
      g != "" && Strip(g) == g && Lower(g) != "unknown"
    ensures |KeptGroups(parts)| <= |parts|
  {
    if |parts| > 0 {
      KeptGroupsFacts(parts[..|parts| - 1]);
      StripIdempotentHere(parts[|parts| - 1]);
    }
  }

  /** A character found in no part is found in no kept group. */
  lemma {:induction false} KeptGroupsAvoid(parts: seq<string>, c: char)
    requires forall p :: p in parts ==> c !in p
    ensures forall g :: g in KeptGroups(parts) ==> c !in g
  {
    if |parts| > 0 {
      var last := parts[|parts| - 1];
      assert last in parts;
      KeptGroupsAvoid(parts[..|parts| - 1], c);
      StripDrawn(last);
    }
  }

  /** No part worth keeping is dropped. */
  lemma {:induction false} KeptGroupsComplete(parts: seq<string>)
    ensures forall i :: 0 <= i < |parts| && KeptGroup(parts[i]) ==> Strip(parts[i]) in KeptGroups(parts)
  {
    if |parts| > 0 {
      var init := parts[..|parts| - 1];
      KeptGroupsComplete(init);
      forall i | 0 <= i < |parts| && KeptGroup(parts[i]) ensures Strip(parts[i]) in KeptGroups(parts) {
        if i < |parts| - 1 {
          assert parts[i] == init[i];
        }
      }
    }
  }

  lemma StripIdempotentHere(s: string)
    ensures Strip(Strip(s)) == Strip(s)
  {
    var r := Strip(s);
    if |r| > 0 {
      assert TrimRight(r, IsSpace) == r;
      assert TrimLeft(r, IsSpace) == r;
    }
  }

  /** Every group the parser keeps is clean and holds no ';'. */
  lemma GroupsFieldClean(s: string)
    ensures var f := GroupsField(s);
      f.Some? ==> forall g :: g in f.value ==> g != "" && Strip(g) == g && Lower(g) != "unknown" && ';' !in g
  {
    var g := SearchKey(s, TreatmentGroups.Text(), RestOfLine, 0);
    if g.Some? {
      KeptGroupsFacts(Split(Strip(g.value), ';'));
      KeptGroupsAvoid(Split(Strip(g.value), ';'), ';');
    }
  }

  /** The text field of a reply whose first match of `key` is at `i`,
    * followed by a space and a line, is the value of that line stripped,
    * which is not empty: None exactly when it reads "unknown" in any case. */
  lemma TextFieldOfLine(s: string, i: nat, key: Key, n: nat)
    requires KeyAt(s, i, key.Text()) && LineAfter(s, i + |key.Text()|, n)
    requires forall j :: 0 <= j < i ==> !MatchAt(s, key.Text(), RestOfLine, j)
    ensures var line := After(s, i, key.Text(), n);
      TextField(s, key) == TextValue(Strip(line)) && Strip(line) != ""
  {
    TextAtLine(s, i, key.Text(), n);
  }

  lemma TextAtLine(s: string, i: nat, key: string, n: nat)
    requires KeyAt(s, i, key) && LineAfter(s, i + |key|, n)
    requires forall j :: 0 <= j < i ==> !MatchAt(s, key, RestOfLine, j)
    ensures var line := After(s, i, key, n);
      TextAt(s, key) == TextValue(Strip(line)) && Strip(line) != ""
  {
    var line := After(s, i, key, n);
    KeyLineCaptured(s, i, key, n);
    assert SearchKey(s, key, RestOfLine, 0) == Some(line);
    assert !IsSpace(line[0]);
  }

  /** A captured numeral holds no whitespace, so its confidence is `float`
    * of it. */
  lemma ConfidenceOfNumeral(v: string)
    requires |v| > 0 && forall k :: 0 <= k < |v| ==> IsNumeralChar(v[k])
    ensures ConfidenceOf(Some(v)) == Some(ParseFloat(v))
  {
    assert forall k :: 0 <= k < |v| ==> IsNumeralChar(v[k]) && !IsSpace(v[k]);
    StripKeepsSolid(v);
  }

  /** How the confidence decides the reply: a confidence `float` rejects
    * makes the error record; otherwise the reply carries the confidence
    * read, or none when the key is absent, and the caller's method name. */
  lemma ParseReplyConfidence(s: string, methodName: string)
    ensures var r := ParseReply(s, methodName); var conf := ConfidenceField(s);
      && (conf == Some(None) ==> r == ErrorResult(methodName))
      && (conf != Some(None) ==> r.methodName == methodName && r.confidence == (if conf.Some? then conf.value else None))
  { }

  /** The confidence field of a reply whose first confidence key at `i` is
    * followed by a space and a numeral `v` is `float(v)`. */
  lemma ConfidenceFieldOfNumeral(s: string, i: nat, key: string, n: nat)
    requires KeyAt(s, i, key) && NumeralAfter(s, i + |key|, n)
    requires forall j :: 0 <= j < i ==> !MatchAt(s, key, Numeral, j)
    ensures ConfidenceAt(s, key) == Some(ParseFloat(After(s, i, key, n)))
  {
    var v := After(s, i, key, n);
    NumeralCaptured(s, i, key, n);
    ConfidenceOfNumeral(v);
    assert ConfidenceOf(SearchKey(s, key, Numeral, 0)) == Some(ParseFloat(v));
    assert ConfidenceAt(s, key) == ConfidenceOf(SearchKey(s, key, Numeral, 0));
  }

  /** A reply whose first confidence is a numeral with more than one dot
    * raises in `float`: every other field is discarded. */
  lemma MalformedConfidenceIsError(s: string, i: nat, n: nat, methodName: string)
    requires KeyAt(s, i, Confidence.Text()) && NumeralAfter(s, i + |Confidence.Text()|, n)
    requires forall j :: 0 <= j < i ==> !MatchAt(s, Confidence.Text(), Numeral, j)
    requires CountWhere(After(s, i, Confidence.Text(), n), IsDot) > 1
    ensures ParseReply(s, methodName) == ErrorResult(methodName)
  {
    var v := After(s, i, Confidence.Text(), n);
    ConfidenceFieldOfNumeral(s, i, Confidence.Text(), n);
    ParseFloatAccepts(v);
    ParseReplyConfidence(s, methodName);
  }

  /** A reply whose first confidence is a readable numeral carries its value,
    * whatever its size. */
  lemma ConfidenceAsWritten(s: string, i: nat, n: nat, methodName: string)
    requires KeyAt(s, i, Confidence.Text()) && NumeralAfter(s, i + |Confidence.Text()|, n)
    requires forall j :: 0 <= j < i ==> !MatchAt(s, Confidence.Text(), Numeral, j)
    requires var v := After(s, i, Confidence.Text(), n); CountWhere(v, IsDot) <= 1 && HasDigit(v)
    ensures var r := ParseReply(s, methodName);
      && r.methodName == methodName && r.confidence.Some?
      && r.confidence == ParseFloat(After(s, i, Confidence.Text(), n))
  {
    var v := After(s, i, Confidence.Text(), n);
    ConfidenceFieldOfNumeral(s, i, Confidence.Text(), n);
    ParseFloatAccepts(v);
    assert ConfidenceField(s) == Some(ParseFloat(v)) && ParseFloat(v).Some?;
    ParseReplyConfidence(s, methodName);
  }
}
