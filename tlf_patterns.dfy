// backend/app/extractors/tlf_exractor.py: `_detect_tlf_patterns` and the
// extractors it calls for the output number, title and population.

module TlfPatterns {
  import opened Common
  import opened Strings
  import opened TlfSignals

  /** What `_detect_tlf_patterns` returns. */
  datatype PatternResult = PatternResult(
    tlfType: Option<string>,
    outputNumber: Option<string>,
    title: Option<string>,
    population: Option<string>,
    treatmentGroups: seq<string>,
    confidence: real,
    detectionMethod: string)

  function Take<T>(s: seq<T>, n: nat): (r: seq<T>)
    ensures |r| == Min(|s|, n) && r == s[..|r|]
  {
    if |s| <= n then s else s[..n]
  }

  // ---- type detection ----

  const TlfTypes: seq<TlfType> := [Table, Listing, Figure]

  function HitConfidence(h: HitKind): real {
    match h
    case AtStart => 0.9
    case Anywhere => 0.7
    case NoHit => 0.0
  }

  /** The type scan: a later type replaces the current one only with a
    * strictly higher confidence. */
  function ScanTypes(m: Matchers, textLower: string, types: seq<TlfType>): (Option<TlfType>, real) {
    if |types| == 0 then (None, 0.0)
    else
      var (t, c) := ScanTypes(m, textLower, types[..|types| - 1]);
      var last := types[|types| - 1];
      var h := HitConfidence(m.typeHit(last, textLower));
      if h > c then (Some(last), h) else (t, c)
  }

  /** No type's hit beats the confidence the scan ends with. */
  lemma {:induction false} ScanTypesBound(m: Matchers, textLower: string, types: seq<TlfType>)
    ensures forall u :: u in types ==> HitConfidence(m.typeHit(u, textLower)) <= ScanTypes(m, textLower, types).1
  {
    if |types| > 0 {
      var pre := types[..|types| - 1];
      ScanTypesBound(m, textLower, pre);
      assert forall u :: u in types ==> u in pre || u == types[|types| - 1];
    }
  }

  /** The scan ends with no type exactly when its confidence is 0, which
    * happens only when no type hits at all. */
  lemma {:induction false} ScanTypesNone(m: Matchers, textLower: string, types: seq<TlfType>)
    ensures var (t, c) := ScanTypes(m, textLower, types);
      && (t.None? <==> c == 0.0)
      && (t.None? ==> forall u :: u in types ==> m.typeHit(u, textLower) == NoHit)
  {
    if |types| > 0 {
      var pre := types[..|types| - 1];
      ScanTypesNone(m, textLower, pre);
      assert forall u :: u in types ==> u in pre || u == types[|types| - 1];
    }
  }

  /** `types[k]` has confidence `c` and every earlier type less. */
  predicate FirstWith(m: Matchers, textLower: string, types: seq<TlfType>, k: int, c: real) {
    && 0 <= k < |types|
    && HitConfidence(m.typeHit(types[k], textLower)) == c
    && forall j :: 0 <= j < k ==> HitConfidence(m.typeHit(types[j], textLower)) < c
  }

  lemma FirstWithExtend(m: Matchers, textLower: string, types: seq<TlfType>, k: int, c: real)
    requires |types| > 0 && FirstWith(m, textLower, types[..|types| - 1], k, c)
    ensures FirstWith(m, textLower, types, k, c)
  {
    assert forall j :: 0 <= j <= k ==> types[j] == types[..|types| - 1][j];
  }

  /** The type found is the first in order whose hit has the final
    * confidence; every earlier type scored strictly less. */
  lemma {:induction false} ScanTypesFirst(m: Matchers, textLower: string, types: seq<TlfType>)
    ensures var r := ScanTypes(m, textLower, types);
      r.0.Some? ==> exists k :: FirstWith(m, textLower, types, k, r.1) && types[k] == r.0.value
  {
    if |types| > 0 {
      var pre := types[..|types| - 1];
      ScanTypesFirst(m, textLower, pre);
      ScanTypesBound(m, textLower, pre);
      var r := ScanTypes(m, textLower, pre);
      var last := types[|types| - 1];
      var h := HitConfidence(m.typeHit(last, textLower));
      if h > r.1 {
        forall j | 0 <= j < |types| - 1 ensures HitConfidence(m.typeHit(types[j], textLower)) < h {
          assert types[j] in pre;
        }
        assert FirstWith(m, textLower, types, |types| - 1, h);
      } else if r.0.Some? {
        var k :| FirstWith(m, textLower, pre, k, r.1) && pre[k] == r.0.value;
        FirstWithExtend(m, textLower, types, k, r.1);
      }
    }
  }

  // ---- _extract_output_number ----

  predicate AllDigits(s: string) {
    |s| > 0 && forall i :: 0 <= i < |s| ==> IsDigit(s[i])
  }

  /** Between two and `maxParts` dot-separated parts, each of at most
    * `maxDigits` digits. */
  predicate ValidNumber(number: string, maxParts: nat, maxDigits: nat) {
    var parts := Split(number, '.');
    2 <= |parts| <= maxParts && forall p :: p in parts ==> |p| <= maxDigits && AllDigits(p)
  }

  /** The first explicit match that validates. */
  function ExplicitNumber(m: Matchers, headerText: string): Option<string> {
    var long := m.longFormNumber(headerText);
    var short := m.shortFormNumber(headerText);
    if long.Some? && ValidNumber(long.value, 5, 3) then long
    else if short.Some? && ValidNumber(short.value, 5, 3) then short
    else None
  }

  /** The number read from the first (at most four) lines. */
  function NumberFromLines(m: Matchers, lines: seq<string>): Option<string>
    requires |lines| > 0
  {
    var explicit := ExplicitNumber(m, Strip(Join(lines, "\n")));
    if explicit.Some? then explicit
    else
      var firstLine := Strip(lines[0]);
      var standalone := m.standaloneNumber(firstLine);
      if standalone.Some? && ValidNumber(standalone.value, 4, 2) && |firstLine| < 20 then standalone
      else None
  }

  /** `_extract_output_number`: nothing for a TOC, otherwise the number read
    * from the first four lines only. */
  function ExtractOutputNumber(m: Matchers, text: string): Option<string> {
    if IsTableOfContents(m, text) then None
    else NumberFromLines(m, Take(Split(text, '\n'), 4))
  }

  /** Any number found has two to five parts of at most three digits, or
    * comes from a first line under 20 characters with two to four parts of
    * at most two digits. */
  lemma NumberShape(m: Matchers, lines: seq<string>)
    requires |lines| > 0
    ensures var r := NumberFromLines(m, lines);
      r.Some? ==> ValidNumber(r.value, 5, 3) || (ValidNumber(r.value, 4, 2) && |Strip(lines[0])| < 20)
  {
  }

  /** A TOC yields no number; otherwise the number has one of the two
    * validated shapes. */
  lemma OutputNumberShape(m: Matchers, text: string)
    ensures IsTableOfContents(m, text) ==> ExtractOutputNumber(m, text).None?
    ensures var r := ExtractOutputNumber(m, text);
      r.Some? ==> ValidNumber(r.value, 5, 3) || (ValidNumber(r.value, 4, 2) && |Strip(Split(text, '\n')[0])| < 20)
  {
    if !IsTableOfContents(m, text) {
      var lines := Take(Split(text, '\n'), 4);
      NumberShape(m, lines);
    }
  }

  // ---- _extract_title ----

  const TitleSkipWords: seq<string> := ["page", "protocol", "sponsor", "date", "confidential"]

  const TitleIndicators: seq<string> :=
    ["summary", "analysis", "disposition", "overview", "results", "listing", "table", "figure",
     "by", "of", "and", "for", "demographic", "baseline", "characteristics", "adverse", "events", "treatment"]

  /** The column-header test: more than two words, each short or upper-case. */
  predicate LooksLikeColumnHeader(words: seq<string>) {
    |words| > 2 && forall w :: w in words ==> |w| <= 4 || IsUpperWord(w)
  }

  /** Whether one clean line is returned as the title. */
  predicate IsTitleLine(m: Matchers, line: string) {
    var lower := Lower(line);
    var words := Words(line);
    if CountContained(lower, TitleSkipWords) > 0 then false
    else if |line| < 10 || |line| > 200 then false
    else if m.titleSkip(line) then false
    else if LooksLikeColumnHeader(words) then false
    else if (DigitRuns(line) as real) > (|words| as real) * 0.5 then false
    else if |words| >= 3 && CountContained(lower, TitleIndicators) > 0 then true
    else 2 <= |words| <= 8 && !HasDigit(line) && ('&' in line || Contains(lower, "and"))
  }

  function FirstTitle(m: Matchers, lines: seq<string>): (r: Option<string>)
    ensures r.Some? ==> r.value in lines && IsTitleLine(m, r.value)
    ensures r.None? ==> forall l :: l in lines ==> !IsTitleLine(m, l)
  {
    if |lines| == 0 then None
    else if IsTitleLine(m, lines[0]) then Some(lines[0])
    else
      var r := FirstTitle(m, lines[1..]);
      assert forall l :: l in lines ==> l == lines[0] || l in lines[1..];
      r
  }

  /** The title found is the first line that passes the title test: it
    * sits at some position and no line before it passes. */
  lemma {:induction false} FirstTitleIsFirst(m: Matchers, lines: seq<string>)
    ensures var r := FirstTitle(m, lines);
      r.Some? ==> exists i :: 0 <= i < |lines| && lines[i] == r.value && NoTitleBefore(m, lines, i)
  {
    if |lines| > 0 {
      var head := IsTitleLine(m, lines[0]);
      if !head {
        var tail := lines[1..];
        assert FirstTitle(m, lines) == FirstTitle(m, tail);
        FirstTitleIsFirst(m, tail);
        var r := FirstTitle(m, tail);
        if r.Some? {
          var i :| 0 <= i < |tail| && tail[i] == r.value && NoTitleBefore(m, tail, i);
          NoTitleBeforeCons(m, lines, i);
          assert lines[i + 1] == r.value;
        }
      } else {
        assert NoTitleBefore(m, lines, 0);
      }
    }
  }

  lemma NoTitleBeforeCons(m: Matchers, lines: seq<string>, i: nat)
    requires i < |lines| - 1 && !IsTitleLine(m, lines[0]) && NoTitleBefore(m, lines[1..], i)
    ensures NoTitleBefore(m, lines, i + 1)
  {
    forall j | 0 <= j < i + 1 ensures !IsTitleLine(m, lines[j]) {
      if j > 0 { assert lines[j] == lines[1..][j - 1]; }
    }
  }

  predicate NoTitleBefore(m: Matchers, lines: seq<string>, i: nat)
    requires i <= |lines|
  {
    forall j :: 0 <= j < i ==> !IsTitleLine(m, lines[j])
  }

  /** `_extract_title` */
  function ExtractTitle(m: Matchers, text: string): Option<string> {
    FirstTitle(m, Take(CleanLines(Split(text, '\n')), 5))
  }

  /** A title is one of the first five non-empty lines, stripped, 10 to 200
    * characters long and free of the page/protocol/sponsor/date/confidential
    * words. */
  lemma TitleFacts(m: Matchers, text: string)
    ensures var r := ExtractTitle(m, text);
      r.Some? ==>
        && r.value in Take(CleanLines(Split(text, '\n')), 5)
        && r.value == Strip(r.value)
        && 10 <= |r.value| <= 200
        && CountContained(Lower(r.value), TitleSkipWords) == 0
  {
    var lines := Take(CleanLines(Split(text, '\n')), 5);
    var r := ExtractTitle(m, text);
    if r.Some? {
      assert r.value in CleanLines(Split(text, '\n'));
    }
  }

  // ---- _extract_population ----

  const PopulationKeys: seq<PopulationKey> := [Screened, Safety, Enrolled, Mitt, Itt, Pp, Mfas, Fas, Pk, Evaluable]

  function FirstPopulation(m: Matchers, textLower: string, keys: seq<PopulationKey>): Option<PopulationKey> {
    if |keys| == 0 then None
    else if m.populationHit(keys[0], textLower) then Some(keys[0])
    else FirstPopulation(m, textLower, keys[1..])
  }

  /** The key found is the first one in order that hits; none is found only
    * when no key hits. */
  lemma {:induction false} FirstPopulationFacts(m: Matchers, textLower: string, keys: seq<PopulationKey>)
    ensures var r := FirstPopulation(m, textLower, keys);
      && (r.Some? ==>
            exists k :: 0 <= k < |keys| && keys[k] == r.value && m.populationHit(r.value, textLower)
              && forall j :: 0 <= j < k ==> !m.populationHit(keys[j], textLower))
      && (r.None? ==> forall k :: k in keys ==> !m.populationHit(k, textLower))
  {
    if |keys| > 0 && !m.populationHit(keys[0], textLower) {
      FirstPopulationFacts(m, textLower, keys[1..]);
      var r := FirstPopulation(m, textLower, keys[1..]);
      assert forall k :: k in keys ==> k == keys[0] || k in keys[1..];
      if r.Some? {
        var k :| 0 <= k < |keys[1..]| && keys[1..][k] == r.value && m.populationHit(r.value, textLower)
          && forall j :: 0 <= j < k ==> !m.populationHit(keys[1..][j], textLower);
        assert keys[k + 1] == r.value;
      }
    }
  }

  /** `_extract_population`: the upper-cased name of the first key hit. */
  function ExtractPopulation(m: Matchers, text: string): Option<string> {
    var key := FirstPopulation(m, Lower(text), PopulationKeys);
    if key.Some? then Some(Upper(key.value.Name())) else None
  }

  /** The population comes back upper-case ('SAFETY', 'ITT'), never in the
    * 'Safety' / 'ITT' spelling the header path produces. */
  lemma PopulationIsUpperCase(m: Matchers, text: string)
    ensures var r := ExtractPopulation(m, text);
      r.Some? ==>
        && (exists k :: k in PopulationKeys && r.value == Upper(k.Name()))
        && (forall i :: 0 <= i < |r.value| ==> !IsLowerLetter(r.value[i]))
  {
  }

  lemma SafetyKeyUpper()
    ensures Upper(Safety.Name()) == "SAFETY"
  {
  }

  // ---- _detect_tlf_patterns ----

  const TocPatternResult: PatternResult :=
    PatternResult(None, None, Some("Table of Contents"), None, [], 0.95, "toc_detection")

  /** The type and its confidence, with the tabular fallback. */
  function DetectType(m: Matchers, text: string): (Option<TlfType>, real) {
    var (t, c) := ScanTypes(m, Strip(Lower(text)), TlfTypes);
    if t.None? && |Words(text)| > 10 && m.tabular(text) then (Some(Table), 0.6) else (t, c)
  }

  function TypeName(t: Option<TlfType>): Option<string> {
    if t.Some? then Some(t.value.Name()) else None
  }

  /** `_detect_tlf_patterns` */
  function DetectPatterns(m: Matchers, text: string): PatternResult {
    if IsTableOfContents(m, text) then TocPatternResult
    else
      var (t, c) := DetectType(m, text);
      PatternResult(TypeName(t), ExtractOutputNumber(m, text), ExtractTitle(m, text),
        ExtractPopulation(m, text), m.treatmentGroups(text), c, "pattern")
  }

  /** The scan's confidence is the confidence of some hit kind. */
  lemma {:induction false} ScanTypesValues(m: Matchers, textLower: string, types: seq<TlfType>)
    ensures var c := ScanTypes(m, textLower, types).1;
      c == 0.0 || c == 0.7 || c == 0.9
  {
    if |types| > 0 {
      ScanTypesValues(m, textLower, types[..|types| - 1]);
    }
  }

  /** Over the three TLF types: the scan reaches 0.9 exactly when one of them
    * hits at the start. */
  lemma ScanAtStartIff(m: Matchers, textLower: string)
    ensures var r := ScanTypes(m, textLower, TlfTypes);
      && (r.1 == 0.0 || r.1 == 0.7 || r.1 == 0.9)
      && (r.0.None? <==> r.1 == 0.0)
      && (r.1 == 0.9 <==> exists u :: u in TlfTypes && m.typeHit(u, textLower) == AtStart)
  {
    ScanTypesValues(m, textLower, TlfTypes);
    ScanTypesBound(m, textLower, TlfTypes);
    ScanTypesNone(m, textLower, TlfTypes);
    ScanTypesFirst(m, textLower, TlfTypes);
    var r := ScanTypes(m, textLower, TlfTypes);
    if r.1 == 0.9 {
      var k :| FirstWith(m, textLower, TlfTypes, k, r.1) && TlfTypes[k] == r.0.value;
      assert m.typeHit(TlfTypes[k], textLower) == AtStart;
    }
  }

  /** The type confidence is 0.9 (a type pattern at the start), 0.7
    * (anywhere), 0.6 (tabular fallback) or 0 exactly when there is no
    * type. */
  lemma TypeConfidenceValues(m: Matchers, text: string)
    ensures var (t, c) := DetectType(m, text);
      && (c == 0.0 || c == 0.6 || c == 0.7 || c == 0.9)
      && (t.None? <==> c == 0.0)
      && (c == 0.9 <==> exists u :: u in TlfTypes && m.typeHit(u, Strip(Lower(text))) == AtStart)
  {
    var tl := Strip(Lower(text));
    ScanAtStartIff(m, tl);
    var r := ScanTypes(m, tl, TlfTypes);
    if r.0.None? && |Words(text)| > 10 && m.tabular(text) {
      assert DetectType(m, text) == (Some(Table), 0.6);
      assert r.1 == 0.0;
    } else {
      assert DetectType(m, text) == r;
    }
  }

  /** A TOC gives the fixed TOC result; anything else carries the detected
    * type and its confidence. */
  lemma PatternResultFacts(m: Matchers, text: string)
    ensures var r := DetectPatterns(m, text);
      && (IsTableOfContents(m, text) ==> r == TocPatternResult)
      && (!IsTableOfContents(m, text) ==>
            r.detectionMethod == "pattern" && r.tlfType == TypeName(DetectType(m, text).0)
            && r.confidence == DetectType(m, text).1 && (r.tlfType.None? <==> r.confidence == 0.0))
  {
    TypeConfidenceValues(m, text);
  }
}
