// backend/app/extractors/tlf_exractor.py: page boundaries and the flexible
// header extractor (`_detect_page_boundary_and_headers`,
// `_extract_flexible_header` and its helpers).

module TlfHeader {
  import opened Common
  import opened Strings
  import opened TlfSignals

  // ---- _standardize_population ----

  /** The population map, in its insertion order. */
  const PopulationMap: seq<(string, string)> := [
    ("safety analysis set", "Safety"), ("safety", "Safety"), ("saf", "Safety"), ("treated", "Safety"),
    ("intention to treat", "ITT"), ("intent to treat", "ITT"), ("itt", "ITT"),
    ("modified intention to treat", "mITT"), ("modified intent to treat", "mITT"), ("mitt", "mITT"),
    ("per protocol", "PP"), ("pp", "PP"), ("full analysis set", "FAS"), ("fas", "FAS"),
    ("efficacy evaluable", "Efficacy Evaluable"), ("pk analysis set", "PK"), ("pharmacokinetic", "PK"),
    ("all screened", "Screened"), ("screened participants", "Screened"), ("enrolled", "Enrolled")
  ]

  /** The value of the first pair whose key is `key`. */
  function Lookup(key: string, pairs: seq<(string, string)>): (r: Option<string>)
    ensures r.Some? ==> exists p :: p in pairs && p.0 == key && p.1 == r.value
    ensures r.None? ==> forall p :: p in pairs ==> p.0 != key
  {
    if |pairs| == 0 then None
    else if pairs[0].0 == key then Some(pairs[0].1)
    else
      var r := Lookup(key, pairs[1..]);
      assert forall p :: p in pairs ==> p == pairs[0] || p in pairs[1..];
      r
  }

  /** The value of the first pair whose key occurs in `s`. */
  function FirstKeyIn(s: string, pairs: seq<(string, string)>): (r: Option<string>)
    ensures r.Some? ==> exists p :: p in pairs && Contains(s, p.0) && p.1 == r.value
    ensures r.None? ==> forall p :: p in pairs ==> !Contains(s, p.0)
  {
    if |pairs| == 0 then None
    else if Contains(s, pairs[0].0) then Some(pairs[0].1)
    else
      var r := FirstKeyIn(s, pairs[1..]);
      assert forall p :: p in pairs ==> p == pairs[0] || p in pairs[1..];
      r
  }

  /** `_standardize_population`: an exact key, else the first key contained,
    * else the text title-cased. */
  function StandardizePopulation(populations: seq<(string, string)>, popText: string): string {
    var popLower := Strip(Lower(popText));
    var exact := Lookup(popLower, populations);
    if exact.Some? then exact.value
    else
      var partial := FirstKeyIn(popLower, populations);
      if partial.Some? then partial.value else Title(popText)
  }

  /** The result is a value of the map whose key is the text itself or occurs
    * in it; only when no key occurs is the text title-cased. */
  lemma StandardizeFacts(populations: seq<(string, string)>, popText: string)
    ensures var popLower := Strip(Lower(popText));
      var r := StandardizePopulation(populations, popText);
      || (exists p :: p in populations && p.0 == popLower && p.1 == r)
      || (exists p :: p in populations && Contains(popLower, p.0) && p.1 == r)
      || ((forall p :: p in populations ==> !Contains(popLower, p.0)) && r == Title(popText))
  {
  }

  lemma LowerOfLower(s: string)
    requires forall i :: 0 <= i < |s| ==> !IsUpperLetter(s[i])
    ensures Lower(s) == s
  {
  }

  lemma StripOfTrimmed(s: string)
    requires |s| > 0 && !IsSpace(s[0]) && !IsSpace(s[|s| - 1])
    ensures Strip(s) == s
  {
    assert TrimRight(s, IsSpace) == s;
  }

  /** A key that holds one of the letters `s`, `r` and `e`. */
  predicate MarkedKey(key: string) {
    's' in key || 'r' in key || 'e' in key
  }

  /** The ordering behind the `itt` reading: `itt` at position 6, `mitt` at
    * 9 and `pp` at 11 are the only keys without one of those letters. */
  predicate IttFirstShape(pops: seq<(string, string)>) {
    && |pops| > 11 && pops[6] == ("itt", "ITT") && pops[9].0 == "mitt" && pops[11].0 == "pp"
    && (forall k :: 0 <= k < |pops| && k != 6 && k != 9 && k != 11 ==> MarkedKey(pops[k].0))
  }

  /** The map has that ordering. */
  lemma PopulationMapIttShape()
    ensures |PopulationMap| == 20
    ensures IttFirstShape(PopulationMap)
  {
  }

  /** `mitt` sits at position 9 and no key before it has four letters. */
  lemma PopulationMapMittShape()
    ensures |PopulationMap| == 20
    ensures PopulationMap[9] == ("mitt", "mITT")
    ensures forall j :: 0 <= j < 9 ==> |PopulationMap[j].0| != 4
  {
  }

  /** A lower-case, trimmed text holding `itt`, none of the letters `s`, `r`
    * and `e`, and not itself `itt` or `mitt`. */
  predicate IttLikeText(popText: string) {
    && (forall i :: 0 <= i < |popText| ==> !IsUpperLetter(popText[i]))
    && |popText| > 0 && !IsSpace(popText[0]) && !IsSpace(popText[|popText| - 1])
    && 's' !in popText && 'r' !in popText && 'e' !in popText
    && Contains(popText, "itt") && popText != "itt" && popText != "mitt"
  }

  /** The partial match follows the map's order, so with `itt` at position
    * 6 and only marked keys before it, a text holding `itt` is read as ITT
    * even when it names the modified population: any such text without the
    * letters `s`, `r` and `e` that is not itself a key. */
  lemma {:induction false} PartialIttReading(pops: seq<(string, string)>, popText: string)
    requires IttFirstShape(pops)
    requires IttLikeText(popText)
    ensures StandardizePopulation(pops, popText) == "ITT"
  {
    LowerOfLower(popText);
    StripOfTrimmed(popText);
    ContainsOnlyOwnChars(popText, "itt", 'i');
    forall p | p in pops ensures p.0 != popText {
      var k :| 0 <= k < |pops| && pops[k] == p;
      if k != 6 && k != 9 && k != 11 {
        assert MarkedKey(pops[k].0);
      }
    }
    forall k | 0 <= k < 6 ensures !Contains(popText, pops[k].0) {
      assert MarkedKey(pops[k].0);
      if Contains(popText, pops[k].0) {
        if 's' in pops[k].0 {
          ContainsOnlyOwnChars(popText, pops[k].0, 's');
        } else if 'r' in pops[k].0 {
          ContainsOnlyOwnChars(popText, pops[k].0, 'r');
        } else {
          ContainsOnlyOwnChars(popText, pops[k].0, 'e');
        }
      }
    }
    FirstKeyAt(popText, pops, 6);
  }

  /** The first pair whose key occurs decides the partial match. */
  lemma {:induction false} FirstKeyAt(s: string, pairs: seq<(string, string)>, k: nat)
    requires k < |pairs| && Contains(s, pairs[k].0)
    requires forall j :: 0 <= j < k ==> !Contains(s, pairs[j].0)
    ensures FirstKeyIn(s, pairs) == Some(pairs[k].1)
  {
    if k > 0 {
      FirstKeyAt(s, pairs[1..], k - 1);
    }
  }

  /** `mitt population` and the like are read as ITT. */
  lemma PartialMittReadsAsItt(popText: string)
    requires IttLikeText(popText)
    ensures StandardizePopulation(PopulationMap, popText) == "ITT"
  {
    PopulationMapIttShape();
    PartialIttReading(PopulationMap, popText);
  }

  /** A lower-case, trimmed text longer than any key, holding `intention to
    * treat` but neither the letter `s` nor `treated`. */
  predicate IntentionLikeText(popText: string) {
    PlainLongText(popText) && !Contains(popText, "treated") && Contains(popText, "intention to treat")
  }

  /** Lower-case, trimmed, longer than any key and without the letter `s`. */
  predicate PlainLongText(popText: string) {
    && (forall i :: 0 <= i < |popText| ==> !IsUpperLetter(popText[i]))
    && |popText| > 27
    && !IsSpace(popText[0]) && !IsSpace(popText[|popText| - 1])
    && 's' !in popText
  }

  /** The ordering behind that reading: keys of at most 27 characters, `s`
    * in the first three, `treated` fourth and `intention to treat` fifth. */
  predicate IntentionFirstShape(pops: seq<(string, string)>) {
    && |pops| > 4 && pops[3].0 == "treated" && pops[4] == ("intention to treat", "ITT")
    && (forall k :: 0 <= k < 3 ==> 's' in pops[k].0)
    && (forall k :: 0 <= k < |pops| ==> |pops[k].0| <= 27)
  }

  /** The map has that ordering. */
  lemma PopulationMapIntentionShape()
    ensures IntentionFirstShape(PopulationMap)
  {
  }

  /** Such a text, the modified population spelled out among them, is read
    * as ITT: `intention to treat` at position 4 is the first key it
    * contains, before the `modified intention to treat` key at 7. */
  lemma IntentionReading(pops: seq<(string, string)>, popText: string)
    requires IntentionFirstShape(pops)
    requires IntentionLikeText(popText)
    ensures StandardizePopulation(pops, popText) == "ITT"
  {
    forall p | p in pops ensures p.0 != popText {
      var k :| 0 <= k < |pops| && pops[k] == p;
    }
    forall k | 0 <= k < 3 ensures !Contains(popText, pops[k].0) {
      if Contains(popText, pops[k].0) {
        ContainsOnlyOwnChars(popText, pops[k].0, 's');
      }
    }
    PartialReadingAt(pops, popText, 4);
  }

  /** `modified intention to treat population` is read as ITT, not mITT. */
  lemma ModifiedIntentionReadsAsItt()
    ensures StandardizePopulation(PopulationMap, "modified intention to treat population") == "ITT"
  {
    PopulationMapIntentionShape();
    ModifiedIntentionShape();
    IntentionReading(PopulationMap, "modified intention to treat population");
  }

  /** `modified intention to treat population` has that shape. */
  lemma ModifiedIntentionShape()
    ensures IntentionLikeText("modified intention to treat population")
  {
    ModifiedIntentionPlain();
    NoTreatedIn("modified intention to treat population");
    IntentionInModified();
  }

  lemma ModifiedIntentionPlain()
    ensures PlainLongText("modified intention to treat population")
  {
  }

  lemma IntentionInModified()
    ensures Contains("modified intention to treat population", "intention to treat")
  {
    var a, b, c := "modified ", "intention to treat", " population";
    assert a + b + c == "modified intention to treat population";
    assert (a + b + c)[|a|..|a| + |b|] == b;
    ContainsAt(a + b + c, b, |a|);
  }

  /** A trimmed lower-case text that is no key is read by the first key it
    * contains. */
  lemma PartialReadingAt(pops: seq<(string, string)>, popText: string, k: nat)
    requires forall i :: 0 <= i < |popText| ==> !IsUpperLetter(popText[i])
    requires |popText| > 0 && !IsSpace(popText[0]) && !IsSpace(popText[|popText| - 1])
    requires forall p :: p in pops ==> p.0 != popText
    requires k < |pops| && Contains(popText, pops[k].0)
    requires forall j :: 0 <= j < k ==> !Contains(popText, pops[j].0)
    ensures StandardizePopulation(pops, popText) == pops[k].1
  {
    LowerOfLower(popText);
    StripOfTrimmed(popText);
    FirstKeyAt(popText, pops, k);
  }

  lemma NoTreatedIn(t: string)
    requires t == "modified intention to treat population"
    ensures !Contains(t, "treated")
  {
    assert t[1] == 'o';
    assert forall k :: 0 <= k < |t| && t[k] == 'd' ==> k == 2 || k == 7;
    if Contains(t, "treated") {
      var i := ContainsWitness(t, "treated");
      CharOfSlice(t, "treated", i, 6);
      assert false;
    }
  }

  lemma CharOfSlice(s: string, sub: string, i: nat, j: nat)
    requires i + |sub| <= |s| && s[i..i + |sub|] == sub && j < |sub|
    ensures s[i + j] == sub[j]
  {
    assert s[i..i + |sub|][j] == s[i + j];
  }

  /** The exact key `mitt` is read as its own value. */
  lemma ExactMittReading(pops: seq<(string, string)>)
    requires |pops| > 9 && pops[9].0 == "mitt"
    requires forall j :: 0 <= j < 9 ==> |pops[j].0| != 4
    ensures StandardizePopulation(pops, "mitt") == pops[9].1
  {
    LowerOfLower("mitt");
    StripOfTrimmed("mitt");
    LookupAt("mitt", pops, 9);
  }

  /** `mitt` alone is read as mITT. */
  lemma MittIsModified()
    ensures StandardizePopulation(PopulationMap, "mitt") == "mITT"
  {
    PopulationMapMittShape();
    ExactMittReading(PopulationMap);
  }

  /** The first pair with the key decides the exact match. */
  lemma {:induction false} LookupAt(key: string, pairs: seq<(string, string)>, k: nat)
    requires k < |pairs| && pairs[k].0 == key
    requires forall j :: 0 <= j < k ==> |pairs[j].0| != |key|
    ensures Lookup(key, pairs) == Some(pairs[k].1)
  {
    if k > 0 {
      LookupAt(key, pairs[1..], k - 1);
    }
  }

  /** `mitt population` meets the conditions above. */
  lemma MittPopulationShape()
    ensures IttLikeText("mitt population")
  {
    ContainsAt("mitt population", "itt", 1);
  }

  // ---- line tests ----

  const PageHeaderFooterMarks: seq<string> :=
    ["page ", "confidential", "proprietary", "clinical study report", "interim analysis", "final report",
     "cut-off", "as of ", "date:", "abbreviations", "note:", "source:"]

  /** `_is_page_header_footer` */
  predicate IsPageHeaderFooter(t: HeaderTables, lineLower: string) {
    CountContained(lineLower, t.furnitureMarks) > 0
  }

  const TitleLineSkips: seq<string> :=
    ["protocol", "page ", "confidential", "cut-off", "jazz", "pharmaceuticals", "inc.", "ltd.", "corp."]

  /** The extractor's fixed word lists, passed to the scan as one value. */
  datatype HeaderTables = HeaderTables(
    populations: seq<(string, string)>,
    furnitureMarks: seq<string>,
    titleSkips: seq<string>)

  const Tables: HeaderTables := HeaderTables(PopulationMap, PageHeaderFooterMarks, TitleLineSkips)

  /** `_is_potential_title_line` */
  predicate IsPotentialTitleLine(m: Matchers, t: HeaderTables, line: string) {
    var lineLower := Lower(line);
    var words := Words(line);
    && CountContained(lineLower, t.titleSkips) == 0
    && 2 <= |words| <= 15
    && 2 * CountWhere(line, IsAlpha) >= |line|
    && !m.countPercent(lineLower)
  }

  // ---- _extract_flexible_header ----

  const HeaderPatterns: seq<HeaderPattern> := [Standard, WithTitle, Abbreviated]

  /** The first TLF pattern that matches, with its match. */
  function FirstHeaderTlf(m: Matchers, lineLower: string, ps: seq<HeaderPattern>): Option<(HeaderPattern, HeaderMatch)> {
    if |ps| == 0 then None
    else
      var h := m.headerTlf(ps[0], lineLower);
      if h.Some? then Some((ps[0], h.value)) else FirstHeaderTlf(m, lineLower, ps[1..])
  }

  /** The title the with-title pattern captures after the number, when it is
    * substantial; the other two patterns have no third group. */
  function SameLineTitle(p: HeaderPattern, h: HeaderMatch): Option<string> {
    if p == WithTitle && h.rest.Some? && h.rest.value != "" && |Strip(h.rest.value)| > 3 then Some(Strip(h.rest.value))
    else None
  }

  /** What the line loop reads off one clean line: whether it is page
    * furniture, its protocol id, the first TLF pattern that matches, the
    * population text and whether it could be a title line. */
  datatype LineSignals = LineSignals(
    line: string,
    furniture: bool,
    protocolId: Option<string>,
    tlf: Option<(HeaderPattern, HeaderMatch)>,
    population: Option<string>,
    potentialTitle: bool)

  function Signals(m: Matchers, t: HeaderTables, line: string): LineSignals {
    var lineLower := Lower(line);
    LineSignals(line, IsPageHeaderFooter(t, lineLower), m.protocolId(lineLower),
      FirstHeaderTlf(m, lineLower, HeaderPatterns), m.populationText(lineLower), IsPotentialTitleLine(m, t, line))
  }

  function LinesSignals(m: Matchers, t: HeaderTables, lines: seq<string>): (r: seq<LineSignals>)
    ensures |r| == |lines|
  {
    seq(|lines|, i requires 0 <= i < |lines| => Signals(m, t, lines[i]))
  }

  /** What the scan has found so far, each with the index of its line: the
    * protocol id, the TLF match and the population text (standardised once
    * the scan is over), then the title lines and the header lines. */
  datatype Found = Found(
    protocol: Option<(nat, string)>,
    tlf: Option<(nat, HeaderMatch)>,
    population: Option<(nat, string)>,
    titleLines: seq<string>,
    headerLines: seq<string>)

  const NothingFound: Found := Found(None, None, None, [], [])

  /** `has_content` is set exactly when a protocol or a TLF line is found. */
  predicate HasContent(f: Found) {
    f.protocol.Some? || f.tlf.Some?
  }

  /** A protocol line is taken while none is recorded or the recorded one is
    * line 0, which Python reads as false. */
  predicate ProtocolOpen(f: Found) {
    f.protocol.None? || f.protocol.value.0 == 0
  }

  /** A TLF pattern on the line records the match, and the same-line title
    * if there is one. */
  function TlfStep(f: Found, i: nat, sig: LineSignals): Found {
    if sig.tlf.None? then f
    else
      var (pattern, hit) := sig.tlf.value;
      var sameLine := SameLineTitle(pattern, hit);
      f.(tlf := Some((i, hit)),
         titleLines := f.titleLines + (if sameLine.Some? then [sameLine.value] else []),
         headerLines := f.headerLines + [sig.line])
  }

  /** A population pattern on the line records the population. */
  function PopulationStep(f: Found, i: nat, sig: LineSignals): Found {
    if sig.population.None? then f
    else f.(population := Some((i, Strip(sig.population.value))), headerLines := f.headerLines + [sig.line])
  }

  /** A line after the TLF line and before any population line that looks
    * like a title is a title line. */
  function TitleStep(f: Found, i: nat, sig: LineSignals): Found {
    if f.tlf.Some? && i > f.tlf.value.0
      && (f.population.None? || i < f.population.value.0)
      && sig.potentialTitle
    then f.(titleLines := f.titleLines + [Strip(sig.line)], headerLines := f.headerLines + [sig.line])
    else f
  }

  /** A line that is neither page furniture nor a new protocol line. */
  function ContentStep(f: Found, i: nat, sig: LineSignals): Found {
    TitleStep(PopulationStep(TlfStep(f, i, sig), i, sig), i, sig)
  }

  /** One pass of the scan loop over clean line `i`. */
  function ScanLine(f: Found, i: nat, sig: LineSignals): Found {
    if sig.furniture then f
    else if sig.protocolId.Some? && ProtocolOpen(f) then f.(protocol := Some((i, sig.protocolId.value)))
    else ContentStep(f, i, sig)
  }

  /** The scan over the first `n` clean lines. */
  function ScanLines(sigs: seq<LineSignals>, n: nat): Found
    requires n <= |sigs|
  {
    if n == 0 then NothingFound
    else ScanLine(ScanLines(sigs, n - 1), n - 1, sigs[n - 1])
  }

  /** `re.sub(r'[:\-]\s*$', '', part)` */
  function DropTrailingMark(part: string): string {
    var r := TrimRight(part, IsSpace);
    if |r| > 0 && (r[|r| - 1] == ':' || r[|r| - 1] == '-') then r[..|r| - 1] else part
  }

  /** The cleaned title parts longer than two characters. */
  function TitleParts(lines: seq<string>): (r: seq<string>)
    ensures forall p :: p in r ==> |p| > 2
  {
    if |lines| == 0 then []
    else
      var rest := TitleParts(lines[..|lines| - 1]);
      var cleaned := DropTrailingMark(Strip(lines[|lines| - 1]));
      if |cleaned| > 2 then rest + [cleaned] else rest
  }

  function AssembleTitle(lines: seq<string>): Option<string> {
    var parts := TitleParts(lines);
    if |parts| > 0 then Some(Join(parts, " ")) else None
  }

  /** What `_extract_flexible_header` returns (the document context keeps
    * only the protocol). */
  datatype HeaderInfo = HeaderInfo(
    hasContent: bool,
    tlfType: Option<TlfType>,
    outputNumber: Option<string>,
    title: Option<string>,
    population: Option<string>,
    confidence: real,
    headerLines: seq<string>,
    protocol: Option<string>,
    boundary: Option<Boundary>)

  /** A page-boundary line. */
  datatype Boundary = Boundary(lineIndex: nat, score: nat, patterns: seq<BoundaryPattern>, text: string)

  /** `_calculate_header_confidence`; the title-lines component always
    * counts, as the list is never None. */
  function HeaderConfidence(f: Found, title: Option<string>, population: Option<string>): real {
    var core := if f.tlf.Some? && f.tlf.value.1.number != "" then 0.5 else 0.0;
    var titled := if title.Some? && |title.value| > 5 then 0.3 else 0.0;
    var populated := if Truthy(population) then 0.1 else 0.0;
    var protocol := if f.protocol.Some? && f.protocol.value.1 != "" then 0.1 else 0.0;
    var components :=
      (if f.protocol.Some? then 1 else 0) + (if f.tlf.Some? then 1 else 0)
      + 1 + (if f.population.Some? then 1 else 0);
    var bonus := if components >= 3 then 0.1 else 0.0;
    MinReal(core + titled + populated + protocol + bonus, 1.0)
  }

  /** Only a header with a type and a number passes 0.6, and only one that
    * also has a title longer than five characters passes 0.8. */
  lemma HeaderConfidenceThresholds(f: Found, title: Option<string>, population: Option<string>)
    ensures 0.0 <= HeaderConfidence(f, title, population) <= 1.0
    ensures HeaderConfidence(f, title, population) > 0.6 ==> f.tlf.Some? && f.tlf.value.1.number != ""
    ensures HeaderConfidence(f, title, population) > 0.8 ==>
      f.tlf.Some? && f.tlf.value.1.number != "" && title.Some? && |title.value| > 5
  {
  }

  function EmptyHeader(boundary: Option<Boundary>): HeaderInfo {
    HeaderInfo(false, None, None, None, None, 0.0, [], None, boundary)
  }

  /** The header built from a finished scan. */
  function HeaderOf(t: HeaderTables, f: Found, boundary: Option<Boundary>): HeaderInfo {
    var title := AssembleTitle(f.titleLines);
    var population := if f.population.Some? then Some(StandardizePopulation(t.populations, f.population.value.1)) else None;
    HeaderInfo(HasContent(f),
      if f.tlf.Some? then Some(f.tlf.value.1.tlfType) else None,
      if f.tlf.Some? then Some(f.tlf.value.1.number) else None,
      title, population, HeaderConfidence(f, title, population), f.headerLines,
      if f.protocol.Some? then Some(f.protocol.value.1) else None,
      boundary)
  }

  /** `_extract_flexible_header` */
  function FlexibleHeader(m: Matchers, t: HeaderTables, lines: seq<string>, boundary: Option<Boundary>): HeaderInfo {
    var clean := CleanLines(lines);
    if |clean| < 2 then EmptyHeader(boundary)
    else HeaderOf(t, ScanLines(LinesSignals(m, t, clean), |clean|), boundary)
  }

  /** The scan loop of `_extract_flexible_header`, over the lines' tests:
    * page furniture is skipped, a protocol id is taken while none is held
    * (or the one held came from line 0), and every other line is tried for
    * the TLF match, the population and the title. */
  method ScanSignals(sigs: seq<LineSignals>) returns (found: Found)
    ensures found == ScanLines(sigs, |sigs|)
  {
    found := NothingFound;
    var i := 0;
    while i < |sigs|
      invariant 0 <= i <= |sigs|
      invariant found == ScanLines(sigs, i)
    {
      var sig := sigs[i];
      if sig.furniture {
      } else if sig.protocolId.Some? && ProtocolOpen(found) {
        found := found.(protocol := Some((i, sig.protocolId.value)));
      } else {
        found := TlfStep(found, i, sig);
        found := PopulationStep(found, i, sig);
        found := TitleStep(found, i, sig);
      }
      i := i + 1;
    }
  }

  /** `_extract_flexible_header` */
  method ExtractFlexibleHeader(m: Matchers, t: HeaderTables, lines: seq<string>, boundary: Option<Boundary>) returns (header: HeaderInfo)
    ensures header == FlexibleHeader(m, t, lines, boundary)
  {
    var clean := CleanLines(lines);
    if |clean| < 2 {
      return EmptyHeader(boundary);
    }
    var found := ScanSignals(LinesSignals(m, t, clean));
    header := HeaderOf(t, found, boundary);
  }

  /** Fewer than two non-blank lines give an empty header. */
  lemma FewLinesNoHeader(m: Matchers, t: HeaderTables, lines: seq<string>, boundary: Option<Boundary>)
    requires |CleanLines(lines)| < 2
    ensures !FlexibleHeader(m, t, lines, boundary).hasContent && FlexibleHeader(m, t, lines, boundary).confidence == 0.0
  {
  }

  /** The TLF match a scan holds is the match of one of the lines scanned. */
  lemma {:induction false} ScanTlfFromLine(sigs: seq<LineSignals>, n: nat)
    requires n <= |sigs|
    ensures var f := ScanLines(sigs, n);
      f.tlf.Some? ==> f.tlf.value.0 < n && sigs[f.tlf.value.0].tlf.Some? && sigs[f.tlf.value.0].tlf.value.1 == f.tlf.value.1
  {
    if n > 0 {
      ScanTlfFromLine(sigs, n - 1);
      var f := ScanLines(sigs, n - 1);
      assert ScanLines(sigs, n) == ScanLine(f, n - 1, sigs[n - 1]);
      assert ScanLine(f, n - 1, sigs[n - 1]).tlf == f.tlf || ScanLine(f, n - 1, sigs[n - 1]).tlf == Some((n - 1, sigs[n - 1].tlf.value.1));
    }
  }

  /** The header reports what the scan found: content exactly when a
    * protocol or a TLF line was found, and the type and number of the TLF
    * match. */
  lemma HeaderOfFacts(t: HeaderTables, f: Found, boundary: Option<Boundary>)
    ensures var h := HeaderOf(t, f, boundary);
      && (h.hasContent <==> h.protocol.Some? || h.tlfType.Some?)
      && (h.tlfType.Some? <==> f.tlf.Some?) && (h.outputNumber.Some? <==> f.tlf.Some?)
      && (f.tlf.Some? ==> h.tlfType == Some(f.tlf.value.1.tlfType) && h.outputNumber == Some(f.tlf.value.1.number))
      && h.boundary == boundary
  {
  }

  /** Some clean line's first TLF match gave the header's type and number. */
  predicate TlfFromSomeLine(m: Matchers, clean: seq<string>, h: HeaderInfo) {
    exists j :: 0 <= j < |clean| && TlfOfLine(m, clean[j], h)
  }

  /** The header has content exactly when it has a protocol or a type, it
    * has a type exactly when it has a number, and these are what the first
    * matching TLF pattern read on one of its clean lines. */
  lemma HeaderTlfFromLine(m: Matchers, t: HeaderTables, lines: seq<string>, boundary: Option<Boundary>)
    ensures var h := FlexibleHeader(m, t, lines, boundary);
      && (h.hasContent <==> h.protocol.Some? || h.tlfType.Some?)
      && (h.tlfType.Some? <==> h.outputNumber.Some?)
      && (h.tlfType.Some? ==> TlfFromSomeLine(m, CleanLines(lines), h))
  {
    var clean := CleanLines(lines);
    if |clean| >= 2 {
      var sigs := LinesSignals(m, t, clean);
      var f := ScanLines(sigs, |clean|);
      var h := HeaderOf(t, f, boundary);
      assert FlexibleHeader(m, t, lines, boundary) == h;
      HeaderOfFacts(t, f, boundary);
      if f.tlf.Some? {
        ScanTlfFromLine(sigs, |clean|);
        var j := f.tlf.value.0;
        SignalsTlfAt(m, t, clean, j);
        assert TlfOfLine(m, clean[j], h);
      } else {
        assert h.tlfType.None?;
      }
    } else {
      assert FlexibleHeader(m, t, lines, boundary) == EmptyHeader(boundary);
    }
  }

  /** A line's TLF signal is the first header pattern matching it. */
  lemma SignalsTlfAt(m: Matchers, t: HeaderTables, lines: seq<string>, i: nat)
    requires i < |lines|
    ensures LinesSignals(m, t, lines)[i].tlf == FirstHeaderTlf(m, Lower(lines[i]), HeaderPatterns)
  {
  }

  /** The header's type and number are the first TLF match on `line`. */
  predicate TlfOfLine(m: Matchers, line: string, h: HeaderInfo) {
    var t := FirstHeaderTlf(m, Lower(line), HeaderPatterns);
    t.Some? && h.tlfType == Some(t.value.1.tlfType) && h.outputNumber == Some(t.value.1.number)
  }

  /** The three patterns are tried in order and the with-title one extends
    * the standard one: whenever it matches, so does the standard pattern,
    * so no title is ever taken from the TLF line itself. */
  ghost predicate WithTitleExtendsStandard(m: Matchers) {
    forall s :: m.headerTlf(WithTitle, s).Some? ==> m.headerTlf(Standard, s).Some?
  }

  lemma NoSameLineTitle(m: Matchers, lineLower: string)
    requires WithTitleExtendsStandard(m)
    ensures var t := FirstHeaderTlf(m, lineLower, HeaderPatterns);
      t.Some? ==> t.value.0 != WithTitle && SameLineTitle(t.value.0, t.value.1).None?
  {
    var ps := HeaderPatterns;
    var h := m.headerTlf(Standard, lineLower);
    if h.Some? {
      assert FirstHeaderTlf(m, lineLower, ps) == Some((Standard, h.value));
    } else {
      assert m.headerTlf(WithTitle, lineLower).None?;
      var ps2 := ps[1..];
      assert ps2 == [WithTitle, Abbreviated];
      assert FirstHeaderTlf(m, lineLower, ps) == FirstHeaderTlf(m, lineLower, ps2);
      var ps3 := ps2[1..];
      assert ps3 == [Abbreviated];
      assert FirstHeaderTlf(m, lineLower, ps2) == FirstHeaderTlf(m, lineLower, ps3);
      assert ps3[1..] == [];
      assert FirstHeaderTlf(m, lineLower, ps3[1..]) == None;
    }
  }

  /** A protocol on the first clean line does not count as recorded: a
    * second protocol line replaces it. */
  lemma ProtocolOnLineZeroReplaced(sigs: seq<LineSignals>)
    requires |sigs| == 2
    requires forall i :: 0 <= i < 2 ==> !sigs[i].furniture && sigs[i].protocolId.Some?
    ensures ScanLines(sigs, 2).protocol == Some((1, sigs[1].protocolId.value))
  {
    assert ScanLines(sigs, 1).protocol == Some((0, sigs[0].protocolId.value));
  }

  /** A protocol recorded on any later line stays. */
  lemma ProtocolAfterLineZeroKept(sigs: seq<LineSignals>, n: nat)
    requires 0 < n <= |sigs|
    requires ScanLines(sigs, n - 1).protocol.Some? && ScanLines(sigs, n - 1).protocol.value.0 > 0
    ensures ScanLines(sigs, n).protocol == ScanLines(sigs, n - 1).protocol
  {
  }

  // ---- _detect_page_boundary_and_headers ----

  /** `' '.join(line.split()).lower()` */
  function NormalizeLine(line: string): string {
    Lower(Join(Words(line), " "))
  }

  /** The boundary patterns that hit the normalised line, in order. */
  function HitPatterns(m: Matchers, lineClean: string, ps: seq<BoundaryPattern>): (r: seq<BoundaryPattern>)
    ensures |r| <= |ps|
    ensures forall p :: p in r <==> p in ps && m.boundary(p, lineClean)
  {
    if |ps| == 0 then []
    else
      var rest := HitPatterns(m, lineClean, ps[..|ps| - 1]);
      var p := ps[|ps| - 1];
      assert forall q :: q in ps <==> q in ps[..|ps| - 1] || q == p;
      if m.boundary(p, lineClean) then rest + [p] else rest
  }

  /** The boundary record of line `i`, if the line is one: two or more
    * patterns, or a page number. */
  function BoundaryAt(m: Matchers, line: string, i: nat): (r: Option<Boundary>)
    ensures r.Some? ==> r.value.lineIndex == i && r.value.score == |r.value.patterns|
    ensures r.Some? ==> r.value.score >= 2 || m.boundary(PageNumbers, NormalizeLine(line))
  {
    var lineClean := NormalizeLine(line);
    var hits := HitPatterns(m, lineClean, BoundaryPatterns);
    if |hits| >= 2 || m.boundary(PageNumbers, lineClean) then Some(Boundary(i, |hits|, hits, Strip(line)))
    else None
  }

  /** The values of the present entries, in order. */
  function Somes<T>(os: seq<Option<T>>): (r: seq<T>)
    ensures |r| <= |os|
  {
    if |os| == 0 then []
    else
      var last := os[|os| - 1];
      Somes(os[..|os| - 1]) + (if last.Some? then [last.value] else [])
  }

  /** The boundary record of each line, if it is a boundary. */
  function LineRecords(m: Matchers, lines: seq<string>): (r: seq<Option<Boundary>>)
    ensures |r| == |lines|
  {
    seq(|lines|, i requires 0 <= i < |lines| => BoundaryAt(m, lines[i], i))
  }

  function Boundaries(m: Matchers, lines: seq<string>): seq<Boundary> {
    Somes(LineRecords(m, lines))
  }

  /** The lines from three before a boundary to eleven after it. */
  function Window(lines: seq<string>, i: nat): seq<string> {
    var start := if i >= 3 then i - 3 else 0;
    var end := Min(|lines|, i + 12);
    if start <= end then lines[start..end] else []
  }

  /** The headers with content found around the boundaries. */
  function BoundaryHeaders(m: Matchers, t: HeaderTables, lines: seq<string>, bs: seq<Boundary>): seq<HeaderInfo> {
    if |bs| == 0 then []
    else
      var r := BoundaryHeaders(m, t, lines, bs[..|bs| - 1]);
      var b := bs[|bs| - 1];
      var h := FlexibleHeader(m, t, Window(lines, b.lineIndex), Some(b));
      if h.hasContent then r + [h] else r
  }

  function Take<T>(s: seq<T>, n: nat): seq<T> {
    if |s| <= n then s else s[..n]
  }

  datatype PageInfo = PageInfo(boundaries: seq<Boundary>, headers: seq<HeaderInfo>, hasNewPage: bool)

  /** `_detect_page_boundary_and_headers` */
  function PageAnalysis(m: Matchers, t: HeaderTables, text: string): PageInfo {
    var lines := Split(text, '\n');
    var bs := Boundaries(m, lines);
    var hs := BoundaryHeaders(m, t, lines, bs);
    var headers :=
      if |hs| > 0 then hs
      else
        var h := FlexibleHeader(m, t, Take(lines, 20), None);
        if h.hasContent then [h] else [];
    PageInfo(bs, headers, |bs| > 0)
  }

  /** The boundary loop of `_detect_page_boundary_and_headers`, over each
    * line's boundary test: the lines that pass give the boundaries, in
    * order. */
  method CollectBoundaries(records: seq<Option<Boundary>>) returns (boundaries: seq<Boundary>)
    ensures boundaries == Somes(records)
  {
    boundaries := [];
    var i := 0;
    while i < |records|
      invariant 0 <= i <= |records|
      invariant boundaries == Somes(records[..i])
    {
      assert records[..i + 1][..i] == records[..i];
      var b := records[i];
      if b.Some? {
        boundaries := boundaries + [b.value];
      }
      i := i + 1;
    }
    assert records[..|records|] == records;
  }

  method FindBoundaries(m: Matchers, lines: seq<string>) returns (boundaries: seq<Boundary>)
    ensures boundaries == Boundaries(m, lines)
  {
    boundaries := CollectBoundaries(LineRecords(m, lines));
  }

  /** The header loop: a header with content around each boundary. */
  method CollectHeaders(m: Matchers, t: HeaderTables, lines: seq<string>, boundaries: seq<Boundary>)
    returns (headers: seq<HeaderInfo>)
    ensures headers == BoundaryHeaders(m, t, lines, boundaries)
  {
    headers := [];
    var j := 0;
    while j < |boundaries|
      invariant 0 <= j <= |boundaries|
      invariant headers == BoundaryHeaders(m, t, lines, boundaries[..j])
    {
      assert boundaries[..j + 1][..j] == boundaries[..j];
      var b := boundaries[j];
      var h := ExtractFlexibleHeader(m, t, Window(lines, b.lineIndex), Some(b));
      if h.hasContent {
        headers := headers + [h];
      }
      j := j + 1;
    }
    assert boundaries[..|boundaries|] == boundaries;
  }

  /** `_detect_page_boundary_and_headers`, falling back to the first twenty
    * lines when no boundary gives a header. */
  method DetectPageBoundaries(m: Matchers, t: HeaderTables, text: string) returns (info: PageInfo)
    ensures info == PageAnalysis(m, t, text)
  {
    var lines := Split(text, '\n');
    var boundaries := FindBoundaries(m, lines);
    var headers := CollectHeaders(m, t, lines, boundaries);
    if |headers| == 0 {
      var h := ExtractFlexibleHeader(m, t, Take(lines, 20), None);
      if h.hasContent {
        headers := [h];
      }
    }
    info := PageInfo(boundaries, headers, |boundaries| > 0);
  }

  /** Line indices strictly increase along `bs`. */
  predicate Ascending(bs: seq<Boundary>) {
    forall k, l :: 0 <= k < l < |bs| ==> bs[k].lineIndex < bs[l].lineIndex
  }

  /** Each present entry records its own position. */
  predicate Indexed(os: seq<Option<Boundary>>) {
    forall j :: 0 <= j < |os| && os[j].Some? ==> os[j].value.lineIndex == j
  }

  lemma {:induction false} SomesOfIndexed(os: seq<Option<Boundary>>)
    requires Indexed(os)
    ensures forall b :: b in Somes(os) ==> b.lineIndex < |os| && os[b.lineIndex] == Some(b)
    ensures Ascending(Somes(os))
  {
    if |os| > 0 {
      var init := os[..|os| - 1];
      assert Indexed(init);
      SomesOfIndexed(init);
      var r := Somes(init);
      forall b | b in r ensures b.lineIndex < |os| && os[b.lineIndex] == Some(b) {
        assert init[b.lineIndex] == os[b.lineIndex];
      }
      var last := os[|os| - 1];
      if last.Some? {
        var bs := r + [last.value];
        forall k, l | 0 <= k < l < |bs|
          ensures bs[k].lineIndex < bs[l].lineIndex
        {
          assert bs[k] == r[k] && bs[k] in r;
          if l < |r| {
            assert bs[l] == r[l];
          }
        }
      }
    }
  }

  /** Boundaries come in line order, each the boundary record of its line:
    * a line with two or more boundary patterns or a page number. */
  lemma BoundariesFacts(m: Matchers, lines: seq<string>)
    ensures forall b :: b in Boundaries(m, lines) ==>
      b.lineIndex < |lines| && BoundaryAt(m, lines[b.lineIndex], b.lineIndex) == Some(b)
    ensures Ascending(Boundaries(m, lines))
  {
    var os := LineRecords(m, lines);
    forall j | 0 <= j < |os| && os[j].Some? ensures os[j].value.lineIndex == j {
      assert os[j] == BoundaryAt(m, lines[j], j);
    }
    SomesOfIndexed(os);
  }

  /** Every header found has content, and a page is new exactly when a
    * boundary was found. */
  lemma PageAnalysisFacts(m: Matchers, t: HeaderTables, text: string)
    ensures var info := PageAnalysis(m, t, text);
      (forall h :: h in info.headers ==> h.hasContent) && (info.hasNewPage <==> |info.boundaries| > 0)
  {
    var lines := Split(text, '\n');
    BoundaryHeadersHaveContent(m, t, lines, Boundaries(m, lines));
  }

  lemma {:induction false} BoundaryHeadersHaveContent(m: Matchers, t: HeaderTables, lines: seq<string>, bs: seq<Boundary>)
    ensures forall h :: h in BoundaryHeaders(m, t, lines, bs) ==> h.hasContent
  {
    if |bs| > 0 {
      BoundaryHeadersHaveContent(m, t, lines, bs[..|bs| - 1]);
    }
  }

  /** `max(headers, key=confidence)`: the first header with the highest
    * confidence. */
  function BestHeader(hs: seq<HeaderInfo>): Option<HeaderInfo> {
    if |hs| == 0 then None
    else
      var b := BestHeader(hs[..|hs| - 1]);
      var h := hs[|hs| - 1];
      if b.None? || h.confidence > b.value.confidence then Some(h) else b
  }

  /** The header picked has the highest confidence, and every header before
    * it has a strictly lower one: ties go to the earliest, as `max` does. */
  lemma {:induction false} BestHeaderFacts(hs: seq<HeaderInfo>)
    ensures BestHeader(hs).None? <==> |hs| == 0
    ensures BestHeader(hs).Some? ==>
      BestHeader(hs).value in hs && forall h :: h in hs ==> h.confidence <= BestHeader(hs).value.confidence
    ensures BestHeader(hs).Some? ==>
      exists i :: 0 <= i < |hs| && hs[i] == BestHeader(hs).value
        && forall j :: 0 <= j < i ==> hs[j].confidence < BestHeader(hs).value.confidence
  {
    if |hs| > 0 {
      var pre := hs[..|hs| - 1];
      var last := hs[|hs| - 1];
      BestHeaderFacts(pre);
      assert forall h :: h in hs <==> h in pre || h == last;
      var b := BestHeader(pre);
      if b.None? || last.confidence > b.value.confidence {
        forall j | 0 <= j < |hs| - 1 ensures hs[j].confidence < last.confidence {
          assert hs[j] == pre[j];
        }
      } else {
        var i :| 0 <= i < |pre| && pre[i] == b.value
          && forall j :: 0 <= j < i ==> pre[j].confidence < b.value.confidence;
        assert hs[i] == pre[i];
        forall j | 0 <= j < i ensures hs[j].confidence < b.value.confidence {
          assert hs[j] == pre[j];
        }
      }
    }
  }
}
