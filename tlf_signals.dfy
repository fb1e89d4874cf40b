// backend/app/extractors/tlf_exractor.py: the regular expressions the TLF
// extractor consults, and its table-of-contents and structure signals.
//
// Every regular-expression search of the extractor is a field of
// `Matchers`: a predicate (or a match result) on the exact string the
// source hands to `re`. Literal substring tests, line splitting, stripping,
// lower-casing and word counts are modelled on the strings themselves.

module TlfSignals {
  import opened Common
  import opened Strings

  datatype TlfType = Table | Listing | Figure
  {
    function Name(): string {
      match this
      case Table => "table"
      case Listing => "listing"
      case Figure => "figure"
    }
  }

  /** How the patterns of one TLF type hit a text: at its start (`re.match`)
    * or only somewhere in it (`re.findall`). */
  datatype HitKind = NoHit | Anywhere | AtStart

  /** The explicit indicators of the strict TOC test, as the list is written:
    * a missing comma glues the last two patterns into one. */
  datatype StrictIndicator =
    | TableOfContents | ListOfTables | ListOfFigures | ListOfListings | IndexOfTables
    | IndexOfFiguresThenToc

  /** The keys of `_population_patterns`, in order. */
  datatype PopulationKey = Screened | Safety | Enrolled | Mitt | Itt | Pp | Mfas | Fas | Pk | Evaluable
  {
    function Name(): string {
      match this
      case Screened => "screened"
      case Safety => "safety"
      case Enrolled => "enrolled"
      case Mitt => "mitt"
      case Itt => "itt"
      case Pp => "pp"
      case Mfas => "mfas"
      case Fas => "fas"
      case Pk => "pk"
      case Evaluable => "evaluable"
    }
  }

  /** The TLF patterns of `_extract_flexible_header`, in order. */
  datatype HeaderPattern = Standard | WithTitle | Abbreviated

  /** A header TLF match: the type its first group names (a word or `t`, `l`,
    * `f`), the number, and the third group where the pattern has one. */
  datatype HeaderMatch = HeaderMatch(tlfType: TlfType, number: string, rest: Option<string>)

  /** The page-boundary patterns of `_detect_page_boundary_and_headers`. */
  datatype BoundaryPattern = PageNumbers | ProtocolCode | Company | DocumentKind | Confidentiality | Cutoff

  const BoundaryPatterns: seq<BoundaryPattern> := [PageNumbers, ProtocolCode, Company, DocumentKind, Confidentiality, Cutoff]

  datatype Matchers = Matchers(
    /** the explicit strict TOC patterns on the stripped lower-case text */
    tocIndicator: (StrictIndicator, string) -> bool,
    /** `mean (sd)`, `n (%)` or `n (x.x%)` */
    tocClinical: string -> bool,
    /** `page \d+ of \d+` with single spaces */
    pageOfSingleSpaced: string -> bool,
    /** a TOC entry ending in a run of dots, on a lower-case line */
    tocEntryDotted: string -> bool,
    /** a line opening with `table|figure|listing` and a number */
    tocEntryStart: string -> bool,
    /** the best hit of any pattern of a TLF type */
    typeHit: (TlfType, string) -> HitKind,
    /** the tabular-content patterns of `_detect_tlf_patterns` */
    tabular: string -> bool,
    /** group 1 of `(?:table|listing|figure)\s+(\d+(?:\.\d+){1,4})...` */
    longFormNumber: string -> Option<string>,
    /** group 1 of `(?:t|l|f)-(\d+(?:\.\d+){1,4})...` */
    shortFormNumber: string -> Option<string>,
    /** group 1 of `^(\d+(?:\.\d+){1,4})(?:\s|$)` */
    standaloneNumber: string -> Option<string>,
    /** the number-lead, parenthesised-population and date skips of `_extract_title` */
    titleSkip: string -> bool,
    /** `\b{pattern}\b` for any pattern of a population key */
    populationHit: (PopulationKey, string) -> bool,
    /** the groups `_extract_treatment_groups` collects */
    treatmentGroups: string -> seq<string>,
    /** `(?:table|listing|figure)\s+\d+` */
    tlfReference: string -> bool,
    /** `page\s+\d+\s+of\s+\d+` */
    pageOf: string -> bool,
    /** the three signals of `_is_likely_data` */
    hasNumber: string -> bool,
    hasPercent: string -> bool,
    hasStatistic: string -> bool,
    /** an explicit footnote opening */
    footnoteStart: string -> bool,
    /** `len(re.findall(...))` of a strict-pass keyword pattern */
    strictCount: (string, string) -> nat,
    /** `len(re.findall(...))` of a loose-pass regex keyword, `\b` removed */
    looseCount: (string, string) -> nat,
    /** a page-boundary pattern on a normalised lower-case line */
    boundary: (BoundaryPattern, string) -> bool,
    /** group 1 of `protocol\s+([a-zA-Z0-9\-_]{3,20})` */
    protocolId: string -> Option<string>,
    /** a TLF pattern of the flexible header */
    headerTlf: (HeaderPattern, string) -> Option<HeaderMatch>,
    /** group 1 of the first population pattern of the flexible header */
    populationText: string -> Option<string>,
    /** `\d+\s*\(\s*\d+` */
    countPercent: string -> bool,
    /** how many of the statistical patterns of `_should_inherit_context` hit */
    statisticalHits: string -> nat,
    /** `len(re.findall(r'\b\d+(?:\.\d+)?\b', ...))` */
    numberCount: string -> nat,
    /** `len(re.findall(r'\(\s*\d+(?:\.\d+)?%?\s*\)', ...))` */
    percentGroups: string -> nat)

  // ---- shared helpers ----

  /** How many of `needles` occur in `s`. */
  function CountContained(s: string, needles: seq<string>): (n: nat)
    ensures n <= |needles|
  {
    if |needles| == 0 then 0
    else CountContained(s, needles[..|needles| - 1]) + (if Contains(s, needles[|needles| - 1]) then 1 else 0)
  }

  lemma {:induction false} CountContainedPositive(s: string, needles: seq<string>)
    ensures CountContained(s, needles) > 0 <==> exists w :: w in needles && Contains(s, w)
  {
    if |needles| > 0 {
      var pre := needles[..|needles| - 1];
      var last := needles[|needles| - 1];
      CountContainedPositive(s, pre);
      assert forall w :: w in needles <==> w in pre || w == last;
      if Contains(s, last) {
        assert last in needles;
      }
    }
  }

  /** `[line.strip() for line in text.split('\n') if line.strip()]` */
  function CleanLines(lines: seq<string>): (r: seq<string>)
    ensures |r| <= |lines|
    ensures AllStripped(r)
  {
    if |lines| == 0 then []
    else
      var rest := CleanLines(lines[..|lines| - 1]);
      var l := Strip(lines[|lines| - 1]);
      StripIdempotent(lines[|lines| - 1]);
      if l != "" then
        AllStrippedAppend(rest, l);
        rest + [l]
      else rest
  }

  predicate AllStripped(ls: seq<string>) {
    forall l :: l in ls ==> l != "" && l == Strip(l)
  }

  lemma AllStrippedAppend(ls: seq<string>, l: string)
    requires AllStripped(ls) && l != "" && l == Strip(l)
    ensures AllStripped(ls + [l])
  {
    assert forall x :: x in ls + [l] ==> x in ls || x == l;
  }

  lemma StripIdempotent(s: string)
    ensures Strip(Strip(s)) == Strip(s)
  {
    var r := Strip(s);
    if |r| > 0 {
      assert TrimRight(r, IsSpace) == r;
      assert TrimLeft(r, IsSpace) == r;
    } else {
      assert Strip(r) == [];
    }
  }

  // ---- _is_table_of_contents_strict ----

  /** A word boundary (`\b`) at position `p`. */
  predicate WordBoundary(s: string, p: nat)
    requires p <= |s|
  {
    (p > 0 && IsWordChar(s[p - 1])) != (p < |s| && IsWordChar(s[p]))
  }

  /** What any match of `\bindex\s+of\s+figures\b\btoc\b` needs: a position
    * where `figures` ends, a word boundary there, and `toc` right after. */
  predicate GluedPatternMatch(s: string) {
    exists p :: 0 < p && p + 3 <= |s| && s[p - 1] == 's' && WordBoundary(s, p) && s[p..p + 3] == "toc"
  }

  /** The glued pattern matches no text: between the `s` of `figures` and the
    * `t` of `toc` there is never a word boundary. */
  lemma GluedPatternNeverMatches(s: string)
    ensures !GluedPatternMatch(s)
  {
    forall p | 0 < p && p + 3 <= |s| && s[p - 1] == 's' && s[p..p + 3] == "toc"
      ensures !WordBoundary(s, p)
    {
      assert s[p] == "toc"[0];
    }
  }

  predicate StrictHit(m: Matchers, ind: StrictIndicator, textLower: string) {
    if ind == IndexOfFiguresThenToc then GluedPatternMatch(textLower) else m.tocIndicator(ind, textLower)
  }

  const StrictIndicators: seq<StrictIndicator> :=
    [TableOfContents, ListOfTables, ListOfFigures, ListOfListings, IndexOfTables, IndexOfFiguresThenToc]

  /** `_is_table_of_contents_strict`. The TOC-entry count the source
    * computes afterwards is never used. */
  predicate IsTocStrict(m: Matchers, text: string) {
    var textLower := Strip(Lower(text));
    (exists ind :: ind in StrictIndicators && StrictHit(m, ind, textLower)) && !m.tocClinical(textLower)
  }

  /** A text is a strict TOC exactly when one of the five working patterns
    * hits and none of the clinical ones does: neither "index of figures"
    * nor "toc" alone qualifies. */
  lemma TocStrictIff(m: Matchers, text: string)
    ensures var textLower := Strip(Lower(text));
      IsTocStrict(m, text) <==>
        (exists ind :: ind in StrictIndicators[..5] && m.tocIndicator(ind, textLower)) && !m.tocClinical(textLower)
  {
    StrictHitsIff(m, Strip(Lower(text)));
  }

  lemma StrictHitsIff(m: Matchers, textLower: string)
    ensures (exists ind :: ind in StrictIndicators && StrictHit(m, ind, textLower))
      <==> (exists ind :: ind in StrictIndicators[..5] && m.tocIndicator(ind, textLower))
  {
    GluedPatternNeverMatches(textLower);
    var five := StrictIndicators[..5];
    assert five == [TableOfContents, ListOfTables, ListOfFigures, ListOfListings, IndexOfTables];
    if exists ind :: ind in StrictIndicators && StrictHit(m, ind, textLower) {
      var ind :| ind in StrictIndicators && StrictHit(m, ind, textLower);
      assert ind != IndexOfFiguresThenToc;
      assert ind in five;
    }
    if exists ind :: ind in five && m.tocIndicator(ind, textLower) {
      var ind :| ind in five && m.tocIndicator(ind, textLower);
      assert ind in StrictIndicators && StrictHit(m, ind, textLower);
    }
  }

  // ---- _is_table_of_contents ----

  /** The direct indicators; the second is the non-raw "\btoc\b", whose
    * `\b` are backspace characters. */
  const TocPhrases: seq<string> :=
    ["table of contents", "\U{8}toc\U{8}", "list of tables", "list of figures",
     "list of listings", "index of tables", "index of figures"]

  const TableContentMarkers: seq<string> :=
    ["jazz pharmaceuticals", "protocol jzp", "final clinical study report", "confidential"]

  /** An indicator in the text and on a short line among the first three. */
  predicate ShortIndicatorLine(textLower: string) {
    var lines := Split(textLower, '\n');
    var first := if |lines| <= 3 then lines else lines[..3];
    exists ind, line :: ind in TocPhrases && line in first &&
      Contains(textLower, ind) && Contains(line, ind) && |Strip(line)| < 50
  }

  predicate HasTableContent(m: Matchers, textLower: string) {
    CountContained(textLower, TableContentMarkers) > 0 || m.pageOfSingleSpaced(textLower)
  }

  /** Counts of TOC-entry lines and of plain content lines. */
  datatype TocCounts = TocCounts(entries: nat, content: nat)

  function CountTocLines(m: Matchers, lines: seq<string>): (c: TocCounts)
    ensures c.entries + c.content <= |lines|
  {
    if |lines| == 0 then TocCounts(0, 0)
    else
      var c := CountTocLines(m, lines[..|lines| - 1]);
      var line := lines[|lines| - 1];
      var lineLower := Lower(line);
      if m.tocEntryDotted(lineLower) then TocCounts(c.entries + 1, c.content)
      else if m.tocEntryStart(lineLower) && Contains(line, "...") then TocCounts(c.entries + 1, c.content)
      else if |Words(line)| > 5 && !(|line| > 0 && IsDigit(line[0])) then TocCounts(c.entries, c.content + 1)
      else c
  }

  /** The structural criteria: five lines or more, three entries or more,
    * entries over 60% and content under 20% of the lines. */
  predicate TocShaped(n: nat, c: TocCounts) {
    n >= 5 && c.entries >= 3
    && (c.entries as real) / (n as real) > 0.6
    && (c.content as real) / (n as real) < 0.2
  }

  /** `_is_table_of_contents` */
  predicate IsTableOfContents(m: Matchers, text: string) {
    var textLower := Strip(Lower(text));
    if ShortIndicatorLine(textLower) then true
    else if HasTableContent(m, textLower) then false
    else
      var lines := CleanLines(Split(text, '\n'));
      if |lines| < 3 then false
      else TocShaped(|lines|, CountTocLines(m, lines))
  }

  /** The structural test in whole numbers: entries make more than three
    * fifths of the lines and content less than one fifth. */
  lemma TocShapedCounts(n: nat, c: TocCounts)
    requires TocShaped(n, c)
    ensures n >= 5 && c.entries >= 3
    ensures 5 * c.entries > 3 * n && 5 * c.content < n
  {
    var r := n as real;
    var e := (c.entries as real) / r;
    var k := (c.content as real) / r;
    assert e * r == c.entries as real;
    assert k * r == c.content as real;
    MulMonotone(0.6, e, r);
    MulMonotone(k, 0.2, r);
    assert 0.6 * r < c.entries as real;
    assert (3 * n) as real < (5 * c.entries) as real;
    assert c.content as real < 0.2 * r;
    assert (5 * c.content) as real < n as real;
  }

  lemma MulMonotone(a: real, b: real, r: real)
    requires a < b && r > 0.0
    ensures a * r < b * r
  {
  }

  /** Without a short indicator line, a TOC has no table-content marker and
    * at least five non-empty lines, over three fifths of them entries and
    * under one fifth plain content. */
  lemma TocByStructure(m: Matchers, text: string)
    requires IsTableOfContents(m, text) && !ShortIndicatorLine(Strip(Lower(text)))
    ensures var lines := CleanLines(Split(text, '\n'));
      var c := CountTocLines(m, lines);
      !HasTableContent(m, Strip(Lower(text))) && |lines| >= 5 && c.entries >= 3
      && 5 * c.entries > 3 * |lines| && 5 * c.content < |lines|
  {
    var lines := CleanLines(Split(text, '\n'));
    TocShapedCounts(|lines|, CountTocLines(m, lines));
  }

  lemma NoIndicatorInEmpty()
    ensures !ShortIndicatorLine("")
  {
    assert Split("", '\n') == [""];
    forall ind | ind in TocPhrases ensures !Contains("", ind) {
      assert |ind| > 0;
    }
  }

  /** The empty text is never a TOC, whatever the regular expressions say. */
  lemma EmptyTextIsNotToc(m: Matchers)
    ensures !IsTableOfContents(m, "")
  {
    assert Lower("") == "";
    assert Strip("") == "";
    NoIndicatorInEmpty();
    assert Split("", '\n') == [""];
    assert CleanLines([""]) == [];
  }

  // ---- _analyze_structure ----

  const HeaderIndicators: seq<string> :=
    ["protocol", "sponsor", "table", "listing", "figure", "page", "of", "date", "population", "confidential"]

  /** `_is_likely_header` */
  predicate IsLikelyHeader(m: Matchers, text: string) {
    var textLower := Lower(text);
    (|Words(text)| < 50 && CountContained(textLower, HeaderIndicators) >= 2)
    || m.tlfReference(textLower)
    || m.pageOf(textLower)
  }

  /** `_is_likely_data`: two of the three signals. */
  predicate IsLikelyData(m: Matchers, text: string) {
    (if m.hasNumber(text) then 1 else 0) + (if m.hasPercent(text) then 1 else 0)
    + (if m.hasStatistic(text) then 1 else 0) >= 2
  }

  const FootnoteKeywords: seq<string> :=
    ["abbreviation", "definition", "note", "source", "produced", "program", "cutoff", "ci =", "n ="]

  /** Lines between 11 and 79 characters long holding an `=`. */
  function DefinitionLines(lines: seq<string>): (n: nat)
    ensures n <= |lines|
  {
    if |lines| == 0 then 0
    else
      var line := lines[|lines| - 1];
      DefinitionLines(lines[..|lines| - 1]) + (if 10 < |line| < 80 && '=' in line then 1 else 0)
  }

  /** `_is_likely_footnote` */
  predicate IsLikelyFootnote(m: Matchers, text: string) {
    var textLower := Strip(Lower(text));
    if |textLower| < 5 then false
    else if m.footnoteStart(textLower) then true
    else
      var lines := Split(Strip(text), '\n');
      if |lines| > 1 && DefinitionLines(lines) >= 2 then true
      else CountContained(textLower, FootnoteKeywords) >= 1 && !IsLikelyData(m, text)
  }

  datatype ContentType = HeaderContent | DataContent | FootnoteContent | PlainContent | TocContent
  {
    function Name(): string {
      match this
      case HeaderContent => "header"
      case DataContent => "data"
      case FootnoteContent => "footnote"
      case PlainContent => "content"
      case TocContent => "table_of_contents"
    }
  }

  datatype Structure = Structure(isHeader: bool, isData: bool, isFootnote: bool)

  function AnalyzeStructure(m: Matchers, text: string): Structure {
    Structure(IsLikelyHeader(m, text), IsLikelyData(m, text), IsLikelyFootnote(m, text))
  }

  /** A text of fifty words or more is a header only through a TLF reference
    * or a page number; a text under five characters is never a footnote; a
    * footnote that also reads as data was told by its opening or by its
    * definition lines, never by its keywords alone. */
  lemma StructureFacts(m: Matchers, text: string)
    ensures var s := AnalyzeStructure(m, text);
      var textLower := Strip(Lower(text));
      && (s.isHeader && |Words(text)| >= 50 ==> m.tlfReference(Lower(text)) || m.pageOf(Lower(text)))
      && (|textLower| < 5 ==> !s.isFootnote)
      && (s.isFootnote && s.isData ==>
            m.footnoteStart(textLower) || DefinitionLines(Split(Strip(text), '\n')) >= 2)
  {
  }

  /** `_calculate_structure_confidence` */
  function StructureConfidence(s: Structure): real {
    if s.isHeader then 0.9
    else if s.isData then 0.8
    else if s.isFootnote then 0.7
    else 0.3
  }

  /** `_determine_content_type` */
  function ContentTypeOf(s: Structure): ContentType {
    if s.isHeader then HeaderContent
    else if s.isData then DataContent
    else if s.isFootnote then FootnoteContent
    else PlainContent
  }

  /** Structure confidence and content type read the same flags in the same
    * order: each content type has its own confidence, and only plain content
    * falls below 0.7. */
  lemma StructureConfidenceByContentType(s: Structure)
    ensures ContentTypeOf(s) == HeaderContent <==> StructureConfidence(s) == 0.9
    ensures ContentTypeOf(s) == DataContent <==> StructureConfidence(s) == 0.8
    ensures ContentTypeOf(s) == FootnoteContent <==> StructureConfidence(s) == 0.7
    ensures ContentTypeOf(s) == PlainContent <==> StructureConfidence(s) < 0.7
    ensures 0.3 <= StructureConfidence(s) <= 0.9
  {
  }
}
