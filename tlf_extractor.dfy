// backend/app/extractors/tlf_exractor.py: the per-chunk decision of the TLF
// extractor (merging the header, pattern, structure and domain signals,
// inheriting the current output or opening a new one) and the document
// context it carries from one chunk to the next.

module TlfExtractor {
  import opened Common
  import opened Strings
  import MapSum
  import opened TlfSignals
  import opened TlfPatterns
  import opened TlfDomains
  import opened TlfHeader
  import TlfLlm

  /** What the extractor is built with: the regular expressions, the literal
    * header and domain tables, `confidence_threshold`, and whether the
    * domain passes use the corrected keyword test (`false` is the program as
    * written; every fact about `Config` holds for both). */
  datatype Config = Config(m: Matchers, tables: HeaderTables, domains: seq<DomainKeywords>, threshold: real,
                           correctedKeywordTest: bool)

  /** The default `confidence_threshold`. */
  const DefaultThreshold: real := 0.7

  /** `_current_tlf`: the output the chunks are currently attributed to. */
  datatype TlfContext = TlfContext(
    tlfType: Option<string>,
    outputNumber: Option<string>,
    title: Option<string>,
    population: Option<string>,
    clinicalDomain: Option<string>,
    treatmentGroups: seq<string>,
    nodeIndex: nat)

  /** One element of `_tlf_history`: the context opened, its confidence and
    * the chunk that opened it. */
  datatype HistoryEntry = HistoryEntry(context: TlfContext, confidence: real, position: nat)

  /** `inheritance_decision` */
  datatype Decision = Inherited | NewContext | NewContextSet | TocSpecialCase
  {
    function Name(): string {
      match this
      case Inherited => "inherited"
      case NewContext => "new_context"
      case NewContextSet => "new_context_set"
      case TocSpecialCase => "toc_special_case"
    }
  }

  /** The metadata dictionary produced for one chunk. */
  datatype Record = Record(
    tlfType: Option<string>,
    outputNumber: Option<string>,
    title: Option<string>,
    population: Option<string>,
    treatmentGroups: seq<string>,
    clinicalDomain: Option<string>,
    domainConfidence: real,
    matchedKeywords: seq<string>,
    allDomains: seq<DomainScore>,
    contentType: ContentType,
    isHeader: bool,
    isData: bool,
    isFootnote: bool,
    detectionMethod: string,
    patternConfidence: real,
    structureConfidence: real,
    overallConfidence: real,
    llmConfidence: Option<real>,
    nodePosition: nat,
    currentContext: Option<TlfContext>,
    transitions: nat,
    decision: Option<Decision>)

  /** `_current_tlf`, `_tlf_confidence` and `_tlf_history` as one value. */
  datatype State = State(ctx: Option<TlfContext>, confidence: real, history: seq<HistoryEntry>)

  /** The state after construction and after `reset_context`. */
  const Initial: State := State(None, 0.0, [])

  function Last(h: seq<HistoryEntry>): HistoryEntry
    requires |h| > 0
  {
    h[|h| - 1]
  }

  /** The current context is the one the last history entry opened, with its
    * confidence, and there is one exactly when the history is not empty. */
  predicate Consistent(st: State) {
    && (st.ctx.Some? <==> |st.history| > 0)
    && (|st.history| > 0 ==> st.ctx == Some(Last(st.history).context) && st.confidence == Last(st.history).confidence)
  }

  // ---- extract, step 5: the header analysis over the pattern result ----

  /** The pattern result, merged with the best header when that header is
    * confident, or given the header's title when the patterns found none. */
  function Enhanced(p: PatternResult, best: Option<HeaderInfo>): PatternResult {
    if best.Some? && best.value.confidence > 0.6 then
      var h := best.value;
      PatternResult(
        Or(TypeName(h.tlfType), p.tlfType), Or(h.outputNumber, p.outputNumber),
        Or(h.title, p.title), Or(h.population, p.population),
        p.treatmentGroups, MaxReal(h.confidence, p.confidence), "flexible_header_analysis")
    else if !Truthy(p.title) && best.Some? && Truthy(best.value.title) then
      p.(title := best.value.title, detectionMethod := "pattern_with_flexible_title",
         confidence := MinReal(p.confidence + 0.2, 1.0))
    else p
  }

  // ---- _calculate_overall_confidence ----

  /** Half the pattern confidence, three tenths of the structure's and a fifth
    * of the domain's, blended 70/30 with a confident LLM, capped at 1. */
  function OverallConfidence(pc: real, sc: real, dc: real, llm: Option<TlfLlm.LlmResult>): real {
    var base := pc * 0.5 + sc * 0.3 + dc * 0.2;
    var blended := if llm.Some? && llm.value.Confidence() > 0.7 then base * 0.7 + llm.value.Confidence() * 0.3 else base;
    MinReal(blended, 1.0)
  }

  // ---- _combine_tlf_results ----

  /** The metadata read off the pattern, structure and domain results. */
  function Preliminary(p: PatternResult, s: Structure, d: DomainResult, i: nat, st: State): Record {
    Record(
      p.tlfType, p.outputNumber, p.title, p.population, p.treatmentGroups,
      d.primary, d.confidence, d.keywords, d.all,
      ContentTypeOf(s), s.isHeader, s.isData, s.isFootnote,
      p.detectionMethod, p.confidence, StructureConfidence(s), 0.0, None,
      i, st.ctx, |st.history|, None)
  }

  /** The override by an LLM result more confident than 0.7: each of its
    * truthy fields replaces the pattern's, except the title, which it fills
    * in, or replaces when it is more confident than 0.9. */
  function WithLlm(r: Record, llm: TlfLlm.LlmResult): Record {
    if llm.Confidence() > 0.7 then
      r.(tlfType := Or(llm.tlfType, r.tlfType),
         outputNumber := Or(llm.outputNumber, r.outputNumber),
         clinicalDomain := Or(llm.clinicalDomain, r.clinicalDomain),
         population := Or(llm.population, r.population),
         treatmentGroups :=
           if llm.treatmentGroups.Some? && |llm.treatmentGroups.value| > 0 then llm.treatmentGroups.value
           else r.treatmentGroups,
         title := if Truthy(llm.title) && (!Truthy(r.title) || llm.Confidence() > 0.9) then llm.title else r.title,
         detectionMethod := "pattern+llm",
         llmConfidence := Some(llm.Confidence()))
    else r
  }

  /** Below the threshold, a chunk that is not a header fills its missing
    * type, number, population, title and domain from the current context. */
  function PartialInheritance(r: Record, st: State, threshold: real): Record {
    if r.overallConfidence < threshold && st.ctx.Some? && !r.isHeader then
      var c := st.ctx.value;
      r.(tlfType := Or(r.tlfType, c.tlfType),
         outputNumber := Or(r.outputNumber, c.outputNumber),
         population := Or(r.population, c.population),
         title := Or(r.title, c.title),
         clinicalDomain := Or(r.clinicalDomain, c.clinicalDomain),
         detectionMethod := r.detectionMethod + "_inherited")
    else r
  }

  /** `_combine_tlf_results` */
  function CombineResults(cfg: Config, p: PatternResult, s: Structure, d: DomainResult,
                          llm: Option<TlfLlm.LlmResult>, i: nat, st: State): Record {
    var base := Preliminary(p, s, d, i, st);
    var merged := if llm.Some? then WithLlm(base, llm.value) else base;
    var scored := merged.(overallConfidence := OverallConfidence(p.confidence, StructureConfidence(s), d.confidence, llm));
    PartialInheritance(scored, st, cfg.threshold)
  }

  // ---- _should_inherit_context ----

  /** The text indicators of continued tabular content. */
  const StrongContinuation: seq<string> :=
    ["mean (sd)", "median", "min, max", "95% ci", "std dev", "analysis set", "n (%)", "continued", "footnote"]

  /** The continuation score of a chunk. */
  function Continuation(m: Matchers, text: string): nat {
    CountContained(Lower(text), StrongContinuation) + m.statisticalHits(text)
    + (if m.numberCount(text) > 10 then 1 else 0)
    + (if m.percentGroups(text) > 2 then 1 else 0)
  }

  /** `_should_inherit_context`, given the chunk's continuation score. */
  predicate ShouldInherit(r: Record, ctx: Option<TlfContext>, continuation: nat) {
    if Truthy(r.tlfType) && Truthy(r.outputNumber) && r.overallConfidence > 0.8 then false
    else if r.clinicalDomain == Some("table_of_contents") then false
    else if ctx.None? then false
    else if r.contentType == DataContent || r.contentType == FootnoteContent then true
    else if continuation >= 2 then true
    else r.overallConfidence < 0.5 && !(Truthy(r.tlfType) || Truthy(r.outputNumber) || r.isHeader)
  }

  // ---- _create_inherited_metadata ----

  /** The chunk attributed to the current output: the context's title wins,
    * its type, number, population and domain fill the chunk's gaps, and the
    * confidence is raised by 0.2 (0.5 when the chunk alone has a title) but
    * capped at 0.9. */
  function InheritedRecord(r: Record, c: TlfContext): Record {
    var title := if Truthy(c.title) then c.title else r.title;
    var base := r.overallConfidence + (if Truthy(title) && !Truthy(c.title) then 0.3 else 0.0);
    r.(tlfType := Or(r.tlfType, c.tlfType),
       outputNumber := Or(r.outputNumber, c.outputNumber),
       population := Or(r.population, c.population),
       title := title,
       clinicalDomain := Or(r.clinicalDomain, c.clinicalDomain),
       detectionMethod := r.detectionMethod + "_inherited",
       overallConfidence := MinReal(base + 0.2, 0.9))
  }

  // ---- _detect_tlf_transition ----

  /** The distinct whitespace-separated words of `s`. */
  function WordSet(s: string): set<string> {
    set w | w in Words(s)
  }

  /** Word overlap under 40% of the longer title's word count.  With no words
    * at all the source divides by zero; here the titles are then not told
    * apart. */
  predicate TitlesDiffer(a: string, b: string) {
    var n := if |Words(a)| >= |Words(b)| then |Words(a)| else |Words(b)|;
    n > 0 && (|WordSet(a) * WordSet(b)| as real) / (n as real) < 0.4
  }

  /** `_detect_tlf_transition` */
  predicate Transition(r: Record, prev: Option<TlfContext>) {
    if prev.None? then true
    else
      var p := prev.value;
      var ct := Lower(r.title.GetOr(""));
      var pt := Lower(p.title.GetOr(""));
      if Truthy(r.outputNumber) && Truthy(p.outputNumber) && r.outputNumber != p.outputNumber then true
      else if ct != "" && pt != "" && ct != pt && |ct| > 10 && |pt| > 10 && TitlesDiffer(ct, pt) then true
      else Truthy(r.tlfType) && Truthy(p.tlfType) && r.tlfType != p.tlfType
  }

  // ---- _update_tlf_context ----

  /** The context a record opens at chunk `i`. */
  function ContextOf(r: Record, i: nat): TlfContext {
    TlfContext(r.tlfType, r.outputNumber, r.title, r.population, r.clinicalDomain, r.treatmentGroups, i)
  }

  /** How many of type, number and title the record has. */
  function RequiredFields(r: Record): nat {
    (if Truthy(r.tlfType) then 1 else 0) + (if Truthy(r.outputNumber) then 1 else 0) + (if Truthy(r.title) then 1 else 0)
  }

  /** A header with type, number and confidence over 0.6, or other content
    * that is no footnote and meets the threshold, and in either case a
    * transition from the current context. */
  predicate WantsUpdate(threshold: real, st: State, r: Record) {
    if r.isHeader then
      Truthy(r.outputNumber) && Truthy(r.tlfType) && r.overallConfidence > 0.6 && Transition(r, st.ctx)
    else r.overallConfidence >= threshold && !r.isFootnote && Transition(r, st.ctx)
  }

  /** The update proper: a wanted update with two of type, number and title,
    * or a confidence over 0.8, opens the record's context and logs it. */
  function Commit(threshold: real, st: State, r: Record, i: nat): State {
    if WantsUpdate(threshold, st, r) && (RequiredFields(r) >= 2 || r.overallConfidence > 0.8) then
      var c := ContextOf(r, i);
      State(Some(c), r.overallConfidence, st.history + [HistoryEntry(c, r.overallConfidence, i)])
    else st
  }

  /** `_update_tlf_context`.  Its TOC guard reads a "text" entry the
    * metadata never has, so it tests the empty text, which is never a table
    * of contents (`TlfSignals.EmptyTextIsNotToc`): the guard is left out. */
  function UpdateContext(cfg: Config, st: State, r: Record, i: nat): State {
    Commit(cfg.threshold, st, r, i)
  }

  // ---- _create_toc_metadata ----

  /** The record of a chunk the strict test calls a table of contents. */
  function TocRecord(st: State, i: nat): Record {
    Record(
      None, None, Some("Table of Contents"), None, [],
      TocDomainResult.primary, TocDomainResult.confidence, TocDomainResult.keywords, TocDomainResult.all,
      TocContent, true, false, false,
      "strict_toc_detection", 0.95, 0.95, 0.95, None,
      i, st.ctx, |st.history|, Some(TocSpecialCase))
  }

  // ---- extract ----

  /** What the extractor reads off one chunk's text. */
  datatype ChunkSignals = ChunkSignals(
    toc: bool,
    page: PageInfo,
    pattern: PatternResult,
    structure: Structure,
    domain: DomainResult,
    continuation: nat)

  function SignalsOf(cfg: Config, text: string): ChunkSignals {
    ChunkSignals(
      IsTocStrict(cfg.m, text),
      PageAnalysis(cfg.m, cfg.tables, text),
      DetectPatterns(cfg.m, text),
      AnalyzeStructure(cfg.m, text),
      ClassifyDomains(cfg.m, cfg.domains, text, cfg.correctedKeywordTest),
      Continuation(cfg.m, text))
  }

  /** A confident header with a type and a number opens its context before
    * the inheritance decision. */
  predicate EarlyCommit(best: Option<HeaderInfo>, e: PatternResult) {
    best.Some? && best.value.confidence > 0.8 && Truthy(e.tlfType) && Truthy(e.outputNumber)
  }

  function BestOf(sig: ChunkSignals): Option<HeaderInfo> {
    BestHeader(sig.page.headers)
  }

  function EnhancedOf(sig: ChunkSignals): PatternResult {
    Enhanced(sig.pattern, BestOf(sig))
  }

  /** The combined record before the inheritance decision. */
  function PreliminaryOf(cfg: Config, st: State, sig: ChunkSignals, i: nat): Record {
    CombineResults(cfg, EnhancedOf(sig), sig.structure, sig.domain, None, i, st)
  }

  /** Steps 8 and 9: inherit the context, or keep the record and open its
    * context when it has a type, a number and a confidence over 0.6. */
  function Decide(cfg: Config, st: State, pre: Record, early: bool, continuation: nat, i: nat): (Record, State) {
    if ShouldInherit(pre, st.ctx, continuation) && st.ctx.Some? then
      (InheritedRecord(pre, st.ctx.value).(decision := Some(Inherited), currentContext := st.ctx), st)
    else
      var r := pre.(decision := Some(if early then NewContextSet else NewContext));
      var st' := if !early && Truthy(r.tlfType) && Truthy(r.outputNumber) && r.overallConfidence > 0.6
        then UpdateContext(cfg, st, r, i) else st;
      (r.(currentContext := st'.ctx), st')
  }

  /** One pass of the loop of `extract`: the record of chunk `i` and the
    * state after it. */
  function Step(cfg: Config, st: State, sig: ChunkSignals, i: nat): (Record, State) {
    if sig.toc then (TocRecord(st, i), st)
    else
      var pre := PreliminaryOf(cfg, st, sig, i);
      var early := EarlyCommit(BestOf(sig), EnhancedOf(sig));
      var st1 := if early then UpdateContext(cfg, st, pre, i) else st;
      Decide(cfg, st1, pre, early, sig.continuation, i)
  }

  /** Steps 1 to 3 of `extract` for every chunk of a document.  Reading a
    * chunk's signals does not depend on the context, so they are read for
    * all chunks before the decisions are taken. */
  function AllSignals(cfg: Config, texts: seq<string>): (sigs: seq<ChunkSignals>)
    ensures |sigs| == |texts|
  {
    seq(|texts|, k requires 0 <= k < |texts| => SignalsOf(cfg, texts[k]))
  }

  /** `extract` over the signals of a document's first `n` chunks, in
    * order. */
  function Run(cfg: Config, st: State, sigs: seq<ChunkSignals>, n: nat): (seq<Record>, State)
    requires n <= |sigs|
  {
    if n == 0 then ([], st)
    else
      var prev := Run(cfg, st, sigs, n - 1);
      var next := Step(cfg, prev.1, sigs[n - 1], n - 1);
      (prev.0 + [next.0], next.1)
  }

  // ---- get_tlf_summary ----

  datatype OutputSummary = OutputSummary(
    tlfType: Option<string>,
    number: Option<string>,
    title: Option<string>,
    domain: Option<string>,
    population: Option<string>,
    confidence: real,
    position: nat)

  datatype Summary = Summary(
    total: nat,
    types: map<string, nat>,
    domains: map<string, nat>,
    outputs: seq<OutputSummary>,
    current: Option<TlfContext>)

  function OutputOf(e: HistoryEntry): OutputSummary {
    OutputSummary(e.context.tlfType, e.context.outputNumber, e.context.title,
      e.context.clinicalDomain, e.context.population, e.confidence, e.position)
  }

  /** History entries with a truthy type. */
  function Typed(h: seq<HistoryEntry>): nat {
    if |h| == 0 then 0
    else Typed(h[..|h| - 1]) + (if Truthy(Last(h).context.tlfType) then 1 else 0)
  }

  /** History entries of type `t`. */
  function TypeCount(h: seq<HistoryEntry>, t: string): nat {
    if |h| == 0 then 0
    else
      var c := Last(h).context;
      TypeCount(h[..|h| - 1], t) + (if Truthy(c.tlfType) && c.tlfType.value == t then 1 else 0)
  }

  /** History entries of domain `d`. */
  function DomainCount(h: seq<HistoryEntry>, d: string): nat {
    if |h| == 0 then 0
    else
      var c := Last(h).context;
      DomainCount(h[..|h| - 1], d) + (if Truthy(c.clinicalDomain) && c.clinicalDomain.value == d then 1 else 0)
  }

  function Count(n: nat): nat { n }

  /** The type distribution holds exactly the non-zero per-type counts. */
  ghost predicate TypesCounted(types: map<string, nat>, h: seq<HistoryEntry>) {
    && (forall t :: t in types <==> TypeCount(h, t) > 0)
    && (forall t :: t in types ==> types[t] == TypeCount(h, t))
  }

  /** The domain distribution holds exactly the non-zero per-domain counts. */
  ghost predicate DomainsCounted(domains: map<string, nat>, h: seq<HistoryEntry>) {
    && (forall d :: d in domains <==> DomainCount(h, d) > 0)
    && (forall d :: d in domains ==> domains[d] == DomainCount(h, d))
  }

  /** The tallies after the entries seen so far. */
  ghost predicate Tallied(types: map<string, nat>, domains: map<string, nat>, seen: seq<HistoryEntry>) {
    && Typed(seen) == MapSum.Sum(types, Count)
    && TypesCounted(types, seen)
    && DomainsCounted(domains, seen)
  }

  lemma TypesStep(types: map<string, nat>, h: seq<HistoryEntry>, e: HistoryEntry, types': map<string, nat>)
    requires TypesCounted(types, h)
    requires Truthy(e.context.tlfType) ==>
      var t := e.context.tlfType.value;
      types' == types[t := (if t in types then types[t] else 0) + 1]
    requires !Truthy(e.context.tlfType) ==> types' == types
    ensures TypesCounted(types', h + [e])
    ensures Typed(h + [e]) == Typed(h) + (if Truthy(e.context.tlfType) then 1 else 0)
  {
    assert (h + [e])[..|h|] == h;
  }

  lemma DomainsStep(domains: map<string, nat>, h: seq<HistoryEntry>, e: HistoryEntry, domains': map<string, nat>)
    requires DomainsCounted(domains, h)
    requires Truthy(e.context.clinicalDomain) ==>
      var d := e.context.clinicalDomain.value;
      domains' == domains[d := (if d in domains then domains[d] else 0) + 1]
    requires !Truthy(e.context.clinicalDomain) ==> domains' == domains
    ensures DomainsCounted(domains', h + [e])
  {
    assert (h + [e])[..|h|] == h;
  }

  /** One pass of the summary loop: a truthy type and a truthy domain each
    * add one to their count. */
  method TallyEntry(ghost seen: seq<HistoryEntry>, e: HistoryEntry, types: map<string, nat>, domains: map<string, nat>)
    returns (types': map<string, nat>, domains': map<string, nat>)
    requires Tallied(types, domains, seen)
    ensures Tallied(types', domains', seen + [e])
  {
    types' := types;
    var c := e.context;
    if c.tlfType.Some? && c.tlfType.value != "" {
      var t := c.tlfType.value;
      var n := if t in types then types[t] else 0;
      MapSum.SumUpdate(types, Count, t, n + 1);
      types' := types[t := n + 1];
    }
    domains' := domains;
    if c.clinicalDomain.Some? && c.clinicalDomain.value != "" {
      var d := c.clinicalDomain.value;
      domains' := domains[d := (if d in domains then domains[d] else 0) + 1];
    }
    TypesStep(types, seen, e, types');
    DomainsStep(domains, seen, e, domains');
  }

  /** Only entries with a type are counted by type, so the type counts add
    * up to at most the number of outputs. */
  lemma {:induction false} TypedAtMost(h: seq<HistoryEntry>)
    ensures Typed(h) <= |h|
    ensures (forall k :: 0 <= k < |h| ==> Truthy(h[k].context.tlfType)) ==> Typed(h) == |h|
  {
    if |h| > 0 {
      TypedAtMost(h[..|h| - 1]);
    }
  }

  // ---- the extractor object ----

  class Extractor {
    const config: Config
    var currentTlf: Option<TlfContext>
    var tlfConfidence: real
    var tlfHistory: seq<HistoryEntry>

    function Snapshot(): State
      reads this
    {
      State(currentTlf, tlfConfidence, tlfHistory)
    }

    /** `__init__`, with the literal header and domain tables and the
      * corrected keyword test. */
    constructor(m: Matchers, threshold: real)
      ensures config == Config(m, Tables, DomainTable, threshold, true)
      ensures Snapshot() == Initial
    {
      config := Config(m, Tables, DomainTable, threshold, true);
      currentTlf := None;
      tlfConfidence := 0.0;
      tlfHistory := [];
    }

    /** `_update_tlf_context` */
    method UpdateTlfContext(r: Record, i: nat)
      modifies this
      ensures Snapshot() == UpdateContext(config, old(Snapshot()), r, i)
    {
      var confidence := r.overallConfidence;
      var shouldUpdate := false;
      if r.isHeader {
        if Truthy(r.outputNumber) && Truthy(r.tlfType) && confidence > 0.6 {
          if Transition(r, currentTlf) {
            shouldUpdate := true;
          }
        }
      } else if confidence >= config.threshold && !r.isFootnote {
        if Transition(r, currentTlf) {
          shouldUpdate := true;
        }
      }
      if shouldUpdate {
        var newTlf := ContextOf(r, i);
        if RequiredFields(r) >= 2 || confidence > 0.8 {
          currentTlf := Some(newTlf);
          tlfConfidence := confidence;
          tlfHistory := tlfHistory + [HistoryEntry(newTlf, confidence, i)];
        }
      }
    }

    /** Steps 4 to 9 of `extract`: the decision on a chunk's signals. */
    method ApplySignals(sig: ChunkSignals, i: nat) returns (r: Record)
      requires !sig.toc
      modifies this
      ensures (r, Snapshot()) == Step(config, old(Snapshot()), sig, i)
    {
      var best := BestHeader(sig.page.headers);
      var enhanced := Enhanced(sig.pattern, best);
      var pre := CombineResults(config, enhanced, sig.structure, sig.domain, None, i, Snapshot());
      var early := EarlyCommit(best, enhanced);
      if early {
        UpdateTlfContext(pre, i);
      }
      if ShouldInherit(pre, currentTlf, sig.continuation) && currentTlf.Some? {
        r := InheritedRecord(pre, currentTlf.value).(decision := Some(Inherited));
      } else {
        r := pre.(decision := Some(if early then NewContextSet else NewContext));
        if !early && Truthy(r.tlfType) && Truthy(r.outputNumber) && r.overallConfidence > 0.6 {
          UpdateTlfContext(r, i);
        }
      }
      r := r.(currentContext := currentTlf);
    }

    /** One pass of the loop of `extract`, on the chunk's signals. */
    method DecideChunk(sig: ChunkSignals, i: nat) returns (r: Record)
      modifies this
      ensures (r, Snapshot()) == Step(config, old(Snapshot()), sig, i)
    {
      if sig.toc {
        r := TocRecord(Snapshot(), i);
        return;
      }
      r := ApplySignals(sig, i);
    }

    /** The loop of `extract` over the chunks' signals. */
    method ExtractAll(sigs: seq<ChunkSignals>) returns (records: seq<Record>)
      modifies this
      ensures (records, Snapshot()) == Run(config, old(Snapshot()), sigs, |sigs|)
    {
      records := [];
      for i := 0 to |sigs|
        invariant (records, Snapshot()) == Run(config, old(Snapshot()), sigs, i)
      {
        var r := DecideChunk(sigs[i], i);
        records := records + [r];
      }
    }

    /** `extract` */
    method Extract(texts: seq<string>) returns (records: seq<Record>)
      modifies this
      ensures (records, Snapshot()) == Run(config, old(Snapshot()), AllSignals(config, texts), |texts|)
    {
      records := ExtractAll(AllSignals(config, texts));
    }

    /** `reset_context` */
    method ResetContext()
      modifies this
      ensures Snapshot() == Initial
    {
      currentTlf := None;
      tlfConfidence := 0.0;
      tlfHistory := [];
    }

    /** `get_tlf_summary` */
    method GetTlfSummary() returns (s: Summary)
      ensures s.total == |tlfHistory| && s.current == currentTlf
      ensures TypesCounted(s.types, tlfHistory) && DomainsCounted(s.domains, tlfHistory)
      ensures MapSum.Sum(s.types, Count) == Typed(tlfHistory)
      ensures |s.outputs| == |tlfHistory|
      ensures forall k :: 0 <= k < |tlfHistory| ==> s.outputs[k] == OutputOf(tlfHistory[k])
    {
      var types: map<string, nat> := map[];
      var domains: map<string, nat> := map[];
      var outputs: seq<OutputSummary> := [];
      for i := 0 to |tlfHistory|
        invariant Tallied(types, domains, tlfHistory[..i])
        invariant |outputs| == i && forall k :: 0 <= k < i ==> outputs[k] == OutputOf(tlfHistory[k])
      {
        assert tlfHistory[..i + 1] == tlfHistory[..i] + [tlfHistory[i]];
        types, domains := TallyEntry(tlfHistory[..i], tlfHistory[i], types, domains);
        outputs := outputs + [OutputOf(tlfHistory[i])];
      }
      assert tlfHistory[..|tlfHistory|] == tlfHistory;
      s := Summary(|tlfHistory|, types, domains, outputs, currentTlf);
    }
  }
}
