// What the decisions of backend/app/extractors/tlf_exractor.py promise:
// how the signals are merged, when a chunk inherits the current output,
// when the context moves on, and what a whole pass over a document keeps.

module TlfExtractorFacts {
  import opened Common
  import opened Strings
  import opened TlfSignals
  import opened TlfPatterns
  import opened TlfDomains
  import opened TlfHeader
  import TlfLlm
  import opened TlfExtractor

  // ---- the header analysis ----

  /** A header more confident than 0.6 wins every field it has, and the
    * merged confidence is the larger of the two. */
  lemma ConfidentHeaderWins(p: PatternResult, h: HeaderInfo)
    requires h.confidence > 0.6
    ensures var e := Enhanced(p, Some(h));
      && e.detectionMethod == "flexible_header_analysis"
      && e.treatmentGroups == p.treatmentGroups
      && e.confidence >= h.confidence && e.confidence >= p.confidence
      && (e.confidence == h.confidence || e.confidence == p.confidence)
      && (h.tlfType.Some? ==> e.tlfType == Some(h.tlfType.value.Name()))
      && (h.tlfType.None? ==> e.tlfType == p.tlfType)
      && (Truthy(h.outputNumber) ==> e.outputNumber == h.outputNumber)
      && (!Truthy(h.outputNumber) ==> e.outputNumber == p.outputNumber)
      && (Truthy(h.title) ==> e.title == h.title)
      && (!Truthy(h.title) ==> e.title == p.title)
  {
    if h.tlfType.Some? {
      assert Truthy(TypeName(h.tlfType)) by {
        match h.tlfType.value
        case _ =>
      }
    }
  }

  /** Without a confident header the pattern result stands, except that a
    * missing title is taken from the header, at 0.2 more confidence (capped
    * at 1). */
  lemma WeakHeaderOnlyFillsTitle(p: PatternResult, best: Option<HeaderInfo>)
    requires best.None? || best.value.confidence <= 0.6
    ensures var e := Enhanced(p, best);
      && e.tlfType == p.tlfType && e.outputNumber == p.outputNumber && e.population == p.population
      && e.treatmentGroups == p.treatmentGroups
      && (Truthy(p.title) || best.None? || !Truthy(best.value.title) ==> e == p)
      && (!Truthy(p.title) && best.Some? && Truthy(best.value.title) ==>
            && e.title == best.value.title
            && e.detectionMethod == "pattern_with_flexible_title"
            && e.confidence <= 1.0
            && (p.confidence <= 0.8 ==> e.confidence == p.confidence + 0.2))
  {
  }

  // ---- _calculate_overall_confidence ----

  /** Scores in [0, 1] give an overall confidence in [0, 1]; the cap at 1
    * never binds without the LLM; an LLM at or under 0.7 is ignored. */
  lemma OverallConfidenceBounds(pc: real, sc: real, dc: real, llm: Option<TlfLlm.LlmResult>)
    requires 0.0 <= pc <= 1.0 && 0.0 <= sc <= 1.0 && 0.0 <= dc <= 1.0
    requires llm.Some? ==> llm.value.Confidence() <= 1.0
    ensures 0.0 <= OverallConfidence(pc, sc, dc, llm) <= 1.0
    ensures llm.None? || llm.value.Confidence() <= 0.7 ==>
      OverallConfidence(pc, sc, dc, llm) == pc * 0.5 + sc * 0.3 + dc * 0.2
  {
  }

  /** A confident LLM moves the score towards its own confidence: the result
    * lies between the signal score and the LLM's confidence. */
  lemma ConfidentLlmBlends(pc: real, sc: real, dc: real, l: TlfLlm.LlmResult)
    requires 0.0 <= pc <= 1.0 && 0.0 <= sc <= 1.0 && 0.0 <= dc <= 1.0
    requires 0.7 < l.Confidence() <= 1.0
    ensures var base := OverallConfidence(pc, sc, dc, None);
      var r := OverallConfidence(pc, sc, dc, Some(l));
      MinReal(base, l.Confidence()) <= r <= MaxReal(base, l.Confidence())
  {
  }

  /** A better score on any one signal never lowers the overall confidence. */
  lemma OverallConfidenceMonotone(pc: real, pc': real, sc: real, sc': real, dc: real, dc': real,
                                  llm: Option<TlfLlm.LlmResult>)
    requires pc <= pc' && sc <= sc' && dc <= dc'
    ensures OverallConfidence(pc, sc, dc, llm) <= OverallConfidence(pc', sc', dc', llm)
  {
  }

  // ---- _combine_tlf_results ----

  /** Without the LLM: the record carries the chunk's position, the current
    * context and the number of transitions so far; a chunk that is no header
    * and scores under the threshold fills its gaps from the context and is
    * marked "_inherited"; every other record keeps the pattern's fields. */
  lemma CombineWithoutLlm(cfg: Config, p: PatternResult, s: Structure, d: DomainResult, i: nat, st: State)
    ensures var r := CombineResults(cfg, p, s, d, None, i, st);
      var score := OverallConfidence(p.confidence, StructureConfidence(s), d.confidence, None);
      var inherits := score < cfg.threshold && st.ctx.Some? && !s.isHeader;
      && r.nodePosition == i && r.currentContext == st.ctx && r.transitions == |st.history|
      && r.decision.None? && r.llmConfidence.None?
      && r.overallConfidence == score
      && r.contentType == ContentTypeOf(s) && r.isHeader == s.isHeader
      && r.treatmentGroups == p.treatmentGroups && r.allDomains == d.all
      && r.detectionMethod == (if inherits then p.detectionMethod + "_inherited" else p.detectionMethod)
      && (Truthy(p.tlfType) ==> r.tlfType == p.tlfType)
      && (Truthy(p.outputNumber) ==> r.outputNumber == p.outputNumber)
      && (Truthy(p.title) ==> r.title == p.title)
      && (Truthy(d.primary) ==> r.clinicalDomain == d.primary)
      && (!inherits ==> r.tlfType == p.tlfType && r.outputNumber == p.outputNumber
                        && r.title == p.title && r.clinicalDomain == d.primary)
      && (inherits ==> r.tlfType == Or(p.tlfType, st.ctx.value.tlfType)
                       && r.outputNumber == Or(p.outputNumber, st.ctx.value.outputNumber)
                       && r.title == Or(p.title, st.ctx.value.title)
                       && r.clinicalDomain == Or(d.primary, st.ctx.value.clinicalDomain))
  {
  }

  /** An LLM at or under 0.7 changes nothing; a more confident one wins its
    * truthy type and number, wins the title only above 0.9 or when the
    * pattern has none, and is recorded. */
  lemma CombineWithLlm(cfg: Config, p: PatternResult, s: Structure, d: DomainResult,
                       l: TlfLlm.LlmResult, i: nat, st: State)
    ensures l.Confidence() <= 0.7 ==>
      CombineResults(cfg, p, s, d, Some(l), i, st) == CombineResults(cfg, p, s, d, None, i, st)
    ensures l.Confidence() > 0.7 ==>
      var r := CombineResults(cfg, p, s, d, Some(l), i, st);
      && r.llmConfidence == Some(l.Confidence())
      && (Truthy(l.tlfType) ==> r.tlfType == l.tlfType)
      && (Truthy(l.outputNumber) ==> r.outputNumber == l.outputNumber)
      && (Truthy(l.title) && (l.Confidence() > 0.9 || !Truthy(p.title)) ==> r.title == l.title)
      && (Truthy(p.title) && l.Confidence() <= 0.9 ==> r.title == p.title)
      && (r.detectionMethod == "pattern+llm" || r.detectionMethod == "pattern+llm_inherited")
  {
  }

  // ---- _should_inherit_context ----

  /** The refusals: a typed, numbered record over 0.8, a table of contents,
    * and a document with no current output never inherit. */
  lemma InheritRefusals(r: Record, ctx: Option<TlfContext>, continuation: nat)
    ensures Truthy(r.tlfType) && Truthy(r.outputNumber) && r.overallConfidence > 0.8 ==>
      !ShouldInherit(r, ctx, continuation)
    ensures r.clinicalDomain == Some("table_of_contents") ==> !ShouldInherit(r, ctx, continuation)
    ensures ctx.None? ==> !ShouldInherit(r, ctx, continuation)
    ensures r.isHeader && continuation < 2 && r.contentType == HeaderContent ==> !ShouldInherit(r, ctx, continuation)
  {
  }

  /** Past the refusals, data and footnotes inherit, as does anything with a
    * continuation score of two or more. */
  lemma InheritGrants(r: Record, ctx: Option<TlfContext>, continuation: nat)
    requires ctx.Some? && r.clinicalDomain != Some("table_of_contents")
    requires !(Truthy(r.tlfType) && Truthy(r.outputNumber) && r.overallConfidence > 0.8)
    ensures r.contentType == DataContent || r.contentType == FootnoteContent || continuation >= 2 ==>
      ShouldInherit(r, ctx, continuation)
    ensures r.overallConfidence < 0.5 && !Truthy(r.tlfType) && !Truthy(r.outputNumber) && !r.isHeader ==>
      ShouldInherit(r, ctx, continuation)
  {
  }

  // ---- _create_inherited_metadata ----

  /** The inherited record: the context's title wins, the chunk's own type,
    * number, population and domain are kept and its gaps filled, and its
    * confidence rises by at least 0.2 up to the cap of 0.9. */
  lemma InheritedRecordFacts(r: Record, c: TlfContext)
    ensures var n := InheritedRecord(r, c);
      && n.overallConfidence <= 0.9
      && n.overallConfidence >= MinReal(r.overallConfidence + 0.2, 0.9)
      && (Truthy(c.title) ==> n.title == c.title)
      && (!Truthy(c.title) ==> n.title == r.title)
      && n.tlfType == Or(r.tlfType, c.tlfType) && n.outputNumber == Or(r.outputNumber, c.outputNumber)
      && n.population == Or(r.population, c.population)
      && n.clinicalDomain == Or(r.clinicalDomain, c.clinicalDomain)
      && n.detectionMethod == r.detectionMethod + "_inherited"
      && n.nodePosition == r.nodePosition && n.contentType == r.contentType
      && n.treatmentGroups == r.treatmentGroups
  {
  }

  // ---- _detect_tlf_transition ----

  /** A first output is always a transition, and so is a change of truthy
    * number or of truthy type. */
  lemma TransitionReasons(r: Record, prev: Option<TlfContext>)
    ensures prev.None? ==> Transition(r, prev)
    ensures (prev.Some? && Truthy(r.outputNumber) && Truthy(prev.value.outputNumber)
             && r.outputNumber != prev.value.outputNumber) ==> Transition(r, prev)
    ensures (prev.Some? && Truthy(r.tlfType) && Truthy(prev.value.tlfType)
             && r.tlfType != prev.value.tlfType) ==> Transition(r, prev)
  {
  }

  /** The same type, number and title is never a transition, nor is a chunk
    * that names none of the three. */
  lemma NoTransition(r: Record, c: TlfContext)
    ensures r.tlfType == c.tlfType && r.outputNumber == c.outputNumber && r.title == c.title ==>
      !Transition(r, Some(c))
    ensures !Truthy(r.tlfType) && !Truthy(r.outputNumber) && !Truthy(r.title) ==> !Transition(r, Some(c))
  {
    if !Truthy(r.title) {
      assert Lower(r.title.GetOr("")) == "";
    }
  }

  /** Titles of ten characters or fewer are never told apart: with the same
    * type and number such a chunk stays in its output. */
  lemma ShortTitlesStay(r: Record, c: TlfContext)
    requires r.tlfType == c.tlfType && r.outputNumber == c.outputNumber
    requires |r.title.GetOr("")| <= 10
    ensures !Transition(r, Some(c))
  {
    assert |Lower(r.title.GetOr(""))| == |r.title.GetOr("")|;
  }

  // ---- _update_tlf_context ----

  /** The update leaves the state alone, or opens the record's context at
    * chunk `i` and logs exactly that one entry, and only on a transition
    * with two of type, number and title or a confidence over 0.8.  It keeps
    * the state consistent. */
  lemma UpdateContextFacts(cfg: Config, st: State, r: Record, i: nat)
    ensures var st' := UpdateContext(cfg, st, r, i);
      && (st' == st ||
          (&& Transition(r, st.ctx)
           && (RequiredFields(r) >= 2 || r.overallConfidence > 0.8)
           && st' == State(Some(ContextOf(r, i)), r.overallConfidence,
                           st.history + [HistoryEntry(ContextOf(r, i), r.overallConfidence, i)])))
      && (Consistent(st) ==> Consistent(st'))
      && (r.isFootnote && !r.isHeader ==> st' == st)
      && (r.isHeader && !(Truthy(r.tlfType) && Truthy(r.outputNumber)) ==> st' == st)
      && (!r.isHeader && r.overallConfidence < cfg.threshold ==> st' == st)
  {
  }

  /** Once a record has opened its context, offering the same record again
    * changes nothing. */
  lemma UpdateIdempotent(cfg: Config, st: State, r: Record, i: nat, j: nat)
    requires UpdateContext(cfg, st, r, i) != st
    ensures UpdateContext(cfg, UpdateContext(cfg, st, r, i), r, j) == UpdateContext(cfg, st, r, i)
  {
    NoTransition(r, ContextOf(r, i));
  }

  // ---- one chunk of extract ----

  /** A table of contents gets the TOC record, with no type and no number,
    * and leaves the context alone. */
  lemma TocStep(cfg: Config, st: State, sig: ChunkSignals, i: nat)
    requires sig.toc
    ensures var out := Step(cfg, st, sig, i);
      && out.1 == st
      && out.0.decision == Some(TocSpecialCase)
      && out.0.tlfType.None? && out.0.outputNumber.None?
      && out.0.clinicalDomain == Some("table_of_contents")
      && out.0.nodePosition == i && out.0.currentContext == st.ctx
  {
  }

  /** The history grows by at most the one entry of chunk `i`. */
  predicate GrowsByAtMostOne(st: State, st': State, i: nat) {
    || st'.history == st.history
    || (&& |st'.history| == |st.history| + 1
        && st'.history[..|st.history|] == st.history
        && Last(st'.history).position == i)
  }

  lemma UpdateGrows(cfg: Config, st: State, r: Record, i: nat)
    ensures GrowsByAtMostOne(st, UpdateContext(cfg, st, r, i), i)
  {
    var st' := UpdateContext(cfg, st, r, i);
    if st' != st {
      assert st'.history[..|st.history|] == st.history;
    }
  }

  /** Steps 8 and 9: the record keeps its position and carries the new
    * context and a decision; after an early commit the state is left alone,
    * otherwise at most the entry of chunk `i` is added; a consistent state
    * stays consistent, and an inherited record keeps a context and never
    * scores over 0.9. */
  lemma DecideFacts(cfg: Config, st: State, pre: Record, early: bool, continuation: nat, i: nat)
    ensures var out := Decide(cfg, st, pre, early, continuation, i);
      && out.0.nodePosition == pre.nodePosition && out.0.currentContext == out.1.ctx && out.0.decision.Some?
      && (early ==> out.1 == st)
      && GrowsByAtMostOne(st, out.1, i)
      && (Consistent(st) ==> Consistent(out.1))
      && (out.0.decision == Some(Inherited) ==> out.1.ctx.Some? && out.0.overallConfidence <= 0.9)
  {
    var r := pre.(decision := Some(if early then NewContextSet else NewContext));
    UpdateGrows(cfg, st, r, i);
    UpdateContextFacts(cfg, st, r, i);
  }

  /** The decision on one chunk: a record at position `i` carrying the new
    * context and a decision, at most one new history entry, at `i`, and a
    * consistent state stays consistent.  An inherited record keeps a
    * context and never scores over 0.9. */
  lemma StepFacts(cfg: Config, st: State, sig: ChunkSignals, i: nat)
    ensures var out := Step(cfg, st, sig, i);
      && out.0.nodePosition == i && out.0.currentContext == out.1.ctx && out.0.decision.Some?
      && GrowsByAtMostOne(st, out.1, i)
      && (Consistent(st) ==> Consistent(out.1))
      && (out.0.decision == Some(Inherited) ==> out.1.ctx.Some? && out.0.overallConfidence <= 0.9)
  {
    if !sig.toc {
      var pre := PreliminaryOf(cfg, st, sig, i);
      var early := EarlyCommit(BestOf(sig), EnhancedOf(sig));
      var st1 := if early then UpdateContext(cfg, st, pre, i) else st;
      assert pre.nodePosition == i;
      UpdateGrows(cfg, st, pre, i);
      UpdateContextFacts(cfg, st, pre, i);
      DecideFacts(cfg, st1, pre, early, sig.continuation, i);
    }
  }

  /** A chunk with a confident header that only repeats the current output's
    * type, number and title is labelled "new_context_set" although no
    * context was set. */
  lemma NewContextSetWithoutCommit(cfg: Config, st: State, sig: ChunkSignals, i: nat)
    requires !sig.toc && EarlyCommit(BestOf(sig), EnhancedOf(sig))
    requires var pre := PreliminaryOf(cfg, st, sig, i);
      && st.ctx.Some? && pre.tlfType == st.ctx.value.tlfType
      && pre.outputNumber == st.ctx.value.outputNumber && pre.title == st.ctx.value.title
      && !ShouldInherit(pre, st.ctx, sig.continuation)
    ensures Step(cfg, st, sig, i).0.decision == Some(NewContextSet)
    ensures Step(cfg, st, sig, i).1 == st
  {
    var pre := PreliminaryOf(cfg, st, sig, i);
    NoTransition(pre, st.ctx.value);
    assert UpdateContext(cfg, st, pre, i) == st;
  }

  /** A header chunk scoring between 0.6 and 0.8 that opens the first output
    * of a document is then labelled as inheriting that very output when it
    * reads like a continuation. */
  lemma OpeningChunkInherits(cfg: Config, st: State, sig: ChunkSignals, i: nat)
    requires !sig.toc && st.ctx.None? && EarlyCommit(BestOf(sig), EnhancedOf(sig))
    requires var pre := PreliminaryOf(cfg, st, sig, i);
      pre.isHeader && 0.6 < pre.overallConfidence <= 0.8 && pre.clinicalDomain != Some("table_of_contents")
    requires sig.continuation >= 2
    ensures Step(cfg, st, sig, i).0.decision == Some(Inherited)
    ensures |Step(cfg, st, sig, i).1.history| == |st.history| + 1
  {
    var pre := PreliminaryOf(cfg, st, sig, i);
    var e := EnhancedOf(sig);
    assert pre.tlfType == e.tlfType && pre.outputNumber == e.outputNumber;
    assert RequiredFields(pre) >= 2;
    var st1 := UpdateContext(cfg, st, pre, i);
    assert st1.ctx == Some(ContextOf(pre, i));
    assert pre.contentType == HeaderContent;
    assert ShouldInherit(pre, st1.ctx, sig.continuation);
  }

  // ---- a whole document ----

  /** History entries from `from` on were opened at ascending chunks below
    * `n`. */
  predicate AscendingFrom(h: seq<HistoryEntry>, from: nat, n: nat) {
    && (forall k :: from <= k < |h| ==> h[k].position < n)
    && (forall a, b :: from <= a < b < |h| ==> h[a].position < h[b].position)
  }

  /** What one step promises, as used by the pass over a document. */
  predicate StepOk(st: State, sig: ChunkSignals, r: Record, st': State, i: nat) {
    && r.nodePosition == i
    && (sig.toc ==> r.decision == Some(TocSpecialCase))
    && GrowsByAtMostOne(st, st', i)
    && (Consistent(st) ==> Consistent(st'))
  }

  lemma StepOkHolds(cfg: Config, st: State, sig: ChunkSignals, i: nat)
    ensures var out := Step(cfg, st, sig, i); StepOk(st, sig, out.0, out.1, i)
  {
    StepFacts(cfg, st, sig, i);
    if sig.toc {
      TocStep(cfg, st, sig, i);
    }
  }

  /** An entry added at chunk `n - 1` keeps the entries from `from` on
    * ascending and below `n`, and leaves the older ones alone. */
  lemma GrowsAscending(s0: State, s1: State, from: nat, n: nat)
    requires n > 0 && from <= |s0.history|
    requires AscendingFrom(s0.history, from, n - 1)
    requires GrowsByAtMostOne(s0, s1, n - 1)
    ensures AscendingFrom(s1.history, from, n)
    ensures |s0.history| <= |s1.history| <= |s0.history| + 1
    ensures s1.history[..from] == s0.history[..from]
  {
    if s1.history != s0.history {
      assert s1.history == s0.history + [Last(s1.history)];
    }
  }

  /** Run over `n` chunks is run over `n - 1` followed by one step. */
  lemma RunStepOk(cfg: Config, st: State, sigs: seq<ChunkSignals>, n: nat)
    requires 0 < n <= |sigs|
    ensures var prev := Run(cfg, st, sigs, n - 1);
      var out := Run(cfg, st, sigs, n);
      && |out.0| == |prev.0| + 1
      && out.0[..|prev.0|] == prev.0
      && StepOk(prev.1, sigs[n - 1], out.0[|prev.0|], out.1, n - 1)
  {
    var prev := Run(cfg, st, sigs, n - 1);
    StepOkHolds(cfg, prev.1, sigs[n - 1], n - 1);
    var out := Run(cfg, st, sigs, n);
    assert out.0[..|prev.0|] == prev.0;
  }

  /** A pass over `n` chunks gives one record per chunk, at its own position,
    * and the TOC record for every table of contents. */
  lemma {:induction false} RunRecords(cfg: Config, st: State, sigs: seq<ChunkSignals>, n: nat)
    requires n <= |sigs|
    ensures RecordsOk(Run(cfg, st, sigs, n).0, sigs, n)
  {
    if n > 0 {
      RunRecords(cfg, st, sigs, n - 1);
      RunStepOk(cfg, st, sigs, n);
      RecordsExtend(Run(cfg, st, sigs, n - 1).0, Run(cfg, st, sigs, n).0, sigs, n);
    }
  }

  /** Records of the first `n` chunks, each at its own position, the TOC
    * record for every table of contents. */
  predicate RecordsOk(recs: seq<Record>, sigs: seq<ChunkSignals>, n: nat) {
    && |recs| == n && n <= |sigs|
    && (forall k :: 0 <= k < n ==> recs[k].nodePosition == k)
    && (forall k :: 0 <= k < n && sigs[k].toc ==> recs[k].decision == Some(TocSpecialCase))
  }

  lemma RecordsExtend(prev: seq<Record>, recs: seq<Record>, sigs: seq<ChunkSignals>, n: nat)
    requires 0 < n <= |sigs|
    requires RecordsOk(prev, sigs, n - 1)
    requires |recs| == n && recs[..n - 1] == prev
    requires recs[n - 1].nodePosition == n - 1
    requires sigs[n - 1].toc ==> recs[n - 1].decision == Some(TocSpecialCase)
    ensures RecordsOk(recs, sigs, n)
  {
    forall k | 0 <= k < n - 1
      ensures recs[k] == prev[k]
    {
      assert recs[..n - 1][k] == recs[k];
    }
  }

  /** At most `n` history entries after the old ones, opened at ascending
    * chunks below `n`, and a consistent state stays consistent. */
  predicate HistoryOk(st: State, st': State, n: nat) {
    && |st.history| <= |st'.history| <= |st.history| + n
    && st'.history[..|st.history|] == st.history
    && AscendingFrom(st'.history, |st.history|, n)
    && (Consistent(st) ==> Consistent(st'))
  }

  lemma HistoryExtend(st: State, s0: State, s1: State, n: nat)
    requires n > 0
    requires HistoryOk(st, s0, n - 1)
    requires GrowsByAtMostOne(s0, s1, n - 1)
    requires Consistent(s0) ==> Consistent(s1)
    ensures HistoryOk(st, s1, n)
  {
    GrowsAscending(s0, s1, |st.history|, n);
  }

  /** A pass over `n` chunks adds at most `n` history entries after the old
    * ones, opened at ascending chunks, and keeps the state consistent. */
  lemma {:induction false} RunHistory(cfg: Config, st: State, sigs: seq<ChunkSignals>, n: nat)
    requires n <= |sigs|
    ensures HistoryOk(st, Run(cfg, st, sigs, n).1, n)
  {
    if n > 0 {
      RunHistory(cfg, st, sigs, n - 1);
      RunStepOk(cfg, st, sigs, n);
      HistoryExtend(st, Run(cfg, st, sigs, n - 1).1, Run(cfg, st, sigs, n).1, n);
    }
  }

  /** `extract` over a document starting from a fresh context. */
  lemma ExtractFacts(cfg: Config, texts: seq<string>)
    ensures var out := Run(cfg, Initial, AllSignals(cfg, texts), |texts|);
      && |out.0| == |texts|
      && (forall k :: 0 <= k < |texts| ==> out.0[k].nodePosition == k)
      && |out.1.history| <= |texts|
      && Consistent(out.1)
  {
    RunRecords(cfg, Initial, AllSignals(cfg, texts), |texts|);
    RunHistory(cfg, Initial, AllSignals(cfg, texts), |texts|);
  }
}
