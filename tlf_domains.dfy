// backend/app/extractors/tlf_exractor.py: the clinical-domain classifier
// (`_classify_clinical_domain_dual` and the strict pass, loose pass,
// confidence and validation it is built from).

module TlfDomains {
  import opened Common
  import opened Strings
  import opened TlfSignals

  /** A domain and its keywords, spelled as the pattern strings are. */
  datatype DomainKeywords = DomainKeywords(name: string, keywords: seq<string>)

  /** The keyword table, in its iteration order. */
  const DomainTable: seq<DomainKeywords> := [
    DomainKeywords("demographics",
      ["demographic", "demographics", "baseline\\s+characteristic", "baseline\\s+characteristics",
       "subject\\s+characteristics", "patient\\s+characteristics", "participant\\s+characteristics",
       "\\bage\\b", "\\bsex\\b", "\\brace\\b", "\\bweight\\b", "\\bheight\\b", "\\bbmi\\b"]),
    DomainKeywords("adverse_events",
      ["adverse\\s+event", "adverse\\s+events", "treatment[\\s\\-]*emergent",
       "serious\\s+adverse", "\\bae\\b", "\\bsae\\b", "\\bteae\\b",
       "system\\s+organ\\s+class", "\\bsoc\\b", "preferred\\s+term", "\\bpt\\b",
       "toxicity", "side\\s+effect", "safety\\s+event", "undesirable\\s+effect",
       "treatment.*emergent.*serious", "for\\s+public\\s+disclosure"]),
    DomainKeywords("medical_history",
      ["medical\\s+history", "medical\\s+condition", "prior\\s+medical\\s+history",
       "prior\\s+medical\\s+condition", "concomitant\\s+medication"]),
    DomainKeywords("laboratory",
      ["laboratory", "lab\\s+", "hematology", "chemistry", "urinalysis",
       "glucose", "hemoglobin", "creatinine", "\\balt\\b", "\\bast\\b", "bilirubin",
       "white\\s+blood\\s+cell", "\\bwbc\\b", "platelet", "laboratory\\s+values"]),
    DomainKeywords("vital_signs",
      ["vital\\s+sign", "vital\\s+signs", "vitals", "blood\\s+pressure",
       "heart\\s+rate", "temperature", "respiratory\\s+rate", "pulse",
       "systolic", "diastolic"]),
    DomainKeywords("ecg",
      ["electrocardiogram", "\\becg\\b", "\\bekg\\b", "qt\\s+interval", "\\bqrs\\b",
       "cardiac\\s+conduction", "heart\\s+rhythm"]),
    DomainKeywords("efficacy",
      ["efficacy", "endpoint", "outcome", "response", "efficacy\\s+parameter",
       "primary\\s+endpoint", "secondary\\s+endpoint"]),
    DomainKeywords("pharmacokinetics",
      ["pharmacokinetic", "\\bpk\\b", "concentration", "plasma\\s+level",
       "cmax", "tmax", "auc", "half[\\s\\-]*life", "clearance", "bioavailability"]),
    DomainKeywords("disposition",
      ["disposition", "enrollment", "randomization", "completion",
       "discontinuation", "withdrawal", "screen\\s+failure", "subject\\s+disposition"]),
    DomainKeywords("exposure",
      ["exposure", "dose", "dosing", "treatment\\s+duration",
       "compliance", "adherence", "drug\\s+administration"])
  ]

  /** One entry of `all_domains`. */
  datatype DomainScore = DomainScore(
    domain: string,
    score: real,
    keywords: seq<string>,
    confidence: real,
    uniqueMatches: nat)

  // ---- which keywords go to the regex engine ----

  /** The test the passes apply: a keyword is a regex when it starts with
    * `r"` or contains `\b` or `[`. */
  predicate IsRegexAsWritten(k: string) {
    StartsWith(k, "r\"") || Contains(k, "\\b") || Contains(k, "[")
  }

  const RegexSyntax: seq<char> := ['\\', '[', ']', '.', '*', '+', '?', '(', ')', '|', '^', '$', '{', '}']

  function HasRegexChar(k: string): bool {
    |k| > 0 && (k[0] in RegexSyntax || HasRegexChar(k[1..]))
  }

  /** The evident intent: any keyword spelled with regex syntax goes to the
    * regex engine. */
  predicate IsRegexBySyntax(k: string) {
    IsRegexAsWritten(k) || HasRegexChar(k)
  }

  predicate IsRegex(k: string, corrected: bool) {
    if corrected then IsRegexBySyntax(k) else IsRegexAsWritten(k)
  }

  /** A keyword holding any regex character anywhere is a regex under the
    * corrected test. */
  lemma {:induction false} RegexCharIsRegex(k: string, i: nat)
    requires i < |k| && k[i] in RegexSyntax
    ensures HasRegexChar(k)
  {
    if i > 0 {
      RegexCharIsRegex(k[1..], i - 1);
    }
  }

  /** `len(re.findall(r'\b' + re.escape(k) + r'\b', s))`: non-overlapping
    * occurrences of `k` from `from` on with a word boundary on both sides. */
  function BoundedCount(s: string, k: string, from: nat): nat
    decreases |s| - from
  {
    if |k| == 0 || from + |k| > |s| then 0
    else if s[from..from + |k|] == k && WordBoundary(s, from) && WordBoundary(s, from + |k|) then
      1 + BoundedCount(s, k, from + |k|)
    else BoundedCount(s, k, from + 1)
  }

  /** A bounded occurrence is an occurrence: whatever the strict pass finds
    * literally, the loose pass finds too. */
  lemma {:induction false} BoundedHitIsSubstring(s: string, k: string, from: nat)
    requires BoundedCount(s, k, from) > 0
    ensures Contains(s, k)
    decreases |s| - from
  {
    if s[from..from + |k|] == k && WordBoundary(s, from) && WordBoundary(s, from + |k|) {
      ContainsAt(s, k, from);
    } else {
      BoundedHitIsSubstring(s, k, from + 1);
    }
  }

  // ---- one pass ----

  /** `1 + (matches - 1) * 0.3` for a keyword found `n` times. */
  function StrictWeight(n: nat): real {
    if n == 0 then 0.0 else 1.0 + ((n - 1) as real) * 0.3
  }

  /** What one keyword adds to its domain's score in the strict or the loose
    * pass. */
  function Gain(m: Matchers, textLower: string, k: string, strict: bool, corrected: bool): real {
    if strict then
      StrictWeight(if IsRegex(k, corrected) then m.strictCount(k, textLower) else BoundedCount(textLower, k, 0))
    else if IsRegex(k, corrected) then m.looseCount(k, textLower) as real
    else if Contains(textLower, Lower(k)) then 1.0
    else 0.0
  }

  lemma GainShape(m: Matchers, textLower: string, k: string, strict: bool, corrected: bool)
    ensures var g := Gain(m, textLower, k, strict, corrected); g == 0.0 || g >= 1.0
  {
  }

  /** Score and matched keywords over a domain's keywords. */
  datatype Tally = Tally(score: real, matched: seq<string>)

  function TallyOf(m: Matchers, textLower: string, ks: seq<string>, strict: bool, corrected: bool): Tally {
    if |ks| == 0 then Tally(0.0, [])
    else
      var t := TallyOf(m, textLower, ks[..|ks| - 1], strict, corrected);
      var k := ks[|ks| - 1];
      var g := Gain(m, textLower, k, strict, corrected);
      if g > 0.0 then Tally(t.score + g, t.matched + [k]) else t
  }

  /** The matched keywords are exactly those found, each adds at least 1 to
    * the score, and a domain scores iff something matched. */
  lemma {:induction false} TallyFacts(m: Matchers, textLower: string, ks: seq<string>, strict: bool, corrected: bool)
    ensures var t := TallyOf(m, textLower, ks, strict, corrected);
      && t.score >= |t.matched| as real
      && (t.score > 0.0 <==> |t.matched| > 0)
      && |t.matched| <= |ks|
      && forall k :: k in t.matched <==> k in ks && Gain(m, textLower, k, strict, corrected) > 0.0
  {
    if |ks| > 0 {
      var pre := ks[..|ks| - 1];
      TallyFacts(m, textLower, pre, strict, corrected);
      GainShape(m, textLower, ks[|ks| - 1], strict, corrected);
      assert forall k :: k in ks <==> k in pre || k == ks[|ks| - 1];
    }
  }

  // ---- _calculate_domain_confidence ----

  function BaseConfidence(score: real): real {
    if score >= 15.0 then 0.9
    else if score >= 10.0 then 0.8
    else if score >= 5.0 then 0.7
    else if score >= 3.0 then 0.6
    else if score >= 1.0 then 0.4
    else 0.0
  }

  /** `_calculate_domain_confidence` (the keyword count and text length it
    * takes are unused). */
  function DomainConfidence(name: string, unique: nat, score: real): real {
    var c0 := BaseConfidence(score);
    var c1 :=
      if unique >= 5 then MinReal(c0 + 0.1, 1.0)
      else if unique >= 3 then MinReal(c0 + 0.05, 1.0)
      else if unique == 1 then c0 * 0.8
      else c0;
    if (name == "adverse_events" || name == "demographics") && unique >= 3 then MinReal(c1 + 0.1, 1.0) else c1
  }

  /** The confidence stays within [0, 1], and is at least 0.32 once the
    * score reaches 1. */
  lemma DomainConfidenceBounds(name: string, unique: nat, score: real)
    ensures 0.0 <= DomainConfidence(name, unique, score) <= 1.0
    ensures score >= 1.0 ==> DomainConfidence(name, unique, score) >= 0.32
  {
  }

  /** A higher score never lowers the confidence. */
  lemma DomainConfidenceMonotoneInScore(name: string, unique: nat, s1: real, s2: real)
    requires s1 <= s2
    ensures DomainConfidence(name, unique, s1) <= DomainConfidence(name, unique, s2)
  {
  }

  /** Once something matched, more distinct matches never lower the
    * confidence. */
  lemma DomainConfidenceMonotoneInMatches(name: string, u1: nat, u2: nat, score: real)
    requires 1 <= u1 <= u2
    ensures DomainConfidence(name, u1, score) <= DomainConfidence(name, u2, score)
  {
  }

  // ---- _classify_clinical_domain_strict / _loose ----

  function PassEntry(m: Matchers, textLower: string, d: DomainKeywords, strict: bool, corrected: bool): Option<DomainScore> {
    var t := TallyOf(m, textLower, d.keywords, strict, corrected);
    if t.score > 0.0 then
      Some(DomainScore(d.name, t.score, t.matched, DomainConfidence(d.name, |t.matched|, t.score), |t.matched|))
    else None
  }

  /** `all_domains` of one pass, over the domains of `table` in order. */
  function PassScores(m: Matchers, textLower: string, table: seq<DomainKeywords>, strict: bool, corrected: bool): seq<DomainScore> {
    if |table| == 0 then []
    else
      var r := PassScores(m, textLower, table[..|table| - 1], strict, corrected);
      var e := PassEntry(m, textLower, table[|table| - 1], strict, corrected);
      if e.Some? then r + [e.value] else r
  }

  function Names(es: seq<DomainScore>): set<string> {
    set e | e in es :: e.domain
  }

  predicate WellScored(e: DomainScore) {
    e.score >= 1.0 && e.uniqueMatches == |e.keywords| > 0 && 0.32 <= e.confidence <= 1.0
  }

  /** A pass entry has at least one match, a score of at least 1 and a
    * confidence in [0.32, 1]. */
  lemma PassEntryFacts(m: Matchers, textLower: string, d: DomainKeywords, strict: bool, corrected: bool)
    ensures var e := PassEntry(m, textLower, d, strict, corrected);
      e.Some? ==> e.value.domain == d.name && WellScored(e.value)
  {
    var t := TallyOf(m, textLower, d.keywords, strict, corrected);
    TallyFacts(m, textLower, d.keywords, strict, corrected);
    DomainConfidenceBounds(d.name, |t.matched|, t.score);
  }

  predicate DistinctNames(table: seq<DomainKeywords>) {
    forall i, j :: 0 <= i < j < |table| ==> table[i].name != table[j].name
  }

  function TableNames(table: seq<DomainKeywords>): set<string> {
    set d | d in table :: d.name
  }

  /** Every entry of a pass is a domain of the table with at least one
    * match, a score of at least 1 and a confidence in [0.32, 1]. */
  lemma {:induction false} PassWellScored(m: Matchers, textLower: string, table: seq<DomainKeywords>, strict: bool, corrected: bool)
    ensures forall e :: e in PassScores(m, textLower, table, strict, corrected) ==>
      WellScored(e) && e.domain in TableNames(table)
  {
    if |table| > 0 {
      var pre := table[..|table| - 1];
      var d := table[|table| - 1];
      PassWellScored(m, textLower, pre, strict, corrected);
      PassEntryFacts(m, textLower, d, strict, corrected);
      var r0 := PassScores(m, textLower, pre, strict, corrected);
      var e := PassEntry(m, textLower, d, strict, corrected);
      assert PassScores(m, textLower, table, strict, corrected) == if e.Some? then r0 + [e.value] else r0;
      assert TableNames(table) == TableNames(pre) + {d.name} by {
        assert forall x :: x in table <==> x in pre || x == d;
      }
      assert forall x :: x in r0 + (if e.Some? then [e.value] else []) ==> x in r0 || (e.Some? && x == e.value);
    }
  }

  /** With distinct domain names, a domain is listed iff one of its keywords
    * was found. */
  lemma {:induction false} PassListsIff(m: Matchers, textLower: string, table: seq<DomainKeywords>, strict: bool, corrected: bool)
    requires DistinctNames(table)
    ensures forall i :: 0 <= i < |table| ==>
      ((table[i].name in Names(PassScores(m, textLower, table, strict, corrected)))
        <==> PassEntry(m, textLower, table[i], strict, corrected).Some?)
  {
    if |table| > 0 {
      var pre := table[..|table| - 1];
      var d := table[|table| - 1];
      assert DistinctNames(pre);
      PassListsIff(m, textLower, pre, strict, corrected);
      var r0 := PassScores(m, textLower, pre, strict, corrected);
      var e := PassEntry(m, textLower, d, strict, corrected);
      assert e.Some? ==> e.value.domain == d.name;
      NamesAppend(r0, e);
      forall i | 0 <= i < |pre| ensures pre[i].name != d.name {
        assert table[i] == pre[i];
      }
      PassNamesOnlyScanned(m, textLower, pre, strict, corrected, d.name);
      forall i | 0 <= i < |pre|
        ensures (table[i].name in Names(PassScores(m, textLower, table, strict, corrected)))
          <==> PassEntry(m, textLower, table[i], strict, corrected).Some?
      {
        assert table[i] == pre[i];
      }
    }
  }

  /** A name no domain of the table carries has no entry. */
  lemma {:induction false} PassNamesOnlyScanned(m: Matchers, textLower: string, table: seq<DomainKeywords>, strict: bool, corrected: bool, name: string)
    requires forall i :: 0 <= i < |table| ==> table[i].name != name
    ensures name !in Names(PassScores(m, textLower, table, strict, corrected))
  {
    if |table| > 0 {
      var pre := table[..|table| - 1];
      PassNamesOnlyScanned(m, textLower, pre, strict, corrected, name);
      var r0 := PassScores(m, textLower, pre, strict, corrected);
      var e := PassEntry(m, textLower, table[|table| - 1], strict, corrected);
      NamesAppend(r0, e);
    }
  }

  lemma NamesAppend(r: seq<DomainScore>, e: Option<DomainScore>)
    ensures Names(if e.Some? then r + [e.value] else r) == Names(r) + (if e.Some? then {e.value.domain} else {})
  {
    if e.Some? {
      assert forall x :: x in r + [e.value] <==> x in r || x == e.value;
    }
  }

  /** The keyword loop of one domain. */
  method TallyKeywords(m: Matchers, textLower: string, keywords: seq<string>, strict: bool, corrected: bool)
    returns (score: real, matched: seq<string>)
    ensures Tally(score, matched) == TallyOf(m, textLower, keywords, strict, corrected)
  {
    score := 0.0;
    matched := [];
    var j := 0;
    while j < |keywords|
      invariant 0 <= j <= |keywords|
      invariant Tally(score, matched) == TallyOf(m, textLower, keywords[..j], strict, corrected)
    {
      assert keywords[..j + 1][..j] == keywords[..j];
      var gain := Gain(m, textLower, keywords[j], strict, corrected);
      if gain > 0.0 {
        score := score + gain;
        matched := matched + [keywords[j]];
      }
      j := j + 1;
    }
    assert keywords[..|keywords|] == keywords;
  }

  /** The strict or loose pass: for each domain, in order, the keywords it
    * matches, its score and confidence. */
  method ScorePass(m: Matchers, table: seq<DomainKeywords>, text: string, strict: bool, corrected: bool)
    returns (scores: seq<DomainScore>)
    ensures scores == PassScores(m, Lower(text), table, strict, corrected)
  {
    var textLower := Lower(text);
    scores := [];
    var i := 0;
    while i < |table|
      invariant 0 <= i <= |table|
      invariant scores == PassScores(m, textLower, table[..i], strict, corrected)
    {
      var d := table[i];
      var score, matched := TallyKeywords(m, textLower, d.keywords, strict, corrected);
      if score > 0.0 {
        scores := scores + [DomainScore(d.name, score, matched, DomainConfidence(d.name, |matched|, score), |matched|)];
      }
      assert table[..i + 1][..i] == table[..i];
      i := i + 1;
    }
    assert table[..|table|] == table;
  }

  // ---- merging the passes ----

  /** The position of the entry for `name`. */
  function IndexOfDomain(es: seq<DomainScore>, name: string): (r: Option<nat>)
    ensures r.Some? ==> r.value < |es| && es[r.value].domain == name
    ensures r.None? ==> name !in Names(es)
  {
    if |es| == 0 then None
    else if es[|es| - 1].domain == name then Some(|es| - 1)
    else
      var r := IndexOfDomain(es[..|es| - 1], name);
      assert forall e :: e in es ==> e in es[..|es| - 1] || e == es[|es| - 1];
      r
  }

  /** Scores add, keywords are united, the higher confidence is kept and the
    * unique-match count stays the strict one. */
  function Combine(a: DomainScore, l: DomainScore): DomainScore {
    DomainScore(a.domain, a.score + l.score, Dedup(a.keywords + l.keywords), MaxReal(a.confidence, l.confidence), a.uniqueMatches)
  }

  function MergeOne(combined: seq<DomainScore>, l: DomainScore): seq<DomainScore> {
    var i := IndexOfDomain(combined, l.domain);
    if i.Some? then combined[i.value := Combine(combined[i.value], l)] else combined + [l]
  }

  /** The loose entries folded, in order, into the strict ones. */
  function MergeAll(strict: seq<DomainScore>, loose: seq<DomainScore>): seq<DomainScore> {
    if |loose| == 0 then strict
    else MergeOne(MergeAll(strict, loose[..|loose| - 1]), loose[|loose| - 1])
  }

  /** The merged domains are those of either pass. */
  lemma {:induction false} MergeNames(strict: seq<DomainScore>, loose: seq<DomainScore>)
    ensures Names(MergeAll(strict, loose)) == Names(strict) + Names(loose)
  {
    if |loose| > 0 {
      var pre := loose[..|loose| - 1];
      var l := loose[|loose| - 1];
      MergeNames(strict, pre);
      var c := MergeAll(strict, pre);
      assert Names(loose) == Names(pre) + {l.domain} by {
        assert forall e :: e in loose <==> e in pre || e == l;
      }
      var i := IndexOfDomain(c, l.domain);
      if i.Some? {
        NamesUpdateSameDomain(c, i.value, Combine(c[i.value], l));
      } else {
        NamesAppend(c, Some(l));
      }
    }
  }

  lemma NamesUpdateSameDomain(c: seq<DomainScore>, i: nat, x: DomainScore)
    requires i < |c| && x.domain == c[i].domain
    ensures Names(c[i := x]) == Names(c)
  {
    var c' := c[i := x];
    forall e | e in c' ensures e.domain in Names(c) {
      var j :| 0 <= j < |c'| && c'[j] == e;
      assert e.domain == c[j].domain;
    }
    forall e | e in c ensures e.domain in Names(c') {
      var j :| 0 <= j < |c| && c[j] == e;
      assert e.domain == c'[j].domain;
    }
  }

  /** Merging keeps the strict entries in front, in their order, and never
    * lowers their score or confidence. */
  lemma {:induction false} MergeKeepsStrict(strict: seq<DomainScore>, loose: seq<DomainScore>)
    requires forall e :: e in loose ==> e.score >= 0.0
    ensures var r := MergeAll(strict, loose);
      |r| >= |strict| &&
      forall i :: 0 <= i < |strict| ==>
        r[i].domain == strict[i].domain && r[i].score >= strict[i].score && r[i].confidence >= strict[i].confidence
  {
    if |loose| > 0 {
      var pre := loose[..|loose| - 1];
      assert forall e :: e in pre ==> e in loose;
      MergeKeepsStrict(strict, pre);
      assert loose[|loose| - 1] in loose;
    }
  }

  /** The merge loop of `_classify_clinical_domain_dual`. */
  method MergePasses(strict: seq<DomainScore>, loose: seq<DomainScore>) returns (combined: seq<DomainScore>)
    ensures combined == MergeAll(strict, loose)
  {
    combined := strict;
    var j := 0;
    while j < |loose|
      invariant 0 <= j <= |loose|
      invariant combined == MergeAll(strict, loose[..j])
    {
      assert loose[..j + 1][..j] == loose[..j];
      var l := loose[j];
      var i := IndexOfDomain(combined, l.domain);
      if i.Some? {
        combined := combined[i.value := Combine(combined[i.value], l)];
      } else {
        combined := combined + [l];
      }
      j := j + 1;
    }
    assert loose[..|loose|] == loose;
  }

  // ---- _validate_domain_matches ----

  const SpecificLab: seq<string> :=
    ["hematology", "chemistry", "urinalysis", "glucose", "hemoglobin",
     "creatinine", "alt", "ast", "bilirubin", "wbc", "platelet",
     "lab values", "lab results", "laboratory results"]

  const SpecificAdverseEvents: seq<string> :=
    ["adverse event", "serious adverse", "treatment emergent", "sae", "teae",
     "system organ class", "preferred term", "toxicity"]

  const SpecificDemographics: seq<string> :=
    ["baseline characteristics", "demographics", "age", "sex", "race",
     "weight", "height", "bmi"]

  /** Which domain-specific terms the text holds. */
  datatype SpecificTerms = SpecificTerms(lab: bool, adverseEvents: bool, demographics: bool)

  function SpecificTermsIn(textLower: string): SpecificTerms {
    SpecificTerms(
      CountContained(textLower, SpecificLab) > 0,
      CountContained(textLower, SpecificAdverseEvents) > 0,
      CountContained(textLower, SpecificDemographics) > 0)
  }

  /** The validation multiplier of one entry (the title rule needs metadata,
    * which the classifier is never given). */
  function Multiplier(e: DomainScore, specific: SpecificTerms, wordCount: nat): real {
    var domainRule :=
      if e.domain == "laboratory" then
        var generic := "laboratory" in e.keywords || "lab" in e.keywords;
        if !specific.lab && generic then 0.3 else if specific.lab then 1.2 else 1.0
      else if e.domain == "adverse_events" then
        if !specific.adverseEvents && |e.keywords| < 3 then 0.7 else 1.0
      else if e.domain == "demographics" then
        if !specific.demographics && |e.keywords| < 2 then 0.5 else 1.0
      else 1.0;
    if wordCount < 20 && |e.keywords| > 3 then domainRule * 0.6 else domainRule
  }

  function Validated(e: DomainScore, specific: SpecificTerms, wordCount: nat): Option<DomainScore> {
    var mult := Multiplier(e, specific, wordCount);
    var confidence := MinReal(e.confidence * mult, 1.0);
    if confidence > 0.2 then Some(DomainScore(e.domain, e.score * mult, e.keywords, confidence, e.uniqueMatches))
    else None
  }

  function ValidateAll(es: seq<DomainScore>, specific: SpecificTerms, wordCount: nat): seq<DomainScore> {
    if |es| == 0 then []
    else
      var r := ValidateAll(es[..|es| - 1], specific, wordCount);
      var v := Validated(es[|es| - 1], specific, wordCount);
      if v.Some? then r + [v.value] else r
  }

  /** The multiplier is one of the products of the rule factors, so it lies
    * between 0.18 and 1.2. */
  lemma MultiplierBounds(e: DomainScore, specific: SpecificTerms, wordCount: nat)
    ensures 0.18 <= Multiplier(e, specific, wordCount) <= 1.2
  {
  }

  /** Every surviving entry keeps its domain and keywords, has a confidence
    * in (0.2, 1] and comes from an entry of the input. */
  lemma {:induction false} ValidateFacts(es: seq<DomainScore>, specific: SpecificTerms, wordCount: nat)
    ensures forall v :: v in ValidateAll(es, specific, wordCount) ==>
      0.2 < v.confidence <= 1.0 &&
      exists e :: e in es && v.domain == e.domain && v.keywords == e.keywords
    ensures |ValidateAll(es, specific, wordCount)| <= |es|
  {
    if |es| > 0 {
      var pre := es[..|es| - 1];
      ValidateFacts(pre, specific, wordCount);
      assert forall e :: e in pre ==> e in es;
      assert es[|es| - 1] in es;
    }
  }

  lemma ValidateAllStep(es: seq<DomainScore>, i: nat, specific: SpecificTerms, wordCount: nat)
    requires i < |es|
    ensures ValidateAll(es[..i + 1], specific, wordCount) ==
      ValidateAll(es[..i], specific, wordCount)
        + (var v := Validated(es[i], specific, wordCount); if v.Some? then [v.value] else [])
  {
    assert es[..i + 1][..i] == es[..i];
  }

  /** The validation loop. */
  method ValidateDomains(text: string, domains: seq<DomainScore>) returns (validated: seq<DomainScore>)
    ensures validated == ValidateAll(domains, SpecificTermsIn(Lower(text)), |Words(text)|)
  {
    var specific := SpecificTermsIn(Lower(text));
    var wordCount := |Words(text)|;
    validated := [];
    var i := 0;
    while i < |domains|
      invariant 0 <= i <= |domains|
      invariant validated == ValidateAll(domains[..i], specific, wordCount)
    {
      ValidateAllStep(domains, i, specific, wordCount);
      var v := Validated(domains[i], specific, wordCount);
      if v.Some? {
        validated := validated + [v.value];
      }
      i := i + 1;
    }
    assert domains[..|domains|] == domains;
  }

  // ---- primary domain ----

  /** `(confidence, score)` compared lexicographically. */
  predicate Outranks(a: DomainScore, b: DomainScore) {
    a.confidence > b.confidence || (a.confidence == b.confidence && a.score > b.score)
  }

  /** The head of the stable descending sort: the first entry that nothing
    * outranks. */
  function Best(es: seq<DomainScore>): Option<DomainScore> {
    if |es| == 0 then None
    else
      var b := Best(es[..|es| - 1]);
      var e := es[|es| - 1];
      if b.None? || Outranks(e, b.value) then Some(e) else b
  }

  /** The entry picked is outranked by none, and it outranks every entry
    * before it: on a tie of `(confidence, score)` the earliest entry wins,
    * as the head of the stable sort does. */
  lemma {:induction false} BestFacts(es: seq<DomainScore>)
    ensures Best(es).None? <==> |es| == 0
    ensures Best(es).Some? ==> Best(es).value in es && forall e :: e in es ==> !Outranks(e, Best(es).value)
    ensures Best(es).Some? ==> FirstBestAt(es, Best(es).value)
  {
    if |es| > 0 {
      var pre := es[..|es| - 1];
      var last := es[|es| - 1];
      BestFacts(pre);
      assert forall e :: e in es <==> e in pre || e == last;
      var b := Best(pre);
      if b.None? || Outranks(last, b.value) {
        forall j | 0 <= j < |es| - 1 ensures Outranks(last, es[j]) {
          assert es[j] == pre[j] && pre[j] in pre;
          assert !Outranks(es[j], b.value);
        }
        assert es[|es| - 1] == last;
      } else {
        var i :| 0 <= i < |pre| && pre[i] == b.value && forall j :: 0 <= j < i ==> Outranks(b.value, pre[j]);
        assert es[i] == pre[i];
        forall j | 0 <= j < i ensures Outranks(b.value, es[j]) {
          assert es[j] == pre[j];
        }
      }
    }
  }

  /** `e` sits at some position of `es` and outranks every entry before it. */
  ghost predicate FirstBestAt(es: seq<DomainScore>, e: DomainScore) {
    exists i :: 0 <= i < |es| && es[i] == e && forall j :: 0 <= j < i ==> Outranks(e, es[j])
  }

  // ---- _classify_clinical_domain_dual ----

  datatype DomainResult = DomainResult(
    primary: Option<string>,
    confidence: real,
    all: seq<DomainScore>,
    keywords: seq<string>)

  const TocDomainResult: DomainResult :=
    DomainResult(Some("table_of_contents"), 0.95,
      [DomainScore("table_of_contents", 100.0, ["table of contents"], 0.95, 1)], ["table of contents"])

  function ClassifyFrom(all: seq<DomainScore>): DomainResult {
    var best := Best(all);
    if best.Some? then DomainResult(Some(best.value.domain), best.value.confidence, all, best.value.keywords)
    else DomainResult(None, 0.0, all, [])
  }

  /** The classification, with the keyword test as written or corrected. */
  function ClassifyDomains(m: Matchers, table: seq<DomainKeywords>, text: string, corrected: bool): DomainResult {
    if IsTableOfContents(m, text) then TocDomainResult
    else
      var textLower := Lower(text);
      var strict := PassScores(m, textLower, table, true, corrected);
      var loose := PassScores(m, textLower, table, false, corrected);
      ClassifyFrom(ValidateAll(MergeAll(strict, loose), SpecificTermsIn(textLower), |Words(text)|))
  }

  /** `_classify_clinical_domain_dual`, with the corrected keyword test. */
  method ClassifyDomainsDual(m: Matchers, table: seq<DomainKeywords>, text: string) returns (r: DomainResult)
    ensures r == ClassifyDomains(m, table, text, true)
  {
    if IsTableOfContents(m, text) {
      return TocDomainResult;
    }
    var strict := ScorePass(m, table, text, true, true);
    var loose := ScorePass(m, table, text, false, true);
    var combined := MergePasses(strict, loose);
    var validated := ValidateDomains(text, combined);
    r := ClassifyFrom(validated);
  }

  /** The primary domain is a validated entry that no other outranks and
    * that outranks every entry before it (the first of any tie), with a
    * confidence in (0.2, 1]; there is none only when no domain survived
    * validation. */
  lemma ClassifyFacts(m: Matchers, table: seq<DomainKeywords>, text: string, corrected: bool)
    ensures var r := ClassifyDomains(m, table, text, corrected);
      && (IsTableOfContents(m, text) ==> r == TocDomainResult)
      && (!IsTableOfContents(m, text) ==>
            && (r.primary.None? <==> |r.all| == 0)
            && (r.primary.None? ==> r.confidence == 0.0)
            && (r.primary.Some? ==>
                  0.2 < r.confidence <= 1.0 &&
                  exists e :: e in r.all && e.domain == r.primary.value && e.confidence == r.confidence
                    && (forall o :: o in r.all ==> !Outranks(o, e))
                    && FirstBestAt(r.all, e)))
  {
    if !IsTableOfContents(m, text) {
      var textLower := Lower(text);
      var merged := MergeAll(PassScores(m, textLower, table, true, corrected), PassScores(m, textLower, table, false, corrected));
      var all := ValidateAll(merged, SpecificTermsIn(textLower), |Words(text)|);
      BestFacts(all);
      ValidateFacts(merged, SpecificTermsIn(textLower), |Words(text)|);
    }
  }

  // ---- the keyword test as written ----

  /** As written, a keyword holding a backslash but no `\b` is compared
    * literally, backslash included, so in a text without a backslash it
    * never scores in either pass. */
  lemma AsWrittenBackslashKeywordNeverScores(m: Matchers, textLower: string, k: string, strict: bool)
    requires '\\' in k && !IsRegexAsWritten(k) && '\\' !in textLower
    ensures Gain(m, textLower, k, strict, false) == 0.0
  {
    if BoundedCount(textLower, k, 0) > 0 {
      BoundedHitIsSubstring(textLower, k, 0);
      ContainsOnlyOwnChars(textLower, k, '\\');
    }
    if Contains(textLower, Lower(k)) {
      var i :| 0 <= i < |k| && k[i] == '\\';
      assert Lower(k)[i] == '\\';
      ContainsOnlyOwnChars(textLower, Lower(k), '\\');
    }
  }

  /** `adverse\s+event` is the first adverse-event keyword. */
  lemma AdverseEventKeywordInTable()
    ensures DomainTable[1].name == "adverse_events" && DomainTable[1].keywords[0] == AdverseEventKeyword
  {
  }

  const AdverseEventKeyword: string := "adverse\\s+event"

  /** As written, a keyword with no `b`, no `[` and no `r"` prefix is
    * compared literally, whatever regex syntax it holds. */
  lemma LiteralAsWritten(k: string)
    requires 'b' !in k && '[' !in k && !StartsWith(k, "r\"")
    ensures !IsRegex(k, false)
  {
    if Contains(k, "\\b") {
      ContainsOnlyOwnChars(k, "\\b", 'b');
    }
    if Contains(k, "[") {
      ContainsOnlyOwnChars(k, "[", '[');
    }
  }

  /** `adverse\s+event` holds a backslash but no `b`, `[` or `r"` prefix, so
    * `LiteralAsWritten` and `AsWrittenBackslashKeywordNeverScores` apply to
    * it. */
  lemma AdverseEventKeywordShape()
    ensures '\\' in AdverseEventKeyword
    ensures 'b' !in AdverseEventKeyword && '[' !in AdverseEventKeyword && !StartsWith(AdverseEventKeyword, "r\"")
  {
    assert AdverseEventKeyword[7] == '\\';
    assert AdverseEventKeyword[..2][0] == 'a';
  }

  /** The corrected test sends `adverse\s+event` to the regex engine. */
  lemma AdverseEventKeywordRegexCorrected()
    ensures IsRegex(AdverseEventKeyword, true)
  {
    var k := AdverseEventKeyword;
    assert k[7] == '\\';
    RegexCharIsRegex(k, 7);
  }

  /** With the corrected test, a keyword is compared literally only when it
    * holds no regex character at all. */
  lemma CorrectedLiteralKeywordsArePlain(k: string)
    requires !IsRegex(k, true)
    ensures forall i :: 0 <= i < |k| ==> k[i] !in RegexSyntax
  {
    forall i | 0 <= i < |k| ensures k[i] !in RegexSyntax {
      if k[i] in RegexSyntax {
        RegexCharIsRegex(k, i);
      }
    }
  }
}
