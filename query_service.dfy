// backend/app/services/query_service.py: the confidence filter and top-k cut
// on retrieved chunks, the metadata filter builder, the per-answer source
// summary, and the bounded per-document query history.

module QueryService {
  import opened Common
  import Sorting

  // ---- retrieved chunks and the confidence filter ----

  /** The metadata of a retrieved chunk as the filter and the source summary
    * read it; a missing key is `None`. */
  datatype ChunkMeta = ChunkMeta(
    tlfType: Option<string>,
    outputNumber: Option<string>,
    title: Option<string>,
    currentPage: Option<int>,
    overallConfidence: Option<real>,
    domainConfidence: Option<real>)

  /** A retrieval hit: the chunk's metadata and its relevance score. */
  datatype Retrieved = Retrieved(meta: ChunkMeta, score: real)

  /** The larger of the two confidences, each defaulting to 1.0. */
  function BestConfidence(r: Retrieved): real {
    MaxReal(r.meta.overallConfidence.GetOr(1.0), r.meta.domainConfidence.GetOr(1.0))
  }

  predicate Passes(r: Retrieved, minConfidence: real) {
    BestConfidence(r) >= minConfidence
  }

  /** The survivors of the filter loop, in retrieval order. */
  function Kept(results: seq<Retrieved>, minConfidence: real): (k: seq<Retrieved>)
    ensures |k| <= |results|
    ensures forall x :: x in k <==> x in results && Passes(x, minConfidence)
  {
    if |results| == 0 then []
    else
      var rest := Kept(results[..|results| - 1], minConfidence);
      var last := results[|results| - 1];
      assert forall x :: x in results <==> x in results[..|results| - 1] || x == last;
      if Passes(last, minConfidence) then rest + [last] else rest
  }

  function Score(r: Retrieved): real { r.score }

  /** The filter, sort and cut that end `_retrieve_relevant_chunks`. */
  method FilterAndRank(results: seq<Retrieved>, minConfidence: real, topK: nat) returns (ranked: seq<Retrieved>)
    ensures ranked == Ranked(results, minConfidence, topK)
    ensures |ranked| == Min(topK, |Kept(results, minConfidence)|)
    ensures forall x :: x in ranked ==> x in results && Passes(x, minConfidence)
    ensures Sorting.SortedDesc(ranked, Score)
  {
    var filtered: seq<Retrieved> := [];
    for i := 0 to |results|
      invariant filtered == Kept(results[..i], minConfidence)
    {
      assert results[..i + 1][..i] == results[..i];
      if BestConfidence(results[i]) >= minConfidence {
        filtered := filtered + [results[i]];
      }
    }
    assert results[..|results|] == results;
    ranked := Sorting.SortDesc(filtered, Score);
    if topK <= |ranked| {
      ranked := ranked[..topK];
    }
    RankedFacts(results, minConfidence, topK);
  }

  /** The best `topK` of the sorted survivors. */
  function Ranked(results: seq<Retrieved>, minConfidence: real, topK: nat): seq<Retrieved> {
    var sorted := Sorting.SortDesc(Kept(results, minConfidence), Score);
    if topK <= |sorted| then sorted[..topK] else sorted
  }

  /** The ranked hits all pass the filter, come sorted by score, and are
    * drawn from the survivors without repetition beyond theirs. */
  lemma RankedFacts(results: seq<Retrieved>, minConfidence: real, topK: nat)
    ensures |Ranked(results, minConfidence, topK)| == Min(topK, |Kept(results, minConfidence)|)
    ensures forall x :: x in Ranked(results, minConfidence, topK) ==> x in results && Passes(x, minConfidence)
    ensures Sorting.SortedDesc(Ranked(results, minConfidence, topK), Score)
    ensures multiset(Ranked(results, minConfidence, topK)) <= multiset(Kept(results, minConfidence))
  {
    var filtered := Kept(results, minConfidence);
    var sorted := Sorting.SortDesc(filtered, Score);
    Sorting.SortDescSorted(filtered, Score);
    var ranked := Ranked(results, minConfidence, topK);
    assert sorted == ranked + sorted[|ranked|..];
    assert multiset(sorted) == multiset(ranked) + multiset(sorted[|ranked|..]);
    forall x | x in ranked ensures x in results && Passes(x, minConfidence) {
      assert x in multiset(sorted);
      assert x in filtered;
    }
  }

  // ---- _build_metadata_filters ----

  /** The optional filter lists a query may carry; `studyIds` and `compounds`
    * stand for the attributes the builder probes with `hasattr`, absent
    * (`None`) on the request model. */
  datatype QueryFilters = QueryFilters(
    tlfTypes: Option<seq<string>>,
    clinicalDomains: Option<seq<string>>,
    outputNumbers: Option<seq<string>>,
    populations: Option<seq<string>>,
    studyIds: Option<seq<string>>,
    compounds: Option<seq<string>>)

  /** The metadata keys a filter can constrain. */
  datatype FilterKey = TlfTypeKey | ClinicalDomainKey | OutputNumberKey | PopulationKey | StudyIdKey | CompoundKey
  {
    /** The metadata key name, as stored on the nodes. */
    function Name(): string {
      match this
      case TlfTypeKey => "tlf_type"
      case ClinicalDomainKey => "clinical_domain"
      case OutputNumberKey => "output_number"
      case PopulationKey => "population"
      case StudyIdKey => "study_id"
      case CompoundKey => "compound"
    }

    /** The position at which the builder visits this key. */
    function Rank(): nat {
      match this
      case TlfTypeKey => 0
      case ClinicalDomainKey => 1
      case OutputNumberKey => 2
      case PopulationKey => 3
      case StudyIdKey => 4
      case CompoundKey => 5
    }
  }

  datatype MetadataFilter = MetadataFilter(key: FilterKey, value: seq<string>, operator: string)

  datatype FilterCondition = And

  datatype MetadataFilters = MetadataFilters(filters: seq<MetadataFilter>, condition: FilterCondition)

  /** The keys in the order the builder visits them. */
  const FilterKeys: seq<FilterKey> := [TlfTypeKey, ClinicalDomainKey, OutputNumberKey, PopulationKey, StudyIdKey, CompoundKey]

  /** The list a query carries for a key. */
  function FieldOf(f: QueryFilters, key: FilterKey): Option<seq<string>>
  {
    match key
    case TlfTypeKey => f.tlfTypes
    case ClinicalDomainKey => f.clinicalDomains
    case OutputNumberKey => f.outputNumbers
    case PopulationKey => f.populations
    case StudyIdKey => f.studyIds
    case CompoundKey => f.compounds
  }

  /** Python truthiness of an optional list. */
  predicate NonEmpty(v: Option<seq<string>>) { v.Some? && |v.value| > 0 }

  /** The filters for `keys`, in order: one `in` filter per key whose list
    * is non-empty. */
  function Collected(f: QueryFilters, keys: seq<FilterKey>): seq<MetadataFilter>
    decreases |keys|
  {
    if |keys| == 0 then []
    else
      Collected(f, keys[..|keys| - 1]) + FilterFor(f, keys[|keys| - 1])
  }

  /** Filter `m` is an `in` filter carrying the non-empty list of its key. */
  predicate FiltersField(f: QueryFilters, m: MetadataFilter) {
    NonEmpty(FieldOf(f, m.key)) && m == MetadataFilter(m.key, FieldOf(f, m.key).value, "in")
  }

  /** Some filter of `fl` is for `key`. */
  predicate HasFilterFor(fl: seq<MetadataFilter>, key: FilterKey) {
    exists i :: 0 <= i < |fl| && fl[i].key == key
  }

  /** The filters are for keys visited before the `k`-th, carry their
    * lists, and are in visiting order. */
  predicate FiltersRanked(f: QueryFilters, fl: seq<MetadataFilter>, k: nat) {
    && (forall i :: 0 <= i < |fl| ==> fl[i].key.Rank() < k && FiltersField(f, fl[i]))
    && (forall i, j :: 0 <= i < j < |fl| ==> fl[i].key.Rank() < fl[j].key.Rank())
  }

  /** Each key visited before the `k`-th has a filter exactly when its list
    * is non-empty. */
  predicate KeysCovered(f: QueryFilters, fl: seq<MetadataFilter>, k: nat) {
    forall key: FilterKey :: key.Rank() < k ==> (NonEmpty(FieldOf(f, key)) <==> HasFilterFor(fl, key))
  }

  /** What the filters collected from the first `k` keys satisfy. */
  predicate CollectedUpTo(f: QueryFilters, fl: seq<MetadataFilter>, k: nat) {
    FiltersRanked(f, fl, k) && KeysCovered(f, fl, k)
  }

  /** The filter, if any, that key `key` adds. */
  function FilterFor(f: QueryFilters, key: FilterKey): seq<MetadataFilter> {
    var field := FieldOf(f, key);
    if NonEmpty(field) then [MetadataFilter(key, field.value, "in")] else []
  }

  lemma RankedStep(f: QueryFilters, fl: seq<MetadataFilter>, key: FilterKey)
    requires FiltersRanked(f, fl, key.Rank())
    ensures FiltersRanked(f, fl + FilterFor(f, key), key.Rank() + 1)
  {
  }

  lemma HasFilterForAppend(fl: seq<MetadataFilter>, extra: seq<MetadataFilter>, key: FilterKey)
    ensures HasFilterFor(fl + extra, key) <==> HasFilterFor(fl, key) || HasFilterFor(extra, key)
  {
    var l := fl + extra;
    if HasFilterFor(l, key) {
      var i :| 0 <= i < |l| && l[i].key == key;
      if i >= |fl| {
        assert extra[i - |fl|].key == key;
      }
    }
    if HasFilterFor(extra, key) {
      var i :| 0 <= i < |extra| && extra[i].key == key;
      assert l[|fl| + i].key == key;
    }
    if HasFilterFor(fl, key) {
      var i :| 0 <= i < |fl| && fl[i].key == key;
      assert l[i].key == key;
    }
  }

  lemma CoveredStep(f: QueryFilters, fl: seq<MetadataFilter>, key: FilterKey)
    requires FiltersRanked(f, fl, key.Rank()) && KeysCovered(f, fl, key.Rank())
    ensures KeysCovered(f, fl + FilterFor(f, key), key.Rank() + 1)
  {
    var extra := FilterFor(f, key);
    forall key': FilterKey | key'.Rank() < key.Rank() + 1
      ensures NonEmpty(FieldOf(f, key')) <==> HasFilterFor(fl + extra, key')
    {
      HasFilterForAppend(fl, extra, key');
      if key'.Rank() < key.Rank() {
        assert forall i :: 0 <= i < |extra| ==> extra[i].key == key;
        assert !HasFilterFor(extra, key');
      } else {
        assert key' == key;
        assert !HasFilterFor(fl, key);
        if NonEmpty(FieldOf(f, key)) {
          assert extra[0].key == key;
        }
      }
    }
  }

  lemma {:induction false} CollectedFacts(f: QueryFilters, k: nat)
    requires k <= |FilterKeys|
    ensures CollectedUpTo(f, Collected(f, FilterKeys[..k]), k)
  {
    if k > 0 {
      CollectedFacts(f, k - 1);
      assert FilterKeys[..k][..k - 1] == FilterKeys[..k - 1];
      var key := FilterKeys[k - 1];
      assert key.Rank() == k - 1;
      RankedStep(f, Collected(f, FilterKeys[..k - 1]), key);
      CoveredStep(f, Collected(f, FilterKeys[..k - 1]), key);
    }
  }

  /** `_build_metadata_filters`: one `in` filter per non-empty list, in the
    * order type, domain, number, population, study, compound; none at all
    * when there are no filters or every list is empty. */
  function BuildMetadataFilters(filters: Option<QueryFilters>): Option<MetadataFilters> {
    if filters.None? then None
    else
      var fl := Collected(filters.value, FilterKeys);
      if |fl| == 0 then None else Some(MetadataFilters(fl, And))
  }

  /** The collected filters hold a filter for a key exactly when its list
    * is non-empty. */
  lemma CollectedAllKeys(f: QueryFilters)
    ensures var fl := Collected(f, FilterKeys);
      && CollectedUpTo(f, fl, |FilterKeys|)
      && forall key: FilterKey :: NonEmpty(FieldOf(f, key)) <==> HasFilterFor(fl, key)
  {
    CollectedFacts(f, |FilterKeys|);
    assert FilterKeys[..|FilterKeys|] == FilterKeys;
    var fl := Collected(f, FilterKeys);
    forall key: FilterKey ensures NonEmpty(FieldOf(f, key)) <==> HasFilterFor(fl, key) {
      assert key.Rank() < |FilterKeys|;
    }
  }

  /** No filters are built exactly when there are no filters or every list
    * is empty. */
  lemma BuildMetadataFiltersNone(filters: Option<QueryFilters>)
    ensures BuildMetadataFilters(filters).None? <==>
      filters.None? || forall key: FilterKey :: !NonEmpty(FieldOf(filters.value, key))
  {
    if filters.Some? {
      var f := filters.value;
      CollectedAllKeys(f);
      var fl := Collected(f, FilterKeys);
      if |fl| > 0 {
        assert FiltersField(f, fl[0]);
      } else {
        assert forall key: FilterKey :: !HasFilterFor(fl, key);
      }
    }
  }

  /** Otherwise they are an `and` of one `in` filter carrying its list for
    * each non-empty list, in the visiting order. */
  lemma BuildMetadataFiltersFacts(filters: Option<QueryFilters>)
    ensures var r := BuildMetadataFilters(filters);
      r.Some? ==>
        && r.value.condition == And
        && (forall i :: 0 <= i < |r.value.filters| ==> FiltersField(filters.value, r.value.filters[i]))
        && (forall key: FilterKey :: NonEmpty(FieldOf(filters.value, key)) <==> HasFilterFor(r.value.filters, key))
        && (forall i, j :: 0 <= i < j < |r.value.filters| ==> r.value.filters[i].key.Rank() < r.value.filters[j].key.Rank())
  {
    if filters.Some? {
      CollectedAllKeys(filters.value);
    }
  }

  // ---- _extract_sources ----

  /** One entry of the answer's source list. */
  datatype QuerySource = QuerySource(
    outputType: string,
    outputNumber: string,
    title: string,
    pageNumber: Option<int>,
    confidence: real,
    chunkCount: nat)

  function TypeOf(m: ChunkMeta): string { if Truthy(m.tlfType) then m.tlfType.value else "Unknown" }

  function NumberOf(m: ChunkMeta): string { if Truthy(m.outputNumber) then m.outputNumber.value else "Unknown" }

  function TitleOf(m: ChunkMeta): string { if Truthy(m.title) then m.title.value else "No title" }

  function ConfOf(m: ChunkMeta): real { m.overallConfidence.GetOr(0.0) }

  /** The `"type number"` key a result is summarised under. */
  function SourceId(m: ChunkMeta): string { TypeOf(m) + " " + NumberOf(m) }

  function SourceKey(s: QuerySource): string { s.outputType + " " + s.outputNumber }

  /** How many results fall under `key`. */
  function CountKey(rs: seq<ChunkMeta>, key: string): nat {
    if |rs| == 0 then 0
    else CountKey(rs[..|rs| - 1], key) + (if SourceId(rs[|rs| - 1]) == key then 1 else 0)
  }

  function SumChunks(keys: seq<string>, summary: map<string, QuerySource>): nat
    requires forall k :: k in keys ==> k in summary
  {
    if |keys| == 0 then 0 else summary[keys[0]].chunkCount + SumChunks(keys[1..], summary)
  }

  function NewSource(m: ChunkMeta): QuerySource {
    QuerySource(TypeOf(m), NumberOf(m), TitleOf(m), m.currentPage, ConfOf(m), 0)
  }

  /** One iteration of the summary loop. */
  function AddResult(keys: seq<string>, summary: map<string, QuerySource>, m: ChunkMeta)
    : (seq<string>, map<string, QuerySource>)
  {
    var id := SourceId(m);
    var base := if id in summary then summary[id] else NewSource(m);
    (if id in summary then keys else keys + [id],
     summary[id := base.(chunkCount := base.chunkCount + 1, confidence := MaxReal(base.confidence, ConfOf(m)))])
  }

  /** The dict built by the loop, with its keys in insertion order. */
  function Summarize(rs: seq<ChunkMeta>): (seq<string>, map<string, QuerySource>)
  {
    if |rs| == 0 then ([], map[])
    else
      var prev := Summarize(rs[..|rs| - 1]);
      AddResult(prev.0, prev.1, rs[|rs| - 1])
  }

  /** Some result is summarised under `k`. */
  ghost predicate Seen(rs: seq<ChunkMeta>, k: string) {
    exists i :: 0 <= i < |rs| && SourceId(rs[i]) == k
  }

  /** No result summarised under `k` has a confidence above `c`. */
  ghost predicate Bounds(rs: seq<ChunkMeta>, k: string, c: real) {
    forall i :: 0 <= i < |rs| && SourceId(rs[i]) == k ==> ConfOf(rs[i]) <= c
  }

  /** Some result summarised under `k` has confidence `c`. */
  ghost predicate Attains(rs: seq<ChunkMeta>, k: string, c: real) {
    exists i :: 0 <= i < |rs| && SourceId(rs[i]) == k && ConfOf(rs[i]) == c
  }

  /** Result `i` is the first one summarised under `k`, and `src` carries its
    * title and page. */
  ghost predicate FirstResult(rs: seq<ChunkMeta>, i: nat, k: string, src: QuerySource) {
    && i < |rs| && SourceId(rs[i]) == k
    && (forall j :: 0 <= j < i ==> SourceId(rs[j]) != k)
    && src.title == TitleOf(rs[i]) && src.pageNumber == rs[i].currentPage
  }

  ghost predicate HasFirst(rs: seq<ChunkMeta>, k: string, src: QuerySource) {
    exists i: nat :: FirstResult(rs, i, k, src)
  }

  /** The keys are distinct, in step with the dict, and are exactly the keys
    * of the results seen; each source is filed under its own key. */
  ghost predicate KeyFacts(rs: seq<ChunkMeta>, keys: seq<string>, summary: map<string, QuerySource>) {
    && (forall i, j :: 0 <= i < j < |keys| ==> keys[i] != keys[j])
    && (forall k :: k in keys <==> k in summary)
    && (forall k :: k in summary <==> Seen(rs, k))
    && (forall k :: k in summary ==> SourceKey(summary[k]) == k)
  }

  /** Each source counts its results, and the counts add up to all results. */
  ghost predicate CountFacts(rs: seq<ChunkMeta>, keys: seq<string>, summary: map<string, QuerySource>)
    requires forall k :: k in keys ==> k in summary
  {
    && (forall k :: k in summary ==> summary[k].chunkCount == CountKey(rs, k))
    && SumChunks(keys, summary) == |rs|
  }

  /** Each source's confidence is the largest among its results. */
  ghost predicate ConfidenceFacts(rs: seq<ChunkMeta>, summary: map<string, QuerySource>) {
    forall k :: k in summary ==> Bounds(rs, k, summary[k].confidence) && Attains(rs, k, summary[k].confidence)
  }

  /** Each source's title and page come from its first result. */
  ghost predicate FirstFacts(rs: seq<ChunkMeta>, summary: map<string, QuerySource>) {
    forall k :: k in summary ==> HasFirst(rs, k, summary[k])
  }

  lemma SumChunksUpdate(keys: seq<string>, summary: map<string, QuerySource>, id: string, v: QuerySource)
    requires forall k :: k in keys ==> k in summary
    requires forall i, j :: 0 <= i < j < |keys| ==> keys[i] != keys[j]
    requires id in keys
    ensures SumChunks(keys, summary[id := v]) + summary[id].chunkCount == SumChunks(keys, summary) + v.chunkCount
  {
    if keys[0] != id {
      SumChunksUpdate(keys[1..], summary, id, v);
    } else {
      SumChunksUnchanged(keys[1..], summary, id, v);
    }
  }

  lemma SumChunksUnchanged(keys: seq<string>, summary: map<string, QuerySource>, id: string, v: QuerySource)
    requires forall k :: k in keys ==> k in summary
    requires id !in keys
    ensures SumChunks(keys, summary[id := v]) == SumChunks(keys, summary)
  {
    if |keys| > 0 {
      SumChunksUnchanged(keys[1..], summary, id, v);
    }
  }

  lemma SumChunksAppend(keys: seq<string>, summary: map<string, QuerySource>, id: string)
    requires forall k :: k in keys ==> k in summary
    requires id in summary
    ensures SumChunks(keys + [id], summary) == SumChunks(keys, summary) + summary[id].chunkCount
  {
    if |keys| > 0 {
      assert (keys + [id])[1..] == keys[1..] + [id];
      SumChunksAppend(keys[1..], summary, id);
    }
  }

  /** Appending a result: how each per-key fact of the shorter list carries
    * over to the longer one. */
  lemma AppendSeen(rs: seq<ChunkMeta>, m: ChunkMeta, k: string)
    ensures Seen(rs + [m], k) <==> Seen(rs, k) || SourceId(m) == k
  {
    var rs' := rs + [m];
    assert rs'[|rs|] == m;
    if Seen(rs, k) {
      var i :| 0 <= i < |rs| && SourceId(rs[i]) == k;
      assert SourceId(rs'[i]) == k;
    }
    if Seen(rs', k) {
      var i :| 0 <= i < |rs'| && SourceId(rs'[i]) == k;
      if i < |rs| {
        assert rs'[i] == rs[i];
      }
    }
  }

  lemma AppendCount(rs: seq<ChunkMeta>, m: ChunkMeta, k: string)
    ensures CountKey(rs + [m], k) == CountKey(rs, k) + (if SourceId(m) == k then 1 else 0)
  {
    assert (rs + [m])[..|rs|] == rs;
  }

  lemma AppendBounds(rs: seq<ChunkMeta>, m: ChunkMeta, k: string, c: real)
    ensures Bounds(rs + [m], k, c) <==> Bounds(rs, k, c) && (SourceId(m) == k ==> ConfOf(m) <= c)
  {
    var rs' := rs + [m];
    assert rs'[|rs|] == m;
    if Bounds(rs, k, c) && (SourceId(m) == k ==> ConfOf(m) <= c) {
      forall i | 0 <= i < |rs'| && SourceId(rs'[i]) == k ensures ConfOf(rs'[i]) <= c {
        if i < |rs| {
          assert rs'[i] == rs[i];
        }
      }
    }
    if Bounds(rs', k, c) {
      forall i | 0 <= i < |rs| && SourceId(rs[i]) == k ensures ConfOf(rs[i]) <= c {
        assert rs'[i] == rs[i];
      }
    }
  }

  lemma AppendAttains(rs: seq<ChunkMeta>, m: ChunkMeta, k: string, c: real)
    ensures Attains(rs, k, c) ==> Attains(rs + [m], k, c)
    ensures SourceId(m) == k ==> Attains(rs + [m], k, ConfOf(m))
  {
    var rs' := rs + [m];
    assert rs'[|rs|] == m;
    if Attains(rs, k, c) {
      var i :| 0 <= i < |rs| && SourceId(rs[i]) == k && ConfOf(rs[i]) == c;
      assert rs'[i] == rs[i];
    }
  }

  lemma AppendFirst(rs: seq<ChunkMeta>, m: ChunkMeta, k: string, src: QuerySource)
    ensures HasFirst(rs, k, src) ==> HasFirst(rs + [m], k, src)
    ensures !Seen(rs, k) && SourceId(m) == k && src.title == TitleOf(m) && src.pageNumber == m.currentPage
      ==> HasFirst(rs + [m], k, src)
  {
    var rs' := rs + [m];
    assert rs'[|rs|] == m;
    if HasFirst(rs, k, src) {
      var i: nat :| FirstResult(rs, i, k, src);
      assert FirstResult(rs', i, k, src);
    }
    if !Seen(rs, k) && SourceId(m) == k && src.title == TitleOf(m) && src.pageNumber == m.currentPage {
      assert FirstResult(rs', |rs|, k, src);
    }
  }

  /** One iteration of the summary loop keeps the key facts. */
  lemma KeyStep(rs: seq<ChunkMeta>, keys: seq<string>, summary: map<string, QuerySource>, m: ChunkMeta)
    requires KeyFacts(rs, keys, summary)
    ensures KeyFacts(rs + [m], AddResult(keys, summary, m).0, AddResult(keys, summary, m).1)
  {
    var id := SourceId(m);
    var keys' := AddResult(keys, summary, m).0;
    var summary' := AddResult(keys, summary, m).1;
    assert summary'.Keys == summary.Keys + {id};
    assert forall k :: k in summary' && k != id ==> summary'[k] == summary[k];
    assert SourceKey(summary'[id]) == id by {
      if id in summary {
        assert SourceKey(summary[id]) == id;
      } else {
        assert SourceKey(NewSource(m)) == id;
      }
    }
    if id in summary {
      assert keys' == keys;
    } else {
      assert keys' == keys + [id];
      assert id !in keys;
    }
    forall k ensures k in summary' <==> Seen(rs + [m], k) {
      AppendSeen(rs, m, k);
    }
  }

  /** One iteration of the summary loop keeps the counts. */
  lemma CountStep(rs: seq<ChunkMeta>, keys: seq<string>, summary: map<string, QuerySource>, m: ChunkMeta)
    requires KeyFacts(rs, keys, summary) && CountFacts(rs, keys, summary)
    ensures KeyFacts(rs + [m], AddResult(keys, summary, m).0, AddResult(keys, summary, m).1)
    ensures CountFacts(rs + [m], AddResult(keys, summary, m).0, AddResult(keys, summary, m).1)
  {
    KeyStep(rs, keys, summary, m);
    PerKeyCountStep(rs, keys, summary, m);
    var id := SourceId(m);
    var summary' := AddResult(keys, summary, m).1;
    if id in summary {
      SumChunksUpdate(keys, summary, id, summary'[id]);
    } else {
      SumChunksUnchanged(keys, summary, id, summary'[id]);
      SumChunksAppend(keys, summary', id);
    }
  }

  lemma PerKeyCountStep(rs: seq<ChunkMeta>, keys: seq<string>, summary: map<string, QuerySource>, m: ChunkMeta)
    requires KeyFacts(rs, keys, summary)
    requires forall k :: k in summary ==> summary[k].chunkCount == CountKey(rs, k)
    ensures forall k :: k in AddResult(keys, summary, m).1 ==>
      AddResult(keys, summary, m).1[k].chunkCount == CountKey(rs + [m], k)
  {
    var summary' := AddResult(keys, summary, m).1;
    forall k | k in summary' ensures summary'[k].chunkCount == CountKey(rs + [m], k) {
      AppendCount(rs, m, k);
      if k !in summary {
        CountKeyUnseen(rs, k);
      }
    }
  }

  /** One iteration of the summary loop keeps the maximum confidences. */
  lemma ConfidenceStep(rs: seq<ChunkMeta>, keys: seq<string>, summary: map<string, QuerySource>, m: ChunkMeta)
    requires KeyFacts(rs, keys, summary) && ConfidenceFacts(rs, summary)
    ensures ConfidenceFacts(rs + [m], AddResult(keys, summary, m).1)
  {
    var id := SourceId(m);
    var summary' := AddResult(keys, summary, m).1;
    forall k | k in summary'
      ensures Bounds(rs + [m], k, summary'[k].confidence) && Attains(rs + [m], k, summary'[k].confidence)
    {
      var c := summary'[k].confidence;
      AppendBounds(rs, m, k, c);
      AppendAttains(rs, m, k, c);
      if k in summary {
        AppendBounds(rs, m, k, summary[k].confidence);
        AppendAttains(rs, m, k, summary[k].confidence);
        if k == id {
          BoundsWeaken(rs, k, summary[k].confidence, c);
        }
      } else {
        assert !Seen(rs, k);
        UnseenBounds(rs, k, c);
      }
    }
  }

  /** One iteration of the summary loop keeps the first results. */
  lemma FirstStep(rs: seq<ChunkMeta>, keys: seq<string>, summary: map<string, QuerySource>, m: ChunkMeta)
    requires KeyFacts(rs, keys, summary) && FirstFacts(rs, summary)
    ensures FirstFacts(rs + [m], AddResult(keys, summary, m).1)
  {
    var id := SourceId(m);
    var summary' := AddResult(keys, summary, m).1;
    forall k | k in summary' ensures HasFirst(rs + [m], k, summary'[k]) {
      if k in summary {
        assert summary'[k].title == summary[k].title && summary'[k].pageNumber == summary[k].pageNumber;
        FirstSameTitle(rs, k, summary[k], summary'[k]);
      }
      AppendFirst(rs, m, k, summary'[k]);
    }
  }

  lemma FirstSameTitle(rs: seq<ChunkMeta>, k: string, a: QuerySource, b: QuerySource)
    requires HasFirst(rs, k, a)
    requires a.title == b.title && a.pageNumber == b.pageNumber
    ensures HasFirst(rs, k, b)
  {
    var i: nat :| FirstResult(rs, i, k, a);
    assert FirstResult(rs, i, k, b);
  }

  lemma BoundsWeaken(rs: seq<ChunkMeta>, k: string, c: real, d: real)
    requires Bounds(rs, k, c) && c <= d
    ensures Bounds(rs, k, d)
  {
  }

  lemma UnseenBounds(rs: seq<ChunkMeta>, k: string, c: real)
    requires !Seen(rs, k)
    ensures Bounds(rs, k, c)
  {
    forall i | 0 <= i < |rs| && SourceId(rs[i]) == k ensures false {
      assert Seen(rs, k);
    }
  }

  lemma {:induction false} CountKeyUnseen(rs: seq<ChunkMeta>, k: string)
    requires !Seen(rs, k)
    ensures CountKey(rs, k) == 0
  {
    if |rs| > 0 {
      var pre := rs[..|rs| - 1];
      assert pre + [rs[|rs| - 1]] == rs;
      AppendSeen(pre, rs[|rs| - 1], k);
      CountKeyUnseen(pre, k);
    }
  }

  /** The summary loop, run over any results, keeps its keys in step. */
  lemma {:induction false} SummarizeKeys(rs: seq<ChunkMeta>)
    ensures KeyFacts(rs, Summarize(rs).0, Summarize(rs).1)
  {
    if |rs| > 0 {
      var pre := rs[..|rs| - 1];
      SummarizeKeys(pre);
      assert pre + [rs[|rs| - 1]] == rs;
      KeyStep(pre, Summarize(pre).0, Summarize(pre).1, rs[|rs| - 1]);
    }
  }

  /** The summary loop counts each key's results. */
  lemma {:induction false} SummarizeCounts(rs: seq<ChunkMeta>)
    ensures KeyFacts(rs, Summarize(rs).0, Summarize(rs).1)
    ensures CountFacts(rs, Summarize(rs).0, Summarize(rs).1)
  {
    if |rs| > 0 {
      var pre := rs[..|rs| - 1];
      SummarizeCounts(pre);
      assert pre + [rs[|rs| - 1]] == rs;
      CountStep(pre, Summarize(pre).0, Summarize(pre).1, rs[|rs| - 1]);
    }
  }

  /** The summary loop keeps each key's largest confidence. */
  lemma {:induction false} SummarizeConfidence(rs: seq<ChunkMeta>)
    ensures ConfidenceFacts(rs, Summarize(rs).1)
  {
    if |rs| > 0 {
      var pre := rs[..|rs| - 1];
      SummarizeConfidence(pre);
      SummarizeKeys(pre);
      assert pre + [rs[|rs| - 1]] == rs;
      ConfidenceStep(pre, Summarize(pre).0, Summarize(pre).1, rs[|rs| - 1]);
    }
  }

  /** The summary loop keeps each key's first title and page. */
  lemma {:induction false} SummarizeFirst(rs: seq<ChunkMeta>)
    ensures FirstFacts(rs, Summarize(rs).1)
  {
    if |rs| > 0 {
      var pre := rs[..|rs| - 1];
      SummarizeFirst(pre);
      SummarizeKeys(pre);
      assert pre + [rs[|rs| - 1]] == rs;
      FirstStep(pre, Summarize(pre).0, Summarize(pre).1, rs[|rs| - 1]);
    }
  }

  /** The source list: the summary's values in key insertion order. */
  function Sources(rs: seq<ChunkMeta>): seq<QuerySource> {
    var keys := Summarize(rs).0;
    var summary := Summarize(rs).1;
    SummarizeKeys(rs);
    seq(|keys|, j requires 0 <= j < |keys| => summary[keys[j]])
  }

  /** One source per distinct key, and every result's key has a source. */
  lemma SourcesKeys(rs: seq<ChunkMeta>)
    ensures forall i, j :: 0 <= i < j < |Sources(rs)| ==> SourceKey(Sources(rs)[i]) != SourceKey(Sources(rs)[j])
    ensures forall i :: 0 <= i < |rs| ==> exists j :: 0 <= j < |Sources(rs)| && SourceKey(Sources(rs)[j]) == SourceId(rs[i])
    ensures forall j :: 0 <= j < |Sources(rs)| ==> Seen(rs, SourceKey(Sources(rs)[j]))
  {
    SummarizeKeys(rs);
    var keys := Summarize(rs).0;
    var sources := Sources(rs);
    assert forall j :: 0 <= j < |sources| ==> SourceKey(sources[j]) == keys[j];
    forall i | 0 <= i < |rs|
      ensures exists j :: 0 <= j < |sources| && SourceKey(sources[j]) == SourceId(rs[i])
    {
      assert Seen(rs, SourceId(rs[i]));
      var j :| 0 <= j < |keys| && keys[j] == SourceId(rs[i]);
    }
  }

  /** Each source carries its results' count, and the counts add up to the
    * number of results. */
  lemma SourcesCounts(rs: seq<ChunkMeta>)
    ensures forall j :: 0 <= j < |Sources(rs)| ==> Sources(rs)[j].chunkCount == CountKey(rs, SourceKey(Sources(rs)[j]))
    ensures SumSourceChunks(Sources(rs)) == |rs|
  {
    SummarizeCounts(rs);
    SummarizeKeys(rs);
    var keys := Summarize(rs).0;
    var summary := Summarize(rs).1;
    var sources := Sources(rs);
    assert forall j :: 0 <= j < |sources| ==> sources[j] == summary[keys[j]];
    SumSourcesIsSumChunks(keys, summary);
  }

  /** No result of a source has a higher confidence than the source. */
  lemma SourcesConfidenceBounds(rs: seq<ChunkMeta>)
    ensures forall j :: 0 <= j < |Sources(rs)| ==> Bounds(rs, SourceKey(Sources(rs)[j]), Sources(rs)[j].confidence)
  {
    SummarizeConfidence(rs);
    SummarizeKeys(rs);
    var keys := Summarize(rs).0;
    var summary := Summarize(rs).1;
    var sources := Sources(rs);
    assert forall j :: 0 <= j < |sources| ==> sources[j] == summary[keys[j]];
  }

  /** Some result of a source has the source's confidence. */
  lemma SourcesConfidenceAttained(rs: seq<ChunkMeta>)
    ensures forall j :: 0 <= j < |Sources(rs)| ==> Attains(rs, SourceKey(Sources(rs)[j]), Sources(rs)[j].confidence)
  {
    SummarizeConfidence(rs);
    SummarizeKeys(rs);
    var keys := Summarize(rs).0;
    var summary := Summarize(rs).1;
    var sources := Sources(rs);
    assert forall j :: 0 <= j < |sources| ==> sources[j] == summary[keys[j]];
  }

  /** Each source's title and page are its first result's. */
  lemma SourcesFirst(rs: seq<ChunkMeta>)
    ensures forall j :: 0 <= j < |Sources(rs)| ==> HasFirst(rs, SourceKey(Sources(rs)[j]), Sources(rs)[j])
  {
    SummarizeFirst(rs);
    SummarizeKeys(rs);
    var keys := Summarize(rs).0;
    var summary := Summarize(rs).1;
    var sources := Sources(rs);
    assert forall j :: 0 <= j < |sources| ==> sources[j] == summary[keys[j]];
  }

  /** `_extract_sources`: one source per distinct `"type number"` key, in
    * first-seen order, with the chunk count and maximum confidence of its
    * results and the title and page of its first result. */
  method ExtractSources(results: seq<ChunkMeta>) returns (sources: seq<QuerySource>)
    ensures sources == Sources(results)
  {
    var keys: seq<string> := [];
    var summary: map<string, QuerySource> := map[];
    for i := 0 to |results|
      invariant (keys, summary) == Summarize(results[..i])
    {
      assert results[..i + 1][..i] == results[..i];
      var m := results[i];
      var id := SourceId(m);
      ghost var next := AddResult(keys, summary, m);
      if id !in summary {
        summary := summary[id := NewSource(m)];
        keys := keys + [id];
      }
      var s := summary[id];
      summary := summary[id := s.(chunkCount := s.chunkCount + 1, confidence := MaxReal(s.confidence, ConfOf(m)))];
      assert keys == next.0 && summary == next.1;
    }
    assert results[..|results|] == results;
    SummarizeKeys(results);
    sources := seq(|keys|, j requires 0 <= j < |keys| => summary[keys[j]]);
  }

  function SumSourceChunks(sources: seq<QuerySource>): nat {
    if |sources| == 0 then 0 else sources[0].chunkCount + SumSourceChunks(sources[1..])
  }

  lemma SumSourcesIsSumChunks(keys: seq<string>, summary: map<string, QuerySource>)
    requires forall k :: k in keys ==> k in summary
    ensures SumSourceChunks(seq(|keys|, j requires 0 <= j < |keys| => summary[keys[j]])) == SumChunks(keys, summary)
  {
    if |keys| > 0 {
      var s := seq(|keys|, j requires 0 <= j < |keys| => summary[keys[j]]);
      SumSourcesIsSumChunks(keys[1..], summary);
      assert s[1..] == seq(|keys[1..]|, j requires 0 <= j < |keys[1..]| => summary[keys[1..][j]]);
    }
  }

  // ---- query history ----

  /** A stored answer; only its creation time matters here. */
  datatype QueryResponse = QueryResponse(query: string, response: string, createdAt: int)

  const MaxHistory: nat := 100

  /** The history after appending, trimmed to the last 100 entries. */
  function Appended(h: seq<QueryResponse>, r: QueryResponse): (a: seq<QueryResponse>)
  {
    var l := h + [r];
    if |l| > MaxHistory then l[|l| - MaxHistory..] else l
  }

  /** The trimmed history holds at most 100 entries, ends with the new one,
    * and is the old history plus the new one when that fits. */
  lemma AppendedBounded(h: seq<QueryResponse>, r: QueryResponse)
    ensures |Appended(h, r)| <= MaxHistory
    ensures Appended(h, r)[|Appended(h, r)| - 1] == r
    ensures |h| < MaxHistory ==> Appended(h, r) == h + [r]
    ensures |h| >= MaxHistory ==> Appended(h, r) == h[|h| - MaxHistory + 1..] + [r]
  {
    var l := h + [r];
    if |l| > MaxHistory {
      assert l[|l| - MaxHistory..] == h[|h| - MaxHistory + 1..] + [r];
    }
  }

  function CreatedAt(q: QueryResponse): real { q.createdAt as real }

  /** Sorting newest first puts an entry at least as recent as every entry
    * of the history at the front. */
  lemma NewestFirst(h: seq<QueryResponse>)
    requires |h| > 0
    ensures forall i :: 0 <= i < |h| ==> h[i].createdAt <= Sorting.SortDesc(h, CreatedAt)[0].createdAt
  {
    var sorted := Sorting.SortDesc(h, CreatedAt);
    Sorting.SortDescSorted(h, CreatedAt);
    forall i | 0 <= i < |h| ensures h[i].createdAt <= sorted[0].createdAt {
      Sorting.SortDescSameElements(h, CreatedAt, h[i]);
      var k :| 0 <= k < |sorted| && sorted[k] == h[i];
    }
  }

  /** `get_query_history` sorts the stored list itself newest first; when a
    * full history is read and then appended to, the trim drops the entry at
    * the front, which is now the newest one rather than the oldest. */
  lemma TrimAfterReadDropsNewest(h: seq<QueryResponse>, r: QueryResponse)
    requires |h| == MaxHistory
    ensures var sorted := Sorting.SortDesc(h, CreatedAt);
      && Appended(sorted, r) == sorted[1..] + [r]
      && forall i :: 0 <= i < |h| ==> h[i].createdAt <= sorted[0].createdAt
  {
    AppendedBounded(Sorting.SortDesc(h, CreatedAt), r);
    NewestFirst(h);
  }

  class QueryHistory {
    var history: map<string, seq<QueryResponse>>

    constructor()
      ensures history == map[]
    {
      history := map[];
    }

    /** `_add_to_history` */
    method AddToHistory(documentId: string, response: QueryResponse)
      modifies this
      ensures history == old(history)[documentId :=
        Appended(if documentId in old(history) then old(history)[documentId] else [], response)]
      ensures |history[documentId]| <= MaxHistory
      ensures history[documentId][|history[documentId]| - 1] == response
    {
      var h := if documentId in history then history[documentId] else [];
      AppendedBounded(h, response);
      h := h + [response];
      if |h| > MaxHistory {
        h := h[|h| - MaxHistory..];
      }
      history := history[documentId := h];
    }

    /** `get_query_history`: sorts the stored list newest first, in place,
      * and returns the page `[offset:offset+limit]`. */
    method GetQueryHistory(documentId: string, limit: int, offset: int) returns (page: seq<QueryResponse>)
      modifies this
      ensures documentId in old(history) ==>
        history == old(history)[documentId := Sorting.SortDesc(old(history)[documentId], CreatedAt)]
      ensures documentId !in old(history) ==> history == old(history) && page == []
      ensures documentId in old(history) ==>
        page == Slice(Sorting.SortDesc(old(history)[documentId], CreatedAt), offset, offset + limit)
      ensures 0 <= offset && 0 <= limit ==> |page| <= limit
      ensures Sorting.SortedDesc(page, CreatedAt)
    {
      if documentId !in history {
        return [];
      }
      var sorted := Sorting.SortDesc(history[documentId], CreatedAt);
      Sorting.SortDescSorted(history[documentId], CreatedAt);
      history := history[documentId := sorted];
      page := Slice(sorted, offset, offset + limit);
    }
  }
}
