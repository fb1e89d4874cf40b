// backend/app/services/document_service.py: the stored-filename sanitiser,
// the TLF output counter, the processing-status registry, and the document
// listing and grouping views.

module DocumentService {
  import opened Common
  import opened Strings
  import MapSum
  import Sorting

  // ---- _sanitize_filename ----

  /** The position of the last '.', if any. */
  function LastDot(s: string): (r: Option<nat>)
    ensures r.Some? ==> r.value < |s| && s[r.value] == '.' && '.' !in s[r.value + 1..]
    ensures r.None? ==> '.' !in s
    decreases |s|
  {
    if |s| == 0 then None
    else if s[|s| - 1] == '.' then Some(|s| - 1)
    else
      var r := LastDot(s[..|s| - 1]);
      assert s == s[..|s| - 1] + [s[|s| - 1]];
      if r.Some? then
        assert s[r.value + 1..] == s[..|s| - 1][r.value + 1..] + [s[|s| - 1]];
        r
      else None
  }

  /** `filename.rsplit('.', 1)` when there is a '.', else the whole name and
    * an empty extension. */
  function SplitExt(filename: string): (r: (string, string))
    ensures '.' in filename ==> filename == r.0 + "." + r.1 && '.' !in r.1
    ensures '.' !in filename ==> r == (filename, "")
  {
    var d := LastDot(filename);
    if d.Some? then
      assert filename == filename[..d.value] + "." + filename[d.value + 1..];
      (filename[..d.value], filename[d.value + 1..])
    else (filename, "")
  }

  /** The characters replaced in the stem, in the order they are visited. */
  const StemUnsafe: seq<char> := ['<', '>', ':', '"', '|', '?', '*']

  /** `re.sub(r'\s+', '_', s)`: each maximal whitespace run becomes one '_'. */
  function SpaceRunsToUnderscore(s: string): (r: string)
    ensures forall i :: 0 <= i < |r| ==> !IsSpace(r[i])
    ensures forall i :: 0 <= i < |r| ==> r[i] == '_' || r[i] in s
    ensures |r| <= |s|
    decreases |s|
  {
    if |s| == 0 then ""
    else if IsSpace(s[0]) then
      var rest := TrimLeft(s, IsSpace);
      assert |rest| < |s|;
      "_" + SpaceRunsToUnderscore(rest)
    else [s[0]] + SpaceRunsToUnderscore(s[1..])
  }

  /** The characters that carry content: neither whitespace nor '_'. */
  function Solid(s: string): (r: string)
    decreases |s|
  {
    if |s| == 0 then ""
    else if IsSpace(s[0]) || s[0] == '_' then Solid(s[1..])
    else [s[0]] + Solid(s[1..])
  }

  lemma {:induction false} SolidOfSpaces(s: string)
    requires forall i :: 0 <= i < |s| ==> IsSpace(s[i])
    ensures Solid(s) == ""
    decreases |s|
  {
    if |s| > 0 {
      SolidOfSpaces(s[1..]);
    }
  }

  lemma SolidAppend(a: string, b: string)
    ensures Solid(a + b) == Solid(a) + Solid(b)
    decreases |a|
  {
    if |a| > 0 {
      assert (a + b)[0] == a[0];
      assert (a + b)[1..] == a[1..] + b;
      SolidAppend(a[1..], b);
    } else {
      assert a + b == b;
    }
  }

  /** Collapsing whitespace runs keeps every content character, in order,
    * and changes nothing in a text without whitespace. */
  lemma {:induction false} SpaceRunsKeepSolid(s: string)
    ensures Solid(SpaceRunsToUnderscore(s)) == Solid(s)
    ensures (forall i :: 0 <= i < |s| ==> !IsSpace(s[i])) ==> SpaceRunsToUnderscore(s) == s
    decreases |s|
  {
    if |s| > 0 {
      if IsSpace(s[0]) {
        var rest := TrimLeft(s, IsSpace);
        SpaceRunsKeepSolid(rest);
        assert s == s[..|s| - |rest|] + rest;
        SolidAppend(s[..|s| - |rest|], rest);
        SolidOfSpaces(s[..|s| - |rest|]);
        assert Solid("_" + SpaceRunsToUnderscore(rest)) == Solid(SpaceRunsToUnderscore(rest));
      } else {
        SpaceRunsKeepSolid(s[1..]);
      }
    }
  }

  predicate IsDotOrSpace(c: char) { c == '.' || c == ' ' }

  /** `s.strip('. ')` */
  function StripDotSpace(s: string): (r: string)
    ensures |r| > 0 ==> !IsDotOrSpace(r[0]) && !IsDotOrSpace(r[|r| - 1])
    ensures forall i :: 0 <= i < |r| ==> r[i] in s
  {
    var a := TrimRight(s, IsDotOrSpace);
    var r := TrimLeft(a, IsDotOrSpace);
    assert forall i :: 0 <= i < |r| ==> r[i] == s[|a| - |r| + i];
    r
  }

  /** What the stem becomes. */
  function CleanStem(name: string): string {
    StripDotSpace(SpaceRunsToUnderscore(ReplaceAny(name, StemUnsafe, '_')))
  }

  /** A stem that is safe to store: none of the replaced characters, no
    * whitespace, and no '.' or ' ' at either end. */
  predicate SafeStem(t: string) {
    && (forall i :: 0 <= i < |t| ==> t[i] !in StemUnsafe && !IsSpace(t[i]))
    && (|t| > 0 ==> !IsDotOrSpace(t[0]) && !IsDotOrSpace(t[|t| - 1]))
  }

  /** No character of `s` is one of `cs`, and none is whitespace. */
  predicate Avoids(s: string, cs: seq<char>) {
    forall i :: 0 <= i < |s| ==> s[i] !in cs && !IsSpace(s[i])
  }

  lemma ReplacedAvoid(s: string, cs: seq<char>, r: char)
    requires r !in cs
    ensures forall i :: 0 <= i < |s| ==> ReplaceAny(s, cs, r)[i] !in cs
  {
  }

  lemma CollapsedAvoid(s: string, cs: seq<char>)
    requires '_' !in cs && forall i :: 0 <= i < |s| ==> s[i] !in cs
    ensures Avoids(SpaceRunsToUnderscore(s), cs)
  {
    var b := SpaceRunsToUnderscore(s);
    forall i | 0 <= i < |b| ensures b[i] !in cs {
      if b[i] != '_' {
        var j :| 0 <= j < |s| && s[j] == b[i];
      }
    }
  }

  lemma StrippedAvoid(s: string, cs: seq<char>)
    requires Avoids(s, cs)
    ensures Avoids(StripDotSpace(s), cs)
  {
    var t := StripDotSpace(s);
    forall i | 0 <= i < |t| ensures t[i] !in cs && !IsSpace(t[i]) {
      var j :| 0 <= j < |s| && s[j] == t[i];
    }
  }

  /** Replacing, collapsing whitespace and stripping leave no replaced
    * character and no whitespace behind. */
  lemma CleanedAvoids(name: string, cs: seq<char>)
    requires '_' !in cs
    ensures Avoids(StripDotSpace(SpaceRunsToUnderscore(ReplaceAny(name, cs, '_'))), cs)
  {
    var a := ReplaceAny(name, cs, '_');
    ReplacedAvoid(name, cs, '_');
    CollapsedAvoid(a, cs);
    StrippedAvoid(SpaceRunsToUnderscore(a), cs);
  }

  lemma CleanStemIsSafe(name: string)
    ensures SafeStem(CleanStem(name))
  {
    assert '_' !in StemUnsafe;
    CleanedAvoids(name, StemUnsafe);
  }

  /** The stored name: the stem cleaned, and the text after the last '.'
    * put back unchanged when it is not empty. */
  function Sanitized(filename: string): string {
    var (name, ext) := SplitExt(filename);
    if ext != "" then CleanStem(name) + "." + ext else CleanStem(name)
  }

  /** The stored name keeps a non-empty extension after a '.', and what
    * precedes it is a safe stem; a name without '.' becomes a safe stem. */
  lemma SanitizedIsSafe(filename: string)
    ensures var ext := SplitExt(filename).1; var safe := Sanitized(filename);
      && (ext != "" ==>
            (|safe| > |ext| && safe[|safe| - |ext|..] == ext && safe[|safe| - |ext| - 1] == '.'
             && SafeStem(safe[..|safe| - |ext| - 1])))
      && ('.' !in filename ==> SafeStem(safe))
  {
    var (name, ext) := SplitExt(filename);
    CleanStemIsSafe(name);
    var safe := Sanitized(filename);
    if ext != "" {
      assert safe[..|safe| - |ext| - 1] == CleanStem(name);
    }
  }

  /** `_sanitize_filename` */
  method SanitizeFilename(filename: string) returns (safe: string)
    ensures safe == Sanitized(filename)
  {
    var name: string, ext: string;
    if '.' in filename {
      name, ext := SplitExt(filename).0, SplitExt(filename).1;
    } else {
      name, ext := filename, "";
    }
    var safeName := name;
    for k := 0 to |StemUnsafe|
      invariant safeName == ReplaceAny(name, StemUnsafe[..k], '_')
    {
      ReplaceAnyStep(name, StemUnsafe[..k], StemUnsafe[k], '_');
      assert StemUnsafe[..k] + [StemUnsafe[k]] == StemUnsafe[..k + 1];
      safeName := ReplaceChar(safeName, StemUnsafe[k], '_');
    }
    assert StemUnsafe[..|StemUnsafe|] == StemUnsafe;
    safeName := SpaceRunsToUnderscore(safeName);
    safeName := StripDotSpace(safeName);
    if ext != "" {
      safe := safeName + "." + ext;
    } else {
      safe := safeName;
    }
  }

  // ---- _count_tlf_outputs ----

  /** The two metadata keys the counter reads from a node. */
  datatype NodeMeta = NodeMeta(tlfType: Option<string>, clinicalDomain: Option<string>)

  const TocDomain: string := "table_of_contents"

  predicate CountsType(n: NodeMeta) { Truthy(n.tlfType) }

  predicate CountsDomain(n: NodeMeta) { Truthy(n.clinicalDomain) && n.clinicalDomain.value != TocDomain }

  /** Nodes with a truthy type. */
  function Typed(nodes: seq<NodeMeta>): nat {
    if |nodes| == 0 then 0
    else Typed(nodes[..|nodes| - 1]) + (if CountsType(nodes[|nodes| - 1]) then 1 else 0)
  }

  /** Nodes counted under type `t`. */
  function TypeCount(nodes: seq<NodeMeta>, t: string): nat {
    if |nodes| == 0 then 0
    else
      var n := nodes[|nodes| - 1];
      TypeCount(nodes[..|nodes| - 1], t) + (if CountsType(n) && n.tlfType.value == t then 1 else 0)
  }

  /** Nodes counted under domain `d`. */
  function DomainCount(nodes: seq<NodeMeta>, d: string): nat {
    if |nodes| == 0 then 0
    else
      var n := nodes[|nodes| - 1];
      DomainCount(nodes[..|nodes| - 1], d) + (if CountsDomain(n) && n.clinicalDomain.value == d then 1 else 0)
  }

  function Count(n: nat): nat { n }

  /** The type distribution holds exactly the non-zero per-type counts. */
  ghost predicate TypesCounted(types: map<string, nat>, nodes: seq<NodeMeta>) {
    && (forall t :: t in types <==> TypeCount(nodes, t) > 0)
    && (forall t :: t in types ==> types[t] == TypeCount(nodes, t))
  }

  /** The domain distribution holds exactly the non-zero per-domain counts. */
  ghost predicate DomainsCounted(domains: map<string, nat>, nodes: seq<NodeMeta>) {
    && (forall d :: d in domains <==> DomainCount(nodes, d) > 0)
    && (forall d :: d in domains ==> domains[d] == DomainCount(nodes, d))
  }

  lemma TypesStep(types: map<string, nat>, nodes: seq<NodeMeta>, n: NodeMeta, types': map<string, nat>)
    requires TypesCounted(types, nodes)
    requires CountsType(n) ==> types' == types[n.tlfType.value := (if n.tlfType.value in types then types[n.tlfType.value] else 0) + 1]
    requires !CountsType(n) ==> types' == types
    ensures TypesCounted(types', nodes + [n])
    ensures Typed(nodes + [n]) == Typed(nodes) + (if CountsType(n) then 1 else 0)
  {
    assert (nodes + [n])[..|nodes|] == nodes;
  }

  lemma DomainsStep(domains: map<string, nat>, nodes: seq<NodeMeta>, n: NodeMeta, domains': map<string, nat>)
    requires DomainsCounted(domains, nodes)
    requires CountsDomain(n) ==>
      domains' == domains[n.clinicalDomain.value := (if n.clinicalDomain.value in domains then domains[n.clinicalDomain.value] else 0) + 1]
    requires !CountsDomain(n) ==> domains' == domains
    ensures DomainsCounted(domains', nodes + [n])
  {
    assert (nodes + [n])[..|nodes|] == nodes;
  }

  /** The tallies after the nodes seen so far. */
  ghost predicate Tallied(total: nat, types: map<string, nat>, domains: map<string, nat>, seen: seq<NodeMeta>) {
    && total == Typed(seen) == MapSum.Sum(types, Count)
    && TypesCounted(types, seen)
    && DomainsCounted(domains, seen)
  }

  /** One pass of the counting loop: a node with a truthy type adds one to
    * the total and to its type, one with a truthy domain other than the
    * table of contents adds one to its domain. */
  method TallyNode(ghost seen: seq<NodeMeta>, n: NodeMeta, total: nat, types: map<string, nat>, domains: map<string, nat>)
    returns (total': nat, types': map<string, nat>, domains': map<string, nat>)
    requires Tallied(total, types, domains, seen)
    ensures Tallied(total', types', domains', seen + [n])
  {
    types', total' := types, total;
    if n.tlfType.Some? && n.tlfType.value != "" {
      var t := n.tlfType.value;
      var c := if t in types then types[t] else 0;
      MapSum.SumUpdate(types, Count, t, c + 1);
      types' := types[t := c + 1];
      total' := total + 1;
    }
    domains' := domains;
    if n.clinicalDomain.Some? && n.clinicalDomain.value != "" && n.clinicalDomain.value != TocDomain {
      var d := n.clinicalDomain.value;
      domains' := domains[d := (if d in domains then domains[d] else 0) + 1];
    }
    TypesStep(types, seen, n, types');
    DomainsStep(domains, seen, n, domains');
  }

  /** `_count_tlf_outputs` */
  method CountTlfOutputs(nodes: seq<NodeMeta>) returns (total: nat, types: map<string, nat>, domains: map<string, nat>)
    ensures total == Typed(nodes)
    ensures total == MapSum.Sum(types, Count)
    ensures TypesCounted(types, nodes)
    ensures DomainsCounted(domains, nodes)
    ensures TocDomain !in domains
  {
    total, types, domains := 0, map[], map[];
    for i := 0 to |nodes|
      invariant Tallied(total, types, domains, nodes[..i])
    {
      assert nodes[..i + 1] == nodes[..i] + [nodes[i]];
      total, types, domains := TallyNode(nodes[..i], nodes[i], total, types, domains);
    }
    assert nodes[..|nodes|] == nodes;
    TocNeverCounted(nodes);
  }

  /** A table-of-contents domain is never counted. */
  lemma {:induction false} TocNeverCounted(nodes: seq<NodeMeta>)
    ensures DomainCount(nodes, TocDomain) == 0
  {
    if |nodes| > 0 {
      TocNeverCounted(nodes[..|nodes| - 1]);
    }
  }

  /** The per-type counts add up to the typed nodes: each typed node is
    * counted under exactly one type. */
  lemma {:induction false} TypeCountsPartition(nodes: seq<NodeMeta>, t: string, u: string)
    requires t != u
    ensures TypeCount(nodes, t) + TypeCount(nodes, u) <= Typed(nodes)
  {
    if |nodes| > 0 {
      TypeCountsPartition(nodes[..|nodes| - 1], t, u);
    }
  }

  // ---- _update_status ----

  datatype ProcessingStatusEnum = Queued | ExtractingText | Chunking | ExtractingTlfMetadata | BuildingIndex | Completed | Failed

  /** A `ProcessingStatus` record. */
  datatype ProcessingStatus = ProcessingStatus(
    documentId: string,
    status: ProcessingStatusEnum,
    progress: int,
    message: string,
    createdAt: int,
    updatedAt: int,
    errorMessage: Option<string>,
    totalPages: Option<int>,
    processedPages: Option<int>,
    totalChunks: Option<int>,
    tlfOutputsFound: Option<int>)

  /** A keyword argument of `_update_status`; `NotAField` names nothing the
    * record has. */
  datatype StatusField =
    | ErrorMessage(text: string)
    | TotalPages(n: int)
    | ProcessedPages(n: int)
    | TotalChunks(n: int)
    | TlfOutputsFound(n: int)
    | NotAField(name: string)

  /** `setattr` for one keyword argument; a name the record lacks is skipped. */
  function WithField(st: ProcessingStatus, f: StatusField): ProcessingStatus {
    match f
    case ErrorMessage(text) => st.(errorMessage := Some(text))
    case TotalPages(n) => st.(totalPages := Some(n))
    case ProcessedPages(n) => st.(processedPages := Some(n))
    case TotalChunks(n) => st.(totalChunks := Some(n))
    case TlfOutputsFound(n) => st.(tlfOutputsFound := Some(n))
    case NotAField(_) => st
  }

  /** The keyword arguments applied in order. */
  function WithFields(st: ProcessingStatus, fs: seq<StatusField>): ProcessingStatus
  {
    if |fs| == 0 then st else WithField(WithFields(st, fs[..|fs| - 1]), fs[|fs| - 1])
  }

  /** Keyword arguments never touch the id, status, progress, message or
    * timestamps, and a field no argument names keeps its value. */
  lemma {:induction false} WithFieldsKeeps(st: ProcessingStatus, fs: seq<StatusField>)
    ensures var r := WithFields(st, fs);
      && r.documentId == st.documentId && r.status == st.status && r.progress == st.progress
      && r.message == st.message && r.createdAt == st.createdAt && r.updatedAt == st.updatedAt
    ensures (forall i :: 0 <= i < |fs| ==> !fs[i].TotalPages?) ==> WithFields(st, fs).totalPages == st.totalPages
    ensures (forall i :: 0 <= i < |fs| ==> !fs[i].ErrorMessage?) ==> WithFields(st, fs).errorMessage == st.errorMessage
    ensures (forall i :: 0 <= i < |fs| ==> !fs[i].TotalChunks?) ==> WithFields(st, fs).totalChunks == st.totalChunks
    ensures (forall i :: 0 <= i < |fs| ==> !fs[i].ProcessedPages?) ==> WithFields(st, fs).processedPages == st.processedPages
    ensures (forall i :: 0 <= i < |fs| ==> !fs[i].TlfOutputsFound?) ==> WithFields(st, fs).tlfOutputsFound == st.tlfOutputsFound
  {
    if |fs| > 0 {
      WithFieldsKeeps(st, fs[..|fs| - 1]);
    }
  }

  /** The last argument naming a field decides it. */
  lemma LastTotalPagesWins(st: ProcessingStatus, fs: seq<StatusField>, n: int, rest: seq<StatusField>)
    requires forall i :: 0 <= i < |rest| ==> !rest[i].TotalPages?
    ensures WithFields(st, fs + [TotalPages(n)] + rest).totalPages == Some(n)
  {
    var pre := fs + [TotalPages(n)];
    WithFieldsAppend(st, pre, rest);
    assert pre[..|pre| - 1] == fs;
    WithFieldsKeeps(WithFields(st, pre), rest);
  }

  lemma {:induction false} WithFieldsAppend(st: ProcessingStatus, a: seq<StatusField>, b: seq<StatusField>)
    ensures WithFields(st, a + b) == WithFields(WithFields(st, a), b)
    decreases |b|
  {
    if |b| > 0 {
      assert (a + b)[..|a + b| - 1] == a + b[..|b| - 1];
      assert (a + b)[|a + b| - 1] == b[|b| - 1];
      WithFieldsAppend(st, a, b[..|b| - 1]);
    } else {
      assert a + b == a;
    }
  }

  /** The record `_update_status` creates for a document it has not seen. */
  function Fresh(documentId: string, status: ProcessingStatusEnum, progress: int, message: string, now: int)
    : ProcessingStatus
  {
    ProcessingStatus(documentId, status, progress, message, now, now, None, None, None, None, None)
  }

  /** The range the record's declaration enforces on creation. */
  predicate ValidProgress(progress: int) { 0 <= progress <= 100 }

  class StatusRegistry {
    var processingStatus: map<string, ProcessingStatus>

    constructor()
      ensures processingStatus == map[]
    {
      processingStatus := map[];
    }

    /** `_update_status`. An existing record is updated field by field, with
      * no range check; a new one is built and validated, and a progress
      * outside 0..100 fails (`ok` false) with nothing stored. */
    method UpdateStatus(documentId: string, status: ProcessingStatusEnum, progress: int, message: string,
                        kwargs: seq<StatusField>, now: int) returns (ok: bool)
      modifies this
      ensures documentId in old(processingStatus) ==> ok && processingStatus == old(processingStatus)[documentId :=
        WithFields(old(processingStatus)[documentId].(status := status, progress := progress,
                                                      message := message, updatedAt := now), kwargs)]
      ensures documentId !in old(processingStatus) ==> (ok <==> ValidProgress(progress))
      ensures documentId !in old(processingStatus) && ok ==>
        processingStatus == old(processingStatus)[documentId := WithFields(Fresh(documentId, status, progress, message, now), kwargs)]
      ensures !ok ==> processingStatus == old(processingStatus)
    {
      if documentId in processingStatus {
        var current := processingStatus[documentId];
        current := current.(status := status, progress := progress, message := message, updatedAt := now);
        ghost var start := current;
        for k := 0 to |kwargs|
          invariant current == WithFields(start, kwargs[..k])
        {
          assert kwargs[..k + 1][..k] == kwargs[..k];
          current := WithField(current, kwargs[k]);
        }
        assert kwargs[..|kwargs|] == kwargs;
        processingStatus := processingStatus[documentId := current];
        return true;
      }
      if !ValidProgress(progress) {
        return false;
      }
      processingStatus := processingStatus[documentId := WithFields(Fresh(documentId, status, progress, message, now), kwargs)];
      return true;
    }
  }

  // ---- list_documents and get_documents_by_structure ----

  /** The fields of a `DocumentInfo` these views read. */
  datatype DocumentInfo = DocumentInfo(
    documentId: string,
    filename: string,
    studyId: Option<string>,
    compound: Option<string>,
    deliverable: Option<string>,
    status: string,
    createdAt: int,
    processedAt: Option<int>,
    tlfOutputsFound: int)

  /** The optional filters; an empty string filters nothing. */
  datatype DocumentFilters = DocumentFilters(
    status: Option<string>,
    compound: Option<string>,
    study: Option<string>,
    deliverable: Option<string>)

  predicate Matches(doc: DocumentInfo, f: DocumentFilters) {
    && (Truthy(f.status) ==> doc.status == f.status.value)
    && (Truthy(f.compound) ==> doc.compound == f.compound)
    && (Truthy(f.study) ==> doc.studyId == f.study)
    && (Truthy(f.deliverable) ==> doc.deliverable == f.deliverable)
  }

  /** The documents passing the filters, in their stored order. */
  function Filtered(docs: seq<DocumentInfo>, f: DocumentFilters): (r: seq<DocumentInfo>)
    ensures forall d :: d in r <==> d in docs && Matches(d, f)
  {
    if |docs| == 0 then []
    else
      var rest := Filtered(docs[..|docs| - 1], f);
      var last := docs[|docs| - 1];
      assert forall d :: d in docs <==> d in docs[..|docs| - 1] || d == last;
      if Matches(last, f) then rest + [last] else rest
  }

  function CreatedAt(d: DocumentInfo): real { d.createdAt as real }

  /** `list_documents`: `docs` holds the stored documents in insertion order. */
  function ListDocuments(docs: seq<DocumentInfo>, f: DocumentFilters, limit: int, offset: int): seq<DocumentInfo>
  {
    Slice(Sorting.SortDesc(Filtered(docs, f), CreatedAt), offset, offset + limit)
  }

  /** The page holds at most `limit` documents, newest first. */
  lemma ListDocumentsSorted(docs: seq<DocumentInfo>, f: DocumentFilters, limit: int, offset: int)
    ensures 0 <= offset && 0 <= limit ==> |ListDocuments(docs, f, limit, offset)| <= limit
    ensures Sorting.SortedDesc(ListDocuments(docs, f, limit, offset), CreatedAt)
  {
    var all := Filtered(docs, f);
    var sorted := Sorting.SortDesc(all, CreatedAt);
    Sorting.SortDescSorted(all, CreatedAt);
    var page := ListDocuments(docs, f, limit, offset);
    var lo := SliceIndex(offset, |sorted|);
    forall i, j | 0 <= i < j < |page| ensures CreatedAt(page[i]) >= CreatedAt(page[j]) {
      assert page[i] == sorted[lo + i] && page[j] == sorted[lo + j];
    }
  }

  /** Every listed document is stored and passes every filter. */
  lemma ListDocumentsMatch(docs: seq<DocumentInfo>, f: DocumentFilters, limit: int, offset: int)
    ensures forall d :: d in ListDocuments(docs, f, limit, offset) ==> d in docs && Matches(d, f)
  {
    var all := Filtered(docs, f);
    var sorted := Sorting.SortDesc(all, CreatedAt);
    var page := ListDocuments(docs, f, limit, offset);
    var lo := SliceIndex(offset, |sorted|);
    forall d | d in page ensures d in docs && Matches(d, f) {
      var i :| 0 <= i < |page| && page[i] == d;
      assert sorted[lo + i] == d;
      Sorting.SortDescSameElements(all, CreatedAt, d);
    }
  }

  /** A page as long as the store, from the start, lists every stored document
    * that passes the filters. */
  lemma ListDocumentsComplete(docs: seq<DocumentInfo>, f: DocumentFilters)
    ensures forall d :: d in docs && Matches(d, f) ==> d in ListDocuments(docs, f, |docs|, 0)
  {
    var all := Filtered(docs, f);
    var sorted := Sorting.SortDesc(all, CreatedAt);
    FilteredShorter(docs, f);
    assert ListDocuments(docs, f, |docs|, 0) == sorted;
    forall d | d in docs && Matches(d, f) ensures d in sorted {
      Sorting.SortDescSameElements(all, CreatedAt, d);
    }
  }

  lemma {:induction false} FilteredShorter(docs: seq<DocumentInfo>, f: DocumentFilters)
    ensures |Filtered(docs, f)| <= |docs|
  {
    if |docs| > 0 {
      FilteredShorter(docs[..|docs| - 1], f);
    }
  }

  /** One entry of the grouped view. */
  datatype DocumentEntry = DocumentEntry(
    documentId: string,
    filename: string,
    status: string,
    tlfOutputsFound: int,
    createdAt: int,
    processedAt: Option<int>)

  function EntryOf(d: DocumentInfo): DocumentEntry {
    DocumentEntry(d.documentId, d.filename, d.status, d.tlfOutputsFound, d.createdAt, d.processedAt)
  }

  type Structure = map<Option<string>, map<Option<string>, map<Option<string>, seq<DocumentEntry>>>>

  predicate At(d: DocumentInfo, c: Option<string>, s: Option<string>, v: Option<string>) {
    d.compound == c && d.studyId == s && d.deliverable == v
  }

  /** The entries of the documents filed under one compound, study and
    * deliverable, in stored order. */
  function Group(docs: seq<DocumentInfo>, c: Option<string>, s: Option<string>, v: Option<string>): seq<DocumentEntry>
  {
    if |docs| == 0 then []
    else
      var d := docs[|docs| - 1];
      Group(docs[..|docs| - 1], c, s, v) + (if At(d, c, s, v) then [EntryOf(d)] else [])
  }

  /** Every list in the structure is its group, non-empty, and every stored
    * document is filed. */
  ghost predicate Grouped(st: Structure, docs: seq<DocumentInfo>) {
    && (forall c, s, v :: c in st && s in st[c] && v in st[c][s] ==> st[c][s][v] == Group(docs, c, s, v))
    && (forall c, s, v :: c in st && s in st[c] && v in st[c][s] ==> |Group(docs, c, s, v)| > 0)
    && (forall i :: 0 <= i < |docs| ==>
          var d := docs[i];
          d.compound in st && d.studyId in st[d.compound] && d.deliverable in st[d.compound][d.studyId])
  }

  lemma GroupAppend(docs: seq<DocumentInfo>, d: DocumentInfo, c: Option<string>, s: Option<string>, v: Option<string>)
    ensures Group(docs + [d], c, s, v) == Group(docs, c, s, v) + (if At(d, c, s, v) then [EntryOf(d)] else [])
  {
    assert (docs + [d])[..|docs|] == docs;
  }

  /** Filing one more document keeps the structure grouped. */
  lemma FileStep(st: Structure, docs: seq<DocumentInfo>, d: DocumentInfo, st': Structure)
    requires Grouped(st, docs)
    requires d.compound in st' && d.studyId in st'[d.compound] && d.deliverable in st'[d.compound][d.studyId]
    requires var c, s, v := d.compound, d.studyId, d.deliverable;
      st'[c][s][v] == (if c in st && s in st[c] && v in st[c][s] then st[c][s][v] else []) + [EntryOf(d)]
    requires forall c, s, v :: c in st && s in st[c] && v in st[c][s] ==> c in st' && s in st'[c] && v in st'[c][s]
    requires forall c, s, v :: c in st' && s in st'[c] && v in st'[c][s] && !At(d, c, s, v) ==>
      c in st && s in st[c] && v in st[c][s] && st'[c][s][v] == st[c][s][v]
    ensures Grouped(st', docs + [d])
  {
    var docs' := docs + [d];
    forall c, s, v | c in st' && s in st'[c] && v in st'[c][s]
      ensures st'[c][s][v] == Group(docs', c, s, v) && |Group(docs', c, s, v)| > 0
    {
      GroupAppend(docs, d, c, s, v);
      if At(d, c, s, v) && !(c in st && s in st[c] && v in st[c][s]) {
        assert Group(docs, c, s, v) == [] by { GroupAbsent(st, docs, c, s, v); }
      }
    }
    forall i | 0 <= i < |docs'|
      ensures docs'[i].compound in st' && docs'[i].studyId in st'[docs'[i].compound]
        && docs'[i].deliverable in st'[docs'[i].compound][docs'[i].studyId]
    {
      if i < |docs| {
        assert docs'[i] == docs[i];
      }
    }
  }

  /** A key the structure lacks has an empty group. */
  lemma GroupAbsent(st: Structure, docs: seq<DocumentInfo>, c: Option<string>, s: Option<string>, v: Option<string>)
    requires Grouped(st, docs)
    requires !(c in st && s in st[c] && v in st[c][s])
    ensures Group(docs, c, s, v) == []
  {
    if Group(docs, c, s, v) != [] {
      var i := GroupWitness(docs, c, s, v);
      assert false;
    }
  }

  lemma {:induction false} GroupWitness(docs: seq<DocumentInfo>, c: Option<string>, s: Option<string>, v: Option<string>)
    returns (i: nat)
    requires Group(docs, c, s, v) != []
    ensures i < |docs| && At(docs[i], c, s, v)
  {
    var d := docs[|docs| - 1];
    if At(d, c, s, v) {
      i := |docs| - 1;
    } else {
      i := GroupWitness(docs[..|docs| - 1], c, s, v);
    }
  }

  /** The structure with one more document's entry appended at its keys. */
  function Filed(st: Structure, d: DocumentInfo): Structure {
    var c, s, v := d.compound, d.studyId, d.deliverable;
    var byStudy := if c in st then st[c] else map[];
    var byDeliverable := if s in byStudy then byStudy[s] else map[];
    var entries := if v in byDeliverable then byDeliverable[v] else [];
    st[c := byStudy[s := byDeliverable[v := entries + [EntryOf(d)]]]]
  }

  /** Filing keeps every list already in the structure. */
  lemma FiledKeepsKeys(st: Structure, d: DocumentInfo)
    ensures forall c, s, v :: c in st && s in st[c] && v in st[c][s] ==>
      c in Filed(st, d) && s in Filed(st, d)[c] && v in Filed(st, d)[c][s]
  {
  }

  /** Filing changes no list but the document's own. */
  lemma FiledOnlyItsList(st: Structure, d: DocumentInfo)
    ensures var st' := Filed(st, d);
      forall c, s, v :: c in st' && s in st'[c] && v in st'[c][s] && !At(d, c, s, v) ==>
        c in st && s in st[c] && v in st[c][s] && st'[c][s][v] == st[c][s][v]
  {
  }

  lemma FiledGrouped(st: Structure, docs: seq<DocumentInfo>, d: DocumentInfo)
    requires Grouped(st, docs)
    ensures Grouped(Filed(st, d), docs + [d])
  {
    FiledKeepsKeys(st, d);
    FiledOnlyItsList(st, d);
    FileStep(st, docs, d, Filed(st, d));
  }

  /** `get_documents_by_structure`: every stored document's entry filed under
    * its compound, study and deliverable, in stored order. */
  method GetDocumentsByStructure(docs: seq<DocumentInfo>) returns (st: Structure)
    ensures Grouped(st, docs)
  {
    st := map[];
    for i := 0 to |docs|
      invariant Grouped(st, docs[..i])
    {
      assert docs[..i + 1] == docs[..i] + [docs[i]];
      var d := docs[i];
      FiledGrouped(st, docs[..i], d);
      var c, s, v := d.compound, d.studyId, d.deliverable;
      var byStudy := if c in st then st[c] else map[];
      var byDeliverable := if s in byStudy then byStudy[s] else map[];
      var entries := if v in byDeliverable then byDeliverable[v] else [];
      st := st[c := byStudy[s := byDeliverable[v := entries + [EntryOf(d)]]]];
    }
    assert docs[..|docs|] == docs;
  }
}
