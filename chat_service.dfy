// backend/app/services/chat_service.py: the conversation context builder,
// the retrieval-query enhancer, and the session registry's updates, history
// clearing, deletion and per-document cleanup.

module ChatService {
  import opened Common
  import opened Strings
  import Sorting

  datatype MessageRole = User | Assistant | System

  datatype ChatMessage = ChatMessage(role: MessageRole, content: string)

  /** The fields of a `ChatSession` these operations read or write. */
  datatype ChatSession = ChatSession(
    id: string,
    documentId: string,
    title: string,
    createdAt: int,
    updatedAt: int,
    messages: seq<ChatMessage>,
    contextWindow: int,
    totalQueries: int)

  // ---- _build_conversation_context ----

  function Label(m: ChatMessage): string {
    if m.role == Assistant then "You" else "User"
  }

  function Line(m: ChatMessage): string {
    Label(m) + ": " + m.content
  }

  /** The labelled lines of the non-system messages, in order. */
  function ContextLines(ms: seq<ChatMessage>): (r: seq<string>)
    ensures |r| <= |ms|
  {
    if |ms| == 0 then []
    else
      var rest := ContextLines(ms[..|ms| - 1]);
      var m := ms[|ms| - 1];
      if m.role == System then rest else rest + [Line(m)]
  }

  /** The messages the context reads: the last `2 * contextWindow`. */
  function Recent(messages: seq<ChatMessage>, contextWindow: int): seq<ChatMessage> {
    SliceFrom(messages, -(contextWindow * 2))
  }

  /** `_build_conversation_context` */
  function ConversationContext(messages: seq<ChatMessage>, contextWindow: int): string {
    var recent := Recent(messages, contextWindow);
    if |recent| == 0 then "" else Join(ContextLines(recent), "\n")
  }

  lemma {:induction false} JoinStartsWith(parts: seq<string>, sep: string)
    requires |parts| > 0
    ensures StartsWith(Join(parts, sep), parts[0])
  {
    if |parts| > 1 {
      assert Join(parts, sep) == parts[0] + (sep + Join(parts[1..], sep));
    }
  }

  /** Each line is a non-system message behind its label, assistant lines
    * labelled "You" and all others "User"; every non-system message gives
    * one. */
  lemma {:induction false} ContextLinesFacts(ms: seq<ChatMessage>)
    ensures forall l :: l in ContextLines(ms) ==> exists m :: m in ms && m.role != System && l == Line(m)
    ensures forall m :: m in ms && m.role != System ==> Line(m) in ContextLines(ms)
    ensures |ContextLines(ms)| == 0 <==> forall m :: m in ms ==> m.role == System
  {
    if |ms| > 0 {
      var pre := ms[..|ms| - 1];
      ContextLinesFacts(pre);
      assert ms == pre + [ms[|ms| - 1]];
    }
  }

  /** The context is empty exactly when the recent messages are all system
    * messages (or there are none). */
  lemma ContextEmptyIff(messages: seq<ChatMessage>, contextWindow: int)
    ensures ConversationContext(messages, contextWindow) == "" <==>
      forall m :: m in Recent(messages, contextWindow) ==> m.role == System
  {
    var recent := Recent(messages, contextWindow);
    ContextLinesFacts(recent);
    var lines := ContextLines(recent);
    if |lines| > 0 {
      JoinStartsWith(lines, "\n");
      assert lines[0] in lines;
      var m :| m in recent && m.role != System && lines[0] == Line(m);
      assert |Line(m)| > 0;
    }
  }

  /** Messages older than the last `2 * contextWindow` never reach the
    * context. */
  lemma ContextOnlyRecent(older: seq<ChatMessage>, messages: seq<ChatMessage>, contextWindow: int)
    requires contextWindow > 0 && |messages| >= 2 * contextWindow
    ensures ConversationContext(older + messages, contextWindow) == ConversationContext(messages, contextWindow)
  {
    var all := older + messages;
    assert all[|all| - 2 * contextWindow..] == messages[|messages| - 2 * contextWindow..];
    assert Recent(all, contextWindow) == Recent(messages, contextWindow);
  }

  /** A label begins every line: "You: " for assistant messages, "User: "
    * for the rest. */
  lemma LineLabels(m: ChatMessage)
    ensures m.role == Assistant ==> StartsWith(Line(m), "You: ")
    ensures m.role != Assistant ==> StartsWith(Line(m), "User: ")
  {
    assert Line(m) == Label(m) + ": " + m.content;
    if m.role == Assistant {
      assert Line(m)[..5] == "You: ";
    } else {
      assert Line(m)[..6] == "User: ";
    }
  }

  // ---- _enhance_query_with_context ----

  const ClinicalWords: seq<string> := ["table", "listing", "figure", "adverse", "events", "safety", "efficacy"]

  /** A word kept for the query: longer than three characters and either a
    * clinical word in any case or dotted like an output number. */
  predicate IsContextKeyword(w: string) {
    |w| > 3 && (Lower(w) in ClinicalWords || '.' in w)
  }

  /** The text after the first ':' (the whole line has one when it is read). */
  function AfterColon(line: string): (r: string)
    ensures |r| <= |line|
    decreases |line|
  {
    if |line| == 0 then ""
    else if line[0] == ':' then line[1..]
    else AfterColon(line[1..])
  }

  function KeywordFilter(words: seq<string>): (r: seq<string>)
    ensures forall w :: w in r <==> w in words && IsContextKeyword(w)
  {
    if |words| == 0 then []
    else
      var rest := KeywordFilter(words[..|words| - 1]);
      var w := words[|words| - 1];
      assert forall x :: x in words <==> x in words[..|words| - 1] || x == w;
      if IsContextKeyword(w) then rest + [w] else rest
  }

  /** A line the keyword scan reads: one written by the user or the assistant. */
  predicate IsSpeakerLine(line: string) {
    StartsWith(line, "User:") || StartsWith(line, "You:")
  }

  /** The keywords one context line contributes. */
  function LineKeywords(line: string): seq<string> {
    if IsSpeakerLine(line) then KeywordFilter(Words(Strip(AfterColon(line))))
    else []
  }

  function KeywordsOf(lines: seq<string>): (r: seq<string>)
    ensures forall w :: w in r ==> IsContextKeyword(w)
  {
    if |lines| == 0 then [] else KeywordsOf(lines[..|lines| - 1]) + LineKeywords(lines[|lines| - 1])
  }

  /** `w` is a qualifying word of the text after the colon of some speaker line. */
  ghost predicate KeywordOfLines(lines: seq<string>, w: string) {
    exists k :: 0 <= k < |lines| && IsSpeakerLine(lines[k])
      && w in Words(Strip(AfterColon(lines[k]))) && IsContextKeyword(w)
  }

  /** The scan collects exactly the qualifying words of the speaker lines:
    * none is missed and nothing else is collected. */
  lemma {:induction false} KeywordsOfComplete(lines: seq<string>)
    ensures forall w :: w in KeywordsOf(lines) <==> KeywordOfLines(lines, w)
  {
    if |lines| > 0 {
      var pre := lines[..|lines| - 1];
      var last := lines[|lines| - 1];
      KeywordsOfComplete(pre);
      assert KeywordsOf(lines) == KeywordsOf(pre) + LineKeywords(last);
      forall w ensures w in KeywordsOf(lines) <==> KeywordOfLines(lines, w) {
        KeywordOfLinesSnoc(lines, w);
        LineKeywordsIff(last, w);
      }
    }
  }

  lemma LineKeywordsIff(line: string, w: string)
    ensures w in LineKeywords(line) <==>
      IsSpeakerLine(line) && w in Words(Strip(AfterColon(line))) && IsContextKeyword(w)
  {
  }

  /** A speaker-line word of `lines` comes from its last line or from the
    * lines before. */
  lemma KeywordOfLinesSnoc(lines: seq<string>, w: string)
    requires |lines| > 0
    ensures var last := lines[|lines| - 1];
      KeywordOfLines(lines, w) <==>
        KeywordOfLines(lines[..|lines| - 1], w)
        || (IsSpeakerLine(last) && w in Words(Strip(AfterColon(last))) && IsContextKeyword(w))
  {
    var pre := lines[..|lines| - 1];
    if KeywordOfLines(lines, w) {
      var k :| 0 <= k < |lines| && IsSpeakerLine(lines[k])
        && w in Words(Strip(AfterColon(lines[k]))) && IsContextKeyword(w);
      if k < |lines| - 1 {
        assert pre[k] == lines[k];
      }
    }
    if KeywordOfLines(pre, w) {
      var k :| 0 <= k < |pre| && IsSpeakerLine(pre[k])
        && w in Words(Strip(AfterColon(pre[k]))) && IsContextKeyword(w);
      assert lines[k] == pre[k];
    }
  }

  /** The keywords of the last four context lines. */
  function ContextKeywords(context: string): seq<string> {
    KeywordsOf(SliceFrom(Split(context, '\n'), -4))
  }

  /** `_enhance_query_with_context` */
  function EnhanceQuery(query: string, context: string): string {
    if context == "" then query
    else
      var ks := ContextKeywords(context);
      if |ks| > 0 then query + " " + Join(Dedup(ks), " ") else query
  }

  predicate NoRepeats(ks: seq<string>) {
    forall i, j :: 0 <= i < j < |ks| ==> ks[i] != ks[j]
  }

  /** `ks` holds exactly the qualifying words of the speaker lines. */
  ghost predicate AllKeywordsOf(ks: seq<string>, lines: seq<string>) {
    forall w :: w in ks <==> KeywordOfLines(lines, w)
  }

  /** The query comes back unchanged when the context is empty or gives no
    * keyword; otherwise it is followed by a space and the keywords of the
    * last four context lines, each once, separated by spaces. */
  lemma EnhanceQueryFacts(query: string, context: string)
    ensures context == "" || |ContextKeywords(context)| == 0 ==> EnhanceQuery(query, context) == query
    ensures context != "" && |ContextKeywords(context)| > 0 ==>
      exists ks: seq<string> ::
        && EnhanceQuery(query, context) == query + " " + Join(ks, " ")
        && |ks| > 0
        && NoRepeats(ks)
        && AllKeywordsOf(ks, SliceFrom(Split(context, '\n'), -4))
  {
    if context != "" && |ContextKeywords(context)| > 0 {
      var lines := SliceFrom(Split(context, '\n'), -4);
      var found := KeywordsOf(lines);
      assert found == ContextKeywords(context);
      var ks := Dedup(found);
      KeywordsOfComplete(lines);
      assert found[0] in ks;
      assert AllKeywordsOf(ks, lines);
      assert NoRepeats(ks);
      assert EnhanceQuery(query, context) == query + " " + Join(ks, " ");
    }
  }

  // ---- the session registry ----

  /** Session ids are distinct. */
  predicate DistinctIds(ss: seq<ChatSession>) {
    forall i, j :: 0 <= i < j < |ss| ==> ss[i].id != ss[j].id
  }

  /** The position of the session with this id. */
  function IndexOf(ss: seq<ChatSession>, id: string): (r: Option<nat>)
    ensures r.Some? ==> r.value < |ss| && ss[r.value].id == id
    ensures r.None? ==> forall s :: s in ss ==> s.id != id
  {
    if |ss| == 0 then None
    else if ss[|ss| - 1].id == id then Some(|ss| - 1)
    else
      var r := IndexOf(ss[..|ss| - 1], id);
      assert forall s :: s in ss ==> s in ss[..|ss| - 1] || s == ss[|ss| - 1];
      r
  }

  /** The sessions satisfying `p`, in order. */
  function Keep(ss: seq<ChatSession>, p: ChatSession -> bool): (r: seq<ChatSession>)
    ensures |r| <= |ss|
    ensures forall s :: s in r <==> s in ss && p(s)
    ensures DistinctIds(ss) ==> DistinctIds(r)
  {
    if |ss| == 0 then []
    else
      var pre := ss[..|ss| - 1];
      var rest := Keep(pre, p);
      var s := ss[|ss| - 1];
      assert forall x :: x in ss <==> x in pre || x == s;
      if p(s) then
        assert DistinctIds(ss) ==> forall x :: x in rest ==> x.id != s.id;
        rest + [s]
      else rest
  }

  /** The sessions whose id is not in `ids`. */
  function Without(ss: seq<ChatSession>, ids: set<string>): (r: seq<ChatSession>)
    ensures forall s :: s in r <==> s in ss && s.id !in ids
    ensures DistinctIds(ss) ==> DistinctIds(r)
  {
    Keep(ss, (s: ChatSession) => s.id !in ids)
  }

  /** Deleting one id after others is deleting them all at once. */
  lemma WithoutTwice(ss: seq<ChatSession>, a: set<string>, b: set<string>)
    ensures Without(Without(ss, a), b) == Without(ss, a + b)
    decreases |ss|
  {
    if |ss| > 0 {
      var pre := ss[..|ss| - 1];
      WithoutTwice(pre, a, b);
      var s := ss[|ss| - 1];
      var w := Without(pre, a);
      if s.id !in a {
        assert Without(ss, a) == w + [s];
        assert (w + [s])[..|w|] == w;
      }
    }
  }

  function IdsOf(ss: seq<ChatSession>): set<string> {
    set s | s in ss :: s.id
  }

  lemma IdsOfStep(ss: seq<ChatSession>, k: nat)
    requires k < |ss|
    ensures IdsOf(ss[..k + 1]) == IdsOf(ss[..k]) + {ss[k].id}
  {
    assert ss[..k + 1] == ss[..k] + [ss[k]];
  }

  lemma SameIdSame(ss: seq<ChatSession>, a: ChatSession, b: ChatSession)
    requires DistinctIds(ss) && a in ss && b in ss && a.id == b.id
    ensures a == b
  {
    var i :| 0 <= i < |ss| && ss[i] == a;
    var j :| 0 <= j < |ss| && ss[j] == b;
  }

  /** The messages `clear_chat_history` keeps. */
  function SystemOnly(ms: seq<ChatMessage>): (r: seq<ChatMessage>)
    ensures forall m :: m in r <==> m in ms && m.role == System
  {
    if |ms| == 0 then []
    else
      var rest := SystemOnly(ms[..|ms| - 1]);
      var m := ms[|ms| - 1];
      assert forall x :: x in ms <==> x in ms[..|ms| - 1] || x == m;
      if m.role == System then rest + [m] else rest
  }

  /** Keeping the system messages distributes over concatenation: their
    * order is the original one. */
  lemma {:induction false} SystemOnlyAppend(a: seq<ChatMessage>, b: seq<ChatMessage>)
    ensures SystemOnly(a + b) == SystemOnly(a) + SystemOnly(b)
    decreases |b|
  {
    if |b| == 0 {
      assert a + b == a;
    } else {
      var b' := b[..|b| - 1];
      SystemOnlyAppend(a, b');
      assert (a + b)[..|a + b| - 1] == a + b';
      assert (a + b)[|a + b| - 1] == b[|b| - 1];
    }
  }

  // ---- _cleanup_old_sessions ----

  const MaxInactiveSeconds: int := 24 * 60 * 60
  const MaxSessionsPerDocument: nat := 50

  function OfDocument(ss: seq<ChatSession>, documentId: string): seq<ChatSession> {
    Keep(ss, (s: ChatSession) => s.documentId == documentId)
  }

  function Inactive(ss: seq<ChatSession>, documentId: string, cutoff: int): seq<ChatSession> {
    Keep(OfDocument(ss, documentId), (s: ChatSession) => s.updatedAt < cutoff)
  }

  /** The sort key that puts the least recently updated session first. */
  function Staleness(s: ChatSession): real { -(s.updatedAt as real) }

  /** The document's sessions, least recently updated first. */
  function Oldest(ss: seq<ChatSession>, documentId: string): seq<ChatSession> {
    Sorting.SortDesc(OfDocument(ss, documentId), Staleness)
  }

  /** The document's sessions beyond the newest 50, oldest first. */
  function Excess(ss: seq<ChatSession>, documentId: string): seq<ChatSession> {
    var remaining := OfDocument(ss, documentId);
    if |remaining| > MaxSessionsPerDocument then
      Oldest(ss, documentId)[..|remaining| - MaxSessionsPerDocument]
    else []
  }

  /** The sessions left once the inactive ones, then the excess, are gone. */
  function AfterInactive(ss: seq<ChatSession>, documentId: string, now: int): seq<ChatSession> {
    Without(ss, IdsOf(Inactive(ss, documentId, now - MaxInactiveSeconds)))
  }

  /** The sessions left once the excess is gone. */
  function AfterCap(ss: seq<ChatSession>, documentId: string): seq<ChatSession> {
    Without(ss, IdsOf(Excess(ss, documentId)))
  }

  function AfterCleanup(ss: seq<ChatSession>, documentId: string, now: int): seq<ChatSession> {
    AfterCap(AfterInactive(ss, documentId, now), documentId)
  }

  /** Other documents' sessions are all kept, and only they. */
  lemma CleanupKeepsOtherDocuments(ss: seq<ChatSession>, documentId: string, now: int, s: ChatSession)
    requires DistinctIds(ss)
    requires s.documentId != documentId
    ensures s in AfterCleanup(ss, documentId, now) <==> s in ss
  {
    var cutoff := now - MaxInactiveSeconds;
    var s1 := AfterInactive(ss, documentId, now);
    if s in ss {
      if s.id in IdsOf(Excess(s1, documentId)) {
        var t :| t in Excess(s1, documentId) && t.id == s.id;
        var remaining := OfDocument(s1, documentId);
        Sorting.SortDescSameElements(remaining, Staleness, t);
        SameIdSame(ss, s, t);
      }
    }
  }

  /** No session of the document that was idle past the cutoff survives. */
  lemma CleanupRemovesInactive(ss: seq<ChatSession>, documentId: string, now: int)
    ensures forall s :: s in AfterCleanup(ss, documentId, now) && s.documentId == documentId ==>
      s.updatedAt >= now - MaxInactiveSeconds
  {
    forall s | s in AfterCleanup(ss, documentId, now) && s.documentId == documentId
      ensures s.updatedAt >= now - MaxInactiveSeconds
    {
    }
  }

  /** A document's session that survives the cap lies among the newest 50 of
    * the sorted ones. */
  lemma KeptIsAmongNewest(s1: seq<ChatSession>, documentId: string, k: ChatSession)
    requires k in AfterCap(s1, documentId) && k.documentId == documentId
    ensures var sorted := Oldest(s1, documentId);
      |sorted| > MaxSessionsPerDocument ==> k in sorted[|sorted| - MaxSessionsPerDocument..]
  {
    var remaining := OfDocument(s1, documentId);
    var sorted := Oldest(s1, documentId);
    if |sorted| > MaxSessionsPerDocument {
      assert k in remaining;
      Sorting.SortDescSameElements(remaining, Staleness, k);
      assert Excess(s1, documentId) == sorted[..|sorted| - MaxSessionsPerDocument];
      NotInPrefix(sorted, |sorted| - MaxSessionsPerDocument, k);
    }
  }

  /** An element of a sequence whose id is not among a prefix's lies in the
    * rest. */
  lemma NotInPrefix(sorted: seq<ChatSession>, n: nat, k: ChatSession)
    requires n <= |sorted| && k in sorted && k.id !in IdsOf(sorted[..n])
    ensures k in sorted[n..]
  {
    var j :| 0 <= j < |sorted| && sorted[j] == k;
    assert sorted[n..][j - n] == k;
  }

  /** A sequence without repeated elements is as long as its set. */
  lemma {:induction false} DistinctCard<T>(xs: seq<T>)
    requires forall i, j :: 0 <= i < j < |xs| ==> xs[i] != xs[j]
    ensures |set x | x in xs| == |xs|
  {
    if |xs| > 0 {
      var pre := xs[..|xs| - 1];
      DistinctCard(pre);
      assert (set x | x in xs) == (set x | x in pre) + {xs[|xs| - 1]};
      assert xs[|xs| - 1] !in (set x | x in pre);
    }
  }

  lemma {:induction false} SetCardAtMostLen<T>(xs: seq<T>)
    ensures |set x | x in xs| <= |xs|
  {
    if |xs| > 0 {
      var pre := xs[..|xs| - 1];
      SetCardAtMostLen(pre);
      assert (set x | x in xs) == (set x | x in pre) + {xs[|xs| - 1]};
    }
  }

  lemma {:induction false} SubsetCard<T>(a: set<T>, b: set<T>)
    requires a <= b
    ensures |a| <= |b|
    decreases |b|
  {
    if a != {} {
      var x :| x in a;
      SubsetCard(a - {x}, b - {x});
    }
  }

  /** After cleanup a document has at most 50 sessions. */
  lemma CleanupCap(ss: seq<ChatSession>, documentId: string, now: int)
    requires DistinctIds(ss)
    ensures |OfDocument(AfterCleanup(ss, documentId, now), documentId)| <= MaxSessionsPerDocument
  {
    var s1 := AfterInactive(ss, documentId, now);
    var remaining := OfDocument(s1, documentId);
    var kept := OfDocument(AfterCleanup(ss, documentId, now), documentId);
    if |remaining| > MaxSessionsPerDocument {
      var sorted := Sorting.SortDesc(remaining, Staleness);
      var newest := sorted[|sorted| - MaxSessionsPerDocument..];
      forall k | k in kept ensures k in newest {
        KeptIsAmongNewest(AfterInactive(ss, documentId, now), documentId, k);
      }
      assert forall i, j :: 0 <= i < j < |kept| ==> kept[i] != kept[j];
      DistinctCard(kept);
      SetCardAtMostLen(newest);
      SubsetCard(set x | x in kept, set x | x in newest);
    } else {
      forall k | k in kept ensures k in remaining {
      }
      assert forall i, j :: 0 <= i < j < |kept| ==> kept[i] != kept[j];
      DistinctCard(kept);
      SetCardAtMostLen(remaining);
      SubsetCard(set x | x in kept, set x | x in remaining);
    }
  }

  /** An active session of the document that cleanup removes was among the
    * excess. */
  lemma RemovedIsExcess(ss: seq<ChatSession>, documentId: string, now: int, r: ChatSession)
    requires DistinctIds(ss)
    requires r in ss && r.documentId == documentId && r.updatedAt >= now - MaxInactiveSeconds
    requires r !in AfterCleanup(ss, documentId, now)
    ensures var sorted := Oldest(AfterInactive(ss, documentId, now), documentId);
      |sorted| > MaxSessionsPerDocument && r in sorted[..|sorted| - MaxSessionsPerDocument]
  {
    var s1 := AfterInactive(ss, documentId, now);
    var remaining := OfDocument(s1, documentId);
    assert r in s1;
    var t :| t in Excess(s1, documentId) && t.id == r.id;
    Sorting.SortDescSameElements(remaining, Staleness, t);
    SameIdSame(ss, r, t);
  }

  lemma PrefixNoNewer(sorted: seq<ChatSession>, n: nat, r: ChatSession, k: ChatSession)
    requires Sorting.SortedDesc(sorted, Staleness) && n <= |sorted|
    requires r in sorted[..n] && k in sorted[n..]
    ensures r.updatedAt <= k.updatedAt
  {
    var i :| 0 <= i < n && sorted[i] == r;
    var j :| 0 <= j < |sorted[n..]| && sorted[n..][j] == k;
    assert Staleness(sorted[i]) >= Staleness(sorted[n + j]);
  }

  /** Every active session of the document that cleanup removes is no newer
    * than any it keeps. */
  lemma CleanupRemovesOldest(ss: seq<ChatSession>, documentId: string, now: int, r: ChatSession, k: ChatSession)
    requires DistinctIds(ss)
    requires r in ss && r.documentId == documentId && r.updatedAt >= now - MaxInactiveSeconds
    requires r !in AfterCleanup(ss, documentId, now)
    requires k in AfterCleanup(ss, documentId, now) && k.documentId == documentId
    ensures r.updatedAt <= k.updatedAt
  {
    var s1 := AfterInactive(ss, documentId, now);
    var sorted := Oldest(s1, documentId);
    RemovedIsExcess(ss, documentId, now, r);
    KeptIsAmongNewest(AfterInactive(ss, documentId, now), documentId, k);
    Sorting.SortDescSorted(OfDocument(s1, documentId), Staleness);
    PrefixNoNewer(sorted, |sorted| - MaxSessionsPerDocument, r, k);
  }

  /** With 50 or fewer active sessions, cleanup keeps them all. */
  lemma CleanupKeepsFew(ss: seq<ChatSession>, documentId: string, now: int, s: ChatSession)
    requires DistinctIds(ss)
    requires |OfDocument(AfterInactive(ss, documentId, now), documentId)| <= MaxSessionsPerDocument
    requires s in ss && s.updatedAt >= now - MaxInactiveSeconds
    ensures s in AfterCleanup(ss, documentId, now)
  {
  }

  /** `_chat_sessions`: the sessions in the dict's insertion order. */
  class ChatRegistry {
    var sessions: seq<ChatSession>

    ghost predicate Valid()
      reads this
    {
      DistinctIds(sessions)
    }

    constructor()
      ensures Valid() && sessions == []
    {
      sessions := [];
    }

    /** `update_chat_session`: a missing id raises; otherwise the title and
      * window are set when given, and the update time always. */
    method UpdateChatSession(id: string, title: Option<string>, contextWindow: Option<int>, now: int)
      returns (r: Result<ChatSession>)
      requires Valid()
      modifies this
      ensures Valid()
      ensures IndexOf(old(sessions), id).None? ==> r.Failure? && sessions == old(sessions)
      ensures IndexOf(old(sessions), id).Some? ==>
        var i := IndexOf(old(sessions), id).value;
        var s := old(sessions)[i];
        var s' := s.(title := title.GetOr(s.title), contextWindow := contextWindow.GetOr(s.contextWindow), updatedAt := now);
        r == Success(s') && sessions == old(sessions)[i := s']
    {
      var found := IndexOf(sessions, id);
      if found.None? {
        return Failure("Chat session " + id + " not found");
      }
      var i := found.value;
      var session := sessions[i];
      if title.Some? {
        session := session.(title := title.value);
      }
      if contextWindow.Some? {
        session := session.(contextWindow := contextWindow.value);
      }
      session := session.(updatedAt := now);
      sessions := sessions[i := session];
      r := Success(session);
    }

    /** `delete_chat_session` */
    method DeleteChatSession(id: string) returns (deleted: bool)
      requires Valid()
      modifies this
      ensures Valid()
      ensures deleted <==> exists s :: s in old(sessions) && s.id == id
      ensures sessions == Without(old(sessions), {id})
      ensures forall s :: s in sessions ==> s.id != id
    {
      var found := IndexOf(sessions, id);
      deleted := found.Some?;
      sessions := Without(sessions, {id});
    }

    /** `clear_chat_history`: a missing id raises; otherwise only the system
      * messages stay (or none), the query count restarts and the update time
      * is set. */
    method ClearChatHistory(id: string, keepSystemMessages: bool, now: int) returns (r: Result<ChatSession>)
      requires Valid()
      modifies this
      ensures Valid()
      ensures IndexOf(old(sessions), id).None? ==> r.Failure? && sessions == old(sessions)
      ensures IndexOf(old(sessions), id).Some? ==>
        var i := IndexOf(old(sessions), id).value;
        var s := old(sessions)[i];
        var s' := s.(messages := if keepSystemMessages then SystemOnly(s.messages) else [],
                     totalQueries := 0, updatedAt := now);
        r == Success(s') && sessions == old(sessions)[i := s']
    {
      var found := IndexOf(sessions, id);
      if found.None? {
        return Failure("Chat session " + id + " not found");
      }
      var i := found.value;
      var session := sessions[i];
      if keepSystemMessages {
        session := session.(messages := SystemOnly(session.messages));
      } else {
        session := session.(messages := []);
      }
      session := session.(totalQueries := 0, updatedAt := now);
      sessions := sessions[i := session];
      r := Success(session);
    }

    /** The `del self._chat_sessions[session.id]` loop of the cleanup. */
    method DeleteEach(victims: seq<ChatSession>)
      requires Valid()
      modifies this
      ensures Valid()
      ensures sessions == Without(old(sessions), IdsOf(victims))
    {
      ghost var start := sessions;
      WithoutNone(start);
      assert IdsOf(victims[..0]) == {};
      for k := 0 to |victims|
        invariant sessions == Without(start, IdsOf(victims[..k]))
        invariant DistinctIds(sessions)
      {
        IdsOfStep(victims, k);
        WithoutTwice(start, IdsOf(victims[..k]), {victims[k].id});
        sessions := Without(sessions, {victims[k].id});
      }
      assert victims[..|victims|] == victims;
    }

    /** `_cleanup_old_sessions`: the document's sessions idle for more than
      * 24 hours go, then all but its 50 most recently updated. */
    method CleanupOldSessions(documentId: string, now: int)
      requires Valid()
      modifies this
      ensures Valid()
      ensures sessions == AfterCleanup(old(sessions), documentId, now)
    {
      var cutoff := now - MaxInactiveSeconds;
      var inactive := Inactive(sessions, documentId, cutoff);
      DeleteEach(inactive);
      ghost var afterInactive := sessions;
      assert afterInactive == AfterInactive(old(sessions), documentId, now);
      var remaining := OfDocument(sessions, documentId);
      if |remaining| > MaxSessionsPerDocument {
        var sorted := Sorting.SortDesc(remaining, Staleness);
        assert sorted[..|sorted| - MaxSessionsPerDocument] == Excess(afterInactive, documentId);
        DeleteEach(sorted[..|sorted| - MaxSessionsPerDocument]);
      } else {
        assert IdsOf(Excess(afterInactive, documentId)) == {};
        WithoutNone(afterInactive);
      }
    }
  }

  lemma {:induction false} WithoutNone(ss: seq<ChatSession>)
    ensures Without(ss, {}) == ss
  {
    if |ss| > 0 {
      WithoutNone(ss[..|ss| - 1]);
      assert ss == ss[..|ss| - 1] + [ss[|ss| - 1]];
    }
  }
}
