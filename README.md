# J-VIBE TLF metadata extraction, modelled in Dafny

J-VIBE ingests clinical study report PDFs and answers questions about their
Tables, Listings and Figures (TLFs). Its core is the TLF extractor: it walks
the ordered text chunks of a document and emits one metadata record per
chunk, with the TLF type, the dotted output number, the title, the
population, the clinical domain and several confidences. It carries a
"current TLF" context from chunk to chunk, so that continuation chunks
(data rows, footnotes) inherit the identity of the output they belong to.

This project models that extractor and the services around it, and proves
what they promise:

- `TlfSignals`, `TlfPatterns`, `TlfDomains`, `TlfHeader`: the per-chunk
  signals. These are the two table-of-contents tests, type, number, title
  and population detection, the structure flags, the two-pass
  clinical-domain scorer with its merge and validation, page boundaries and
  the flexible header reader. The extractor's pattern searches (the TOC,
  type, number, title-skip, population, structure, data and boundary
  patterns, and the regex keywords of the domain passes) are fields of a
  `Matchers` value, applied to the exact string the extractor hands to
  `re`. A few regular expressions are modelled concretely instead: the
  word-bounded literal keyword count (`TlfDomains.BoundedCount`), the
  title-part clean-up (`TlfHeader.DropTrailingMark`), the digit-run count
  (`Strings.DigitRuns`) and the `KEY:` searches of the reply parser
  (`TlfLlm.SearchKey`). Substring tests, splitting, stripping, case and word counts are
  modelled on the strings themselves. The scoring tables, bonuses,
  multipliers and caps are exact `real` arithmetic.
- `TlfLlm`: the parser of the language model's `KEY: value` reply.
- `TlfExtractor`: the per-chunk decision and the context machine.
  - It merges header and pattern results, commits early on a confident
    header, and decides whether to inherit.
  - Its late commit goes through the transition test.
  - The class `Extractor` holds `_current_tlf`, `_tlf_confidence` and
    `_tlf_history`, and its methods update them in place. Each method is
    proved equal to a step or a pass of the functional model.
  - `TlfExtractorFacts` proves what that model promises.
- `StorageService`, `QueryService`, `DocumentService`, `ChatService`,
  `Helpers`, `BaseExtractor`: the index registry with duplicate-document
  links, the retrieval filter and source summary, the filename sanitisers
  and listing views, the chat context and session registry, and the text
  cleaners. Their `re.sub`/`re.search` calls (the `BaseExtractor.CleanText`
  chain, the whitespace rule of `DocumentService`, the study-id patterns of
  `Helpers`) are modelled concretely.
- `Common`, `Strings`, `MapSum` and `Sorting`: shared helpers.
  - `Common` holds Python truthiness and slicing.
  - `Strings` holds ASCII string operations.
  - `MapSum` holds order-free sums over dictionaries.
  - `Sorting` is the stable descending sort behind `sort(..., reverse=True)`.

Some quirks of the source are reproduced as written. Each is stated as a lemma, except the last, which is the definition of the function `HeaderConfidence`:

- A header confident enough to commit early but repeating the current output
  is still labelled `new_context_set` (`NewContextSetWithoutCommit`).
- The first header of a document can be labelled as inheriting the output it
  has just opened (`OpeningChunkInherits`).
- The missing comma in the strict TOC indicator list glues two patterns into
  one that can never match (`GluedPatternNeverMatches`).
- The flexible header never takes a title from the TLF line itself
  (`NoSameLineTitle`).
- A protocol found on the first line can be replaced by a later one
  (`ProtocolOnLineZeroReplaced`).
- `mitt population` and `modified intention to treat population` are
  standardised to ITT (`PartialMittReadsAsItt`, `ModifiedIntentionReadsAsItt`).
- `_extract_population` returns upper-case keys (`PopulationIsUpperCase`).
- The LLM confidence is not clamped (`ParseFloatAboveOne`).
- The header-confidence bonus always counts the title lines
  (`HeaderConfidence`).

One defect is corrected; it is listed under Findings.

## Model

| member | source | states |
|---|---|---|
| Sorting.SortDesc | backend/app/services/query_service.py:223 | the stable descending sort returns a permutation of its input, of the same length |
| Sorting.SortDescSorted | backend/app/services/query_service.py:223 | the sorted sequence is ordered by descending key |
| Sorting.SortDescSameElements | backend/app/services/query_service.py:223 | an element is in the sorted sequence exactly when it is in the input |
| Helpers.SanitizeFilename | backend/app/utils/helpers.py:19-28 | the loop of one `replace` per unsafe character yields `Sanitized(filename)`: same length and no unsafe character left |
| Helpers.SanitizedProperties | backend/app/utils/helpers.py:22-28 | the sanitised name keeps the length, holds no character of the unsafe list, and keeps every safe character at its position |
| Helpers.SanitizedIdempotent | backend/app/utils/helpers.py:19-28 | sanitising an already sanitised name changes nothing |
| Helpers.FirstMatchIsLeftmost | backend/app/utils/helpers.py:64-67 | the position reported by the scan is the leftmost one where a match ends; when none is reported no position matches |
| Helpers.SearchIsLeftmost | backend/app/utils/helpers.py:65 | `re.search` over a study pattern reports the leftmost match position with its end, or none when the pattern matches nowhere |
| Helpers.ExtractStudyId | backend/app/utils/helpers.py:51-69 | a returned study id is a substring of the upper-cased file name |
| Helpers.OnlyCodePatternMatches | backend/app/utils/helpers.py:56-67 | the lower-case `study` and `protocol` patterns never match the upper-cased name, so the id is exactly what the `[A-Z]{2,4}...` code pattern finds |
| BaseExtractor.CountsAsValidIff | backend/app/extractors/base_extractor.py:84-90 | the three branches of the counting test collapse to: the item is truthy and does not print as `unknown` |
| BaseExtractor.UnknownDictStillCounts | backend/app/extractors/base_extractor.py:87-90 | a non-empty dict whose only value is `unknown` fails the dict branch but is still counted by the last branch |
| BaseExtractor.CountValid | backend/app/extractors/base_extractor.py:80-90 | the counting loop returns the number of items that count as valid |
| BaseExtractor.CalculateConfidence | backend/app/extractors/base_extractor.py:75-92 | 0.0 for an empty list, otherwise the valid count over the list length, always within [0, 1] |
| BaseExtractor.CollapseSpace | backend/app/extractors/base_extractor.py:61 | after collapsing, no whitespace but the plain space is left, and leading whitespace becomes one space |
| BaseExtractor.RemovePageMarkers | backend/app/extractors/base_extractor.py:64 | removing `Page n of m` markers only deletes characters: the result is a subsequence of the input |
| BaseExtractor.RemoveBareNumber | backend/app/extractors/base_extractor.py:65 | the multi-line bare-number rule either removes the whole (single-line) text or leaves it unchanged |
| BaseExtractor.RemoveDashRuns | backend/app/extractors/base_extractor.py:67-68 | removing runs of three or more dashes or underscores only deletes characters (a subsequence of the input), and no three dashes or underscores in a row remain |
| BaseExtractor.RemoveLeadingBullet | backend/app/extractors/base_extractor.py:71 | the result is a suffix of the input: the input itself without a leading bullet, otherwise the bullet and the whitespace after it are dropped and the result does not start with whitespace |
| BaseExtractor.CleanText | backend/app/extractors/base_extractor.py:55-73 | an empty text cleans to the empty text; the cleaned text neither starts nor ends with whitespace and holds no whitespace but the plain space |
| StorageService.Storage.constructor | backend/app/services/storage_service.py:15-20 | the three registries start empty and the link invariant holds |
| StorageService.Storage.CreateIndex | backend/app/services/storage_service.py:22-45 | the index and its metadata (creation time, node count, id) are stored under the id, links untouched, every link still points at an index |
| StorageService.Storage.LinkIndex | backend/app/services/storage_service.py:47-70 | fails without change when the original has no index; otherwise writes the link first, and succeeds, also writing the metadata copied from the original, exactly when the original has metadata |
| StorageService.Storage.GetIndex | backend/app/services/storage_service.py:72-81 | a linked id resolves to its original's index, any other id to its own index, absent ids to none |
| StorageService.Storage.DeleteIndex | backend/app/services/storage_service.py:83-114 | a link loses its link and metadata only; an original others link to loses only its metadata; any other document loses index and metadata; always true; links keep pointing at indexes |
| StorageService.Storage.GetTotalChunks | backend/app/services/storage_service.py:133-139 | the node counts summed over every metadata entry |
| StorageService.Storage.GetStorageInfo | backend/app/services/storage_service.py:116-131 | index, document and link counts, the index ids, the links and the summed node count |
| StorageService.LinkAfterDeletingLinkedOriginal | backend/app/services/storage_service.py:55-60 | after deleting an original that another document links to, linking a third document to it writes the link but no metadata and returns false |
| QueryService.Kept | backend/app/services/query_service.py:211-219 | the survivors are exactly the results whose larger confidence (each defaulting to 1.0) reaches the minimum, no more of them than results |
| QueryService.FilterAndRank | backend/app/services/query_service.py:210-227 | the returned hits are `min(top_k, survivors)` many, all pass the filter and come sorted by score, highest first |
| QueryService.RankedFacts | backend/app/services/query_service.py:210-227 | the ranked hits pass the filter, are sorted by descending score, and form a sub-multiset of the survivors |
| QueryService.CollectedFacts | backend/app/services/query_service.py:235-295 | after the first `k` keys, the list holds one `in` filter carrying its list for each of those keys with a non-empty list, in visiting order |
| QueryService.CollectedAllKeys | backend/app/services/query_service.py:235-295 | a filter for a key is built exactly when the query's list for that key is non-empty |
| QueryService.BuildMetadataFiltersNone | backend/app/services/query_service.py:229-303 | no filters are built exactly when there are no filters or every list is empty |
| QueryService.BuildMetadataFiltersFacts | backend/app/services/query_service.py:229-303 | otherwise the result is an AND of `in` filters, one per non-empty list, each carrying that list, in the order type, domain, number, population, study, compound |
| QueryService.SummarizeKeys | backend/app/services/query_service.py:355-381 | the summary loop keeps distinct keys, in step with the dict, exactly the keys of the results seen |
| QueryService.SummarizeCounts | backend/app/services/query_service.py:377 | each summary entry counts the results filed under its key, and the counts add up to the number of results |
| QueryService.SummarizeConfidence | backend/app/services/query_service.py:378-381 | each entry's confidence is the largest among its results |
| QueryService.SummarizeFirst | backend/app/services/query_service.py:367-375 | each entry's title and page come from the first result filed under its key |
| QueryService.SourcesKeys | backend/app/services/query_service.py:365-383 | the source list has one source per distinct `type number` key and every result's key has a source |
| QueryService.SourcesCounts | backend/app/services/query_service.py:377-383 | each source counts its results and the counts add up to the number of results |
| QueryService.SourcesConfidenceBounds | backend/app/services/query_service.py:378-381 | no result filed under a source has a higher confidence than the source |
| QueryService.SourcesConfidenceAttained | backend/app/services/query_service.py:363-381 | some result filed under a source has exactly the source's confidence |
| QueryService.SourcesFirst | backend/app/services/query_service.py:359-375 | a source's title (`No title` when falsy) and page are its first result's |
| QueryService.ExtractSources | backend/app/services/query_service.py:352-383 | the loop returns the summary's values in first-seen key order |
| QueryService.AppendedBounded | backend/app/services/query_service.py:391-395 | the history after an append holds at most 100 entries, ends with the new answer, and is the old history plus it when that fits, else its last 99 plus it |
| QueryService.NewestFirst | backend/app/services/query_service.py:408 | after the newest-first sort the front entry is at least as recent as every entry |
| QueryService.TrimAfterReadDropsNewest | backend/app/services/query_service.py:385-410 | reading a full history sorts it in place, so the next append's trim drops the newest answer rather than the oldest |
| QueryService.QueryHistory.constructor | backend/app/services/query_service.py:23-48 | the history registry starts empty |
| QueryService.QueryHistory.AddToHistory | backend/app/services/query_service.py:385-395 | the document's list becomes the trimmed append, at most 100 entries ending with the new answer; other documents untouched |
| QueryService.QueryHistory.GetQueryHistory | backend/app/services/query_service.py:397-410 | the stored list is replaced by its newest-first sort and the page `[offset:offset+limit]` of it is returned; an unknown document gives an empty page |
| DocumentService.SplitExt | backend/app/services/document_service.py:441-445 | with a `.` the name is stem + `.` + extension and the extension holds no `.` (the split is at the last dot); without one the extension is empty |
| DocumentService.SpaceRunsToUnderscore | backend/app/services/document_service.py:455 | the result has no whitespace, every character is `_` or comes from the input, and it is no longer than the input |
| DocumentService.SpaceRunsKeepSolid | backend/app/services/document_service.py:455 | collapsing whitespace keeps every character that is neither whitespace nor `_`, in order, and changes nothing in a text without whitespace |
| DocumentService.StripDotSpace | backend/app/services/document_service.py:458 | the stripped stem neither starts nor ends with `.` or space, and keeps only characters of the input |
| DocumentService.CleanedAvoids | backend/app/services/document_service.py:448-458 | replacing the unsafe characters, collapsing whitespace and stripping leave no unsafe character and no whitespace |
| DocumentService.CleanStemIsSafe | backend/app/services/document_service.py:447-458 | the cleaned stem holds no unsafe character and no whitespace and does not start or end with `.` or space |
| DocumentService.SanitizedIsSafe | backend/app/services/document_service.py:437-464 | the stored name is a safe stem, followed by `.` and the unchanged extension when that extension is non-empty |
| DocumentService.SanitizeFilename | backend/app/services/document_service.py:437-464 | the method's loop and rewrites compute the sanitised name |
| DocumentService.TallyNode | backend/app/services/document_service.py:557-569 | one loop pass keeps the total equal to the typed nodes, the type and domain maps equal to the per-key counts, and the total equal to the sum of the type counts |
| DocumentService.CountTlfOutputs | backend/app/services/document_service.py:550-575 | the total counts the nodes with a type and equals the sum of the type counts; each map holds exactly the non-zero per-type / per-domain counts; `table_of_contents` is never a domain key |
| DocumentService.TocNeverCounted | backend/app/services/document_service.py:568 | the `table_of_contents` domain is never counted |
| DocumentService.TypeCountsPartition | backend/app/services/document_service.py:561-564 | two different types together count no more nodes than the typed total |
| DocumentService.WithFieldsKeeps | backend/app/services/document_service.py:535-537 | keyword arguments never touch the id, status, progress, message or timestamps, and a field no argument names keeps its value |
| DocumentService.LastTotalPagesWins | backend/app/services/document_service.py:535-537 | among the keyword arguments the last one naming a field decides its value |
| DocumentService.WithFieldsAppend | backend/app/services/document_service.py:535-537 | applying two runs of keyword arguments is applying their concatenation |
| DocumentService.StatusRegistry.constructor | backend/app/services/document_service.py:32-96 | the status registry starts empty |
| DocumentService.StatusRegistry.UpdateStatus | backend/app/services/document_service.py:515-548 | an existing record gets the status, progress, message and time, then the keyword fields, with no range check; a new record is stored only when its progress is within 0..100, otherwise nothing changes |
| DocumentService.Filtered | backend/app/services/document_service.py:598-611 | exactly the stored documents that pass every non-empty filter |
| DocumentService.ListDocumentsSorted | backend/app/services/document_service.py:613-617 | the page holds at most `limit` documents, newest first |
| DocumentService.ListDocumentsMatch | backend/app/services/document_service.py:596-617 | every listed document is stored and passes every filter |
| DocumentService.ListDocumentsComplete | backend/app/services/document_service.py:596-617 | a page from 0 as long as the store lists every stored document that passes the filters |
| DocumentService.FiledKeepsKeys | backend/app/services/document_service.py:632-637 | filing a document keeps every list already in the structure |
| DocumentService.FiledOnlyItsList | backend/app/services/document_service.py:632-646 | filing a document changes no list but the one at its own compound, study and deliverable |
| DocumentService.FiledGrouped | backend/app/services/document_service.py:624-646 | filing one more document keeps every list equal to the entries of the documents at its keys, in stored order, and every document filed |
| DocumentService.GetDocumentsByStructure | backend/app/services/document_service.py:619-648 | every list of the structure holds, in stored order, the entries of exactly the documents at its compound, study and deliverable, no list is empty, and every document is filed |
| ChatService.ContextLinesFacts | backend/app/services/chat_service.py:401-407 | each context line is a non-system message behind its label, every non-system message gives one, and there are none exactly when all messages are system messages |
| ChatService.ContextEmptyIff | backend/app/services/chat_service.py:392-409 | the context is empty exactly when the last `2 * context_window` messages are all system messages or there are none |
| ChatService.ContextOnlyRecent | backend/app/services/chat_service.py:396 | messages older than the last `2 * context_window` never reach the context |
| ChatService.LineLabels | backend/app/services/chat_service.py:406-407 | assistant lines start with `You: `, all others with `User: ` |
| ChatService.KeywordFilter | backend/app/services/chat_service.py:425-428 | the kept words are exactly the words longer than three characters that are a clinical word in any case or contain a `.` |
| ChatService.KeywordsOf | backend/app/services/chat_service.py:418-429 | every collected keyword passes the keyword test |
| ChatService.KeywordsOfComplete | backend/app/services/chat_service.py:418-429 | a word is collected exactly when it is a qualifying word of the text after the colon of some `User:` or `You:` line: none is missed and nothing else is collected |
| ChatService.EnhanceQueryFacts | backend/app/services/chat_service.py:411-436 | the query comes back unchanged when the context is empty or yields no keyword; otherwise it is followed by a space and the space-joined list of keywords, which has no repeats and holds exactly the qualifying words of the `User:`/`You:` lines among the last four context lines |
| ChatService.WithoutTwice | backend/app/services/chat_service.py:513-525 | deleting one set of ids after another is deleting both at once |
| ChatService.SystemOnly | backend/app/services/chat_service.py:381 | the kept messages are exactly the system messages |
| ChatService.SystemOnlyAppend | backend/app/services/chat_service.py:381 | keeping the system messages preserves their order |
| ChatService.CleanupKeepsOtherDocuments | backend/app/services/chat_service.py:507-525 | another document's session survives the cleanup exactly when it was stored |
| ChatService.CleanupRemovesInactive | backend/app/services/chat_service.py:510-515 | no session of the document idle for more than 24 hours survives |
| ChatService.CleanupCap | backend/app/services/chat_service.py:517-525 | after cleanup the document has at most 50 sessions |
| ChatService.RemovedIsExcess | backend/app/services/chat_service.py:518-525 | an active session the cleanup removes was among the oldest beyond the newest 50 |
| ChatService.CleanupRemovesOldest | backend/app/services/chat_service.py:518-525 | every active session the cleanup removes was updated no later than any session it keeps |
| ChatService.CleanupKeepsFew | backend/app/services/chat_service.py:518-519 | with 50 or fewer active sessions every active session is kept |
| ChatService.ChatRegistry.constructor | backend/app/services/chat_service.py:30 | the registry starts empty, ids distinct |
| ChatService.ChatRegistry.UpdateChatSession | backend/app/services/chat_service.py:343-360 | a missing id fails with nothing changed; otherwise the title and window are set when given and the update time always, only in that session |
| ChatService.ChatRegistry.DeleteChatSession | backend/app/services/chat_service.py:362-370 | returns whether the id was stored, and afterwards no session has it while all others stay in order |
| ChatService.ChatRegistry.ClearChatHistory | backend/app/services/chat_service.py:372-390 | a missing id fails with nothing changed; otherwise only the system messages stay (none when asked), the query count restarts and the update time is set |
| ChatService.ChatRegistry.DeleteEach | backend/app/services/chat_service.py:513-515 | the deletion loop leaves the sessions without the victims' ids |
| ChatService.ChatRegistry.CleanupOldSessions | backend/app/services/chat_service.py:502-527 | the sessions become the result of removing the document's sessions idle past the cutoff, then all but its 50 most recently updated |
| TlfSignals.CountContained | backend/app/extractors/tlf_exractor.py:1297 | the number of indicators found in a text is at most the number of indicators |
| TlfSignals.CountContainedPositive | backend/app/extractors/tlf_exractor.py:1357-1361 | the count is positive exactly when some indicator occurs in the text |
| TlfSignals.CleanLines | backend/app/extractors/tlf_exractor.py:625 | the cleaned lines are no more than the lines, none empty and each already stripped |
| TlfSignals.GluedPatternNeverMatches | backend/app/extractors/tlf_exractor.py:2185-2186 | the indicator glued together by the missing comma can never match: there is no word boundary between `figures` and `toc` |
| TlfSignals.TocStrictIff | backend/app/extractors/tlf_exractor.py:2172-2221 | a text is a strict table of contents exactly when one of the five working indicators matches and no clinical exclusion does; `index of figures` and `toc` alone never qualify |
| TlfSignals.StrictHitsIff | backend/app/extractors/tlf_exractor.py:2179-2189 | some indicator of the list as written hits exactly when one of its first five does |
| TlfSignals.CountTocLines | backend/app/extractors/tlf_exractor.py:631-644 | TOC entry lines and plain content lines together are no more than the lines |
| TlfSignals.TocShapedCounts | backend/app/extractors/tlf_exractor.py:650-656 | the structural test means at least five lines, three entries, entries over three fifths and content under one fifth of the lines |
| TlfSignals.TocByStructure | backend/app/extractors/tlf_exractor.py:588-658 | a table of contents without a short indicator line has no table-content marker and meets the structural counts |
| TlfSignals.EmptyTextIsNotToc | backend/app/extractors/tlf_exractor.py:588-658 | the empty text is never a table of contents, whatever the regular expressions |
| TlfSignals.DefinitionLines | backend/app/extractors/tlf_exractor.py:1349-1350 | the definition-line count is at most the number of lines |
| TlfSignals.StructureConfidenceByContentType | backend/app/extractors/tlf_exractor.py:1781-1790 | structure confidence and content type read the flags in the same order: header 0.9, data 0.8, footnote 0.7, only plain content below 0.7, always within [0.3, 0.9] |
| TlfSignals.StructureFacts | backend/app/extractors/tlf_exractor.py:1286-1363 | a text of fifty words or more is a header only through a TLF reference or a page number; under five characters it is never a footnote; a footnote that also reads as data was recognised by its opening or its definition lines, not by keywords |
| TlfPatterns.ScanTypesBound | backend/app/extractors/tlf_exractor.py:520-527 | no TLF type's pattern hit scores above the confidence the type scan ends with |
| TlfPatterns.ScanTypesNone | backend/app/extractors/tlf_exractor.py:520-527 | the scan ends with no type exactly when its confidence is 0, and then no type pattern hit at all |
| TlfPatterns.ScanTypesFirst | backend/app/extractors/tlf_exractor.py:520-527 | the type kept is the first in dictionary order reaching the final confidence (the strict `>` keeps earlier ties) |
| TlfPatterns.ScanTypesValues | backend/app/extractors/tlf_exractor.py:520-527 | the scanned confidence is only ever 0, 0.7 or 0.9 |
| TlfPatterns.ScanAtStartIff | backend/app/extractors/tlf_exractor.py:520-527 | over table/listing/figure the scan reaches 0.9 if and only if some type pattern matches at the start of the text |
| TlfPatterns.NumberShape | backend/app/extractors/tlf_exractor.py:1136-1176 | a number taken from the first lines has two to five dot-separated parts of at most three digits, or comes from a first line under 20 characters with two to four parts of at most two digits |
| TlfPatterns.OutputNumberShape | backend/app/extractors/tlf_exractor.py:1136-1176 | a table of contents yields no output number; otherwise any number found has one of the two validated shapes |
| TlfPatterns.FirstTitle | backend/app/extractors/tlf_exractor.py:1179-1232 | the title returned is one of the candidate lines and passes every title test; none is returned only when no line passes |
| TlfPatterns.FirstTitleIsFirst | backend/app/extractors/tlf_exractor.py:1179-1232 | the title returned is the first candidate line that passes: no line before it passes the title test |
| TlfPatterns.TitleFacts | backend/app/extractors/tlf_exractor.py:1179-1232 | a title is one of the first five non-empty stripped lines, 10 to 200 characters long, with none of the page/protocol/sponsor/date/confidential words |
| TlfPatterns.FirstPopulationFacts | backend/app/extractors/tlf_exractor.py:1234-1243 | the population key found is the first in order whose pattern hits; none is found only when no key hits |
| TlfPatterns.PopulationIsUpperCase | backend/app/extractors/tlf_exractor.py:1234-1243 | the population is returned as an upper-cased key name and contains no lower-case letter |
| TlfPatterns.SafetyKeyUpper | backend/app/extractors/tlf_exractor.py:1234-1243 | the safety population is reported as `SAFETY` |
| TlfPatterns.TypeConfidenceValues | backend/app/extractors/tlf_exractor.py:514-543 | type confidence is 0.9, 0.7, 0.6 (tabular fallback) or 0, it is 0 exactly when no type is found, and 0.9 exactly when a type pattern matches at the start |
| TlfPatterns.PatternResultFacts | backend/app/extractors/tlf_exractor.py:499-559 | a table of contents gives the fixed TOC result; any other text gives method `pattern` with the detected type and its confidence, no type exactly at confidence 0 |
| TlfDomains.RegexCharIsRegex | backend/app/extractors/tlf_exractor.py:833 | under the corrected keyword test a keyword holding any regex character anywhere goes to the regex engine |
| TlfDomains.BoundedHitIsSubstring | backend/app/extractors/tlf_exractor.py:836-849 | a keyword the strict pass counts with word boundaries occurs literally in the text, so the loose substring test finds it too |
| TlfDomains.GainShape | backend/app/extractors/tlf_exractor.py:830-851 | a keyword adds either nothing or at least 1 (`1 + (matches - 1) * 0.3`) to its domain's score |
| TlfDomains.TallyFacts | backend/app/extractors/tlf_exractor.py:826-851 | the matched keywords are exactly the domain's keywords that scored, each adds at least 1, and a domain scores if and only if one of its keywords matched |
| TlfDomains.DomainConfidenceBounds | backend/app/extractors/tlf_exractor.py:952-983 | domain confidence stays in [0, 1] and is at least 0.32 once the score reaches 1 |
| TlfDomains.DomainConfidenceMonotoneInScore | backend/app/extractors/tlf_exractor.py:952-983 | a higher score never lowers the domain confidence |
| TlfDomains.DomainConfidenceMonotoneInMatches | backend/app/extractors/tlf_exractor.py:952-983 | once something matched, more distinct matched keywords never lower the domain confidence |
| TlfDomains.PassEntryFacts | backend/app/extractors/tlf_exractor.py:853-866 | a domain listed by a pass carries its own name, at least one match, a score of at least 1 and a confidence in [0.32, 1] |
| TlfDomains.PassWellScored | backend/app/extractors/tlf_exractor.py:819-884 | every entry of the strict or loose pass is a domain of the keyword table with a score of at least 1 and a confidence in [0.32, 1] |
| TlfDomains.PassListsIff | backend/app/extractors/tlf_exractor.py:819-884 | a domain is listed by a pass if and only if one of its keywords was found |
| TlfDomains.PassNamesOnlyScanned | backend/app/extractors/tlf_exractor.py:819-884 | a pass lists no domain that the keyword table does not name |
| TlfDomains.TallyKeywords | backend/app/extractors/tlf_exractor.py:826-851 | the keyword loop returns the score and matched keywords of the domain's tally |
| TlfDomains.ScorePass | backend/app/extractors/tlf_exractor.py:819-884 | the strict or loose pass returns, per domain in table order, the score, matched keywords and confidence of its tally |
| TlfDomains.IndexOfDomain | backend/app/extractors/tlf_exractor.py:699-708 | the index found holds the entry of that domain; none is found only when the domain is absent |
| TlfDomains.MergeNames | backend/app/extractors/tlf_exractor.py:692-708 | the merged domains are exactly those of either pass |
| TlfDomains.MergeKeepsStrict | backend/app/extractors/tlf_exractor.py:692-708 | merging keeps the strict entries first, in order, and never lowers their score or confidence |
| TlfDomains.MergePasses | backend/app/extractors/tlf_exractor.py:692-708 | the merge loop folds each loose entry into the strict ones: scores add, keywords unite, the higher confidence wins |
| TlfDomains.MultiplierBounds | backend/app/extractors/tlf_exractor.py:743-801 | the validation multiplier lies between 0.18 and 1.2 |
| TlfDomains.ValidateFacts | backend/app/extractors/tlf_exractor.py:731-818 | each surviving domain keeps its name and keywords, has a confidence in (0.2, 1] and comes from an input entry; validation never adds entries |
| TlfDomains.ValidateDomains | backend/app/extractors/tlf_exractor.py:731-818 | the validation loop keeps, in order, the entries whose multiplied confidence exceeds 0.2, with score and confidence scaled |
| TlfDomains.BestFacts | backend/app/extractors/tlf_exractor.py:716-722 | the primary entry exists exactly when some domain survived; no surviving entry outranks it by (confidence, score), and it outranks every entry before it, so a tie goes to the earliest entry as in the stable sort |
| TlfDomains.ClassifyDomainsDual | backend/app/extractors/tlf_exractor.py:660-730 | the dual classifier runs both passes, merges, validates and takes the best entry, with the corrected keyword test |
| TlfDomains.ClassifyFacts | backend/app/extractors/tlf_exractor.py:660-730 | a table of contents gives the fixed TOC domain; otherwise there is a primary domain exactly when some domain survived, with confidence in (0.2, 1], no entry outranking it, and the first of any tie |
| TlfDomains.AsWrittenBackslashKeywordNeverScores | backend/app/extractors/tlf_exractor.py:833-839 | as written, a keyword with a backslash but no `\b`, `[` or `r"` prefix is escaped and matched literally, so it never scores in a text without a backslash |
| TlfDomains.AdverseEventKeywordInTable | backend/app/extractors/tlf_exractor.py:66-67 | `adverse\s+event` is the first adverse-event keyword |
| TlfDomains.LiteralAsWritten | backend/app/extractors/tlf_exractor.py:833 | as written, a keyword with no `b`, no `[` and no `r"` prefix is compared literally whatever regex syntax it holds |
| TlfDomains.AdverseEventKeywordShape | backend/app/extractors/tlf_exractor.py:66-67 | `adverse\s+event` has a backslash but no `b`, `[` or `r"` prefix |
| TlfDomains.AdverseEventKeywordRegexCorrected | backend/app/extractors/tlf_exractor.py:833 | the corrected test sends `adverse\s+event` to the regex engine |
| TlfDomains.CorrectedLiteralKeywordsArePlain | backend/app/extractors/tlf_exractor.py:833 | under the corrected test only keywords free of regex characters are matched literally |
| TlfHeader.Lookup | backend/app/extractors/tlf_exractor.py:1736-1737 | the exact-match lookup returns the value paired with the key; nothing only when no key equals it |
| TlfHeader.FirstKeyIn | backend/app/extractors/tlf_exractor.py:1740-1742 | the partial-match lookup returns the value of a key occurring in the text; nothing only when no key occurs |
| TlfHeader.StandardizeFacts | backend/app/extractors/tlf_exractor.py:1706-1745 | a population is the value of a key equal to or contained in the lower-cased, stripped text; only when no key occurs is the text title-cased |
| TlfHeader.PopulationMapIttShape | backend/app/extractors/tlf_exractor.py:1712-1733 | the population map has 20 keys, `itt` at position 6, and every key other than `itt`, `mitt` and `pp` holds one of the letters s, r, e |
| TlfHeader.PopulationMapMittShape | backend/app/extractors/tlf_exractor.py:1712-1733 | `mitt` is the tenth key and no earlier key has four letters |
| TlfHeader.PartialIttReading | backend/app/extractors/tlf_exractor.py:1739-1742 | with that key order, any trimmed lower-case text holding `itt` without the letters s, r, e that is not itself a key standardises to ITT |
| TlfHeader.FirstKeyAt | backend/app/extractors/tlf_exractor.py:1739-1742 | the first key in map order that occurs in the text decides the partial match |
| TlfHeader.PartialMittReadsAsItt | backend/app/extractors/tlf_exractor.py:1706-1745 | a modified-ITT text such as `mitt population` standardises to ITT, not mITT |
| TlfHeader.ModifiedIntentionReadsAsItt | backend/app/extractors/tlf_exractor.py:1706-1745 | `modified intention to treat population` standardises to ITT: `intention to treat` is the first key it contains |
| TlfHeader.IntentionReading | backend/app/extractors/tlf_exractor.py:1735-1742 | with `intention to treat` fifth and only `s`-keys and `treated` before it, a long trimmed lower-case text holding it but not `treated` reads as ITT |
| TlfHeader.PopulationMapIntentionShape | backend/app/extractors/tlf_exractor.py:1712-1733 | the map has that key order, every key at most 27 characters |
| TlfHeader.ModifiedIntentionShape | backend/app/extractors/tlf_exractor.py:1706-1745 | the spelled-out modified population meets those conditions |
| TlfHeader.PartialReadingAt | backend/app/extractors/tlf_exractor.py:1735-1742 | a trimmed lower-case text that is no key is read by the first key, in map order, that it contains |
| TlfHeader.ExactMittReading | backend/app/extractors/tlf_exractor.py:1735-1737 | the exact key `mitt` is read as its own value |
| TlfHeader.MittIsModified | backend/app/extractors/tlf_exractor.py:1706-1745 | `mitt` alone standardises to mITT |
| TlfHeader.LookupAt | backend/app/extractors/tlf_exractor.py:1735-1737 | the first pair carrying the key decides the exact match |
| TlfHeader.MittPopulationShape | backend/app/extractors/tlf_exractor.py:1739-1742 | `mitt population` meets the conditions of the ITT reading |
| TlfHeader.LinesSignals | backend/app/extractors/tlf_exractor.py:1936-2013 | every clean line gets one set of scan tests |
| TlfHeader.TitleParts | backend/app/extractors/tlf_exractor.py:2016-2024 | every title part kept is longer than two characters |
| TlfHeader.HeaderConfidenceThresholds | backend/app/extractors/tlf_exractor.py:1747-1779 | header confidence lies in [0, 1]; above 0.6 it requires a type with a non-empty number, and above 0.8 also a title longer than five characters |
| TlfHeader.ScanSignals | backend/app/extractors/tlf_exractor.py:1936-2013 | the line loop skips page furniture, takes a protocol id while none is held (or the held one is on line 0), and tries every other line for the TLF match, population and title |
| TlfHeader.ExtractFlexibleHeader | backend/app/extractors/tlf_exractor.py:1897-2035 | the method returns the header built from the scan of the clean lines |
| TlfHeader.FewLinesNoHeader | backend/app/extractors/tlf_exractor.py:1921-1924 | fewer than two non-blank lines give a header with no content and confidence 0 |
| TlfHeader.ScanTlfFromLine | backend/app/extractors/tlf_exractor.py:1962-1985 | the TLF match the scan holds is the first pattern match of a line already scanned |
| TlfHeader.HeaderOfFacts | backend/app/extractors/tlf_exractor.py:1950-2035 | the header has content exactly when a protocol or TLF line was found, and reports the type and number of the TLF match |
| TlfHeader.HeaderTlfFromLine | backend/app/extractors/tlf_exractor.py:1897-2035 | header content holds exactly when there is a protocol or type, a type exactly when a number, and both come from the first TLF pattern matching one of the clean lines |
| TlfHeader.SignalsTlfAt | backend/app/extractors/tlf_exractor.py:1962-1985 | a line's TLF signal is the first of the three header patterns that matches it |
| TlfHeader.NoSameLineTitle | backend/app/extractors/tlf_exractor.py:1952-1982 | since the standard pattern is tried first and matches wherever the with-title pattern does, no title is ever taken from the TLF line itself |
| TlfHeader.ProtocolOnLineZeroReplaced | backend/app/extractors/tlf_exractor.py:1946-1950 | a protocol on the first clean line counts as not yet recorded, so a second protocol line replaces it |
| TlfHeader.ProtocolAfterLineZeroKept | backend/app/extractors/tlf_exractor.py:1946-1950 | a protocol recorded on a later line is kept |
| TlfHeader.HitPatterns | backend/app/extractors/tlf_exractor.py:1461-1468 | the boundary patterns kept are exactly those that match the normalised line |
| TlfHeader.BoundaryAt | backend/app/extractors/tlf_exractor.py:1458-1478 | a line is a boundary when two or more boundary patterns or a page number match it; its record carries its index and a score equal to the number of patterns matched |
| TlfHeader.Somes | backend/app/extractors/tlf_exractor.py:1458-1478 | the boundaries collected are no more than the lines |
| TlfHeader.LineRecords | backend/app/extractors/tlf_exractor.py:1458-1478 | every line gets one boundary test |
| TlfHeader.CollectBoundaries | backend/app/extractors/tlf_exractor.py:1458-1478 | the boundary loop keeps, in order, the lines that pass the boundary test |
| TlfHeader.FindBoundaries | backend/app/extractors/tlf_exractor.py:1427-1478 | the boundaries found are those of the lines of the text |
| TlfHeader.CollectHeaders | backend/app/extractors/tlf_exractor.py:1480-1492 | a header with content is collected from the window three lines before to eleven after each boundary |
| TlfHeader.DetectPageBoundaries | backend/app/extractors/tlf_exractor.py:1427-1505 | the page analysis gives the boundaries, the headers around them, the first twenty lines' header when none was found, and a new page exactly when there is a boundary |
| TlfHeader.SomesOfIndexed | backend/app/extractors/tlf_exractor.py:1458-1478 | collected boundaries are in strictly increasing line order, each the record of its own line |
| TlfHeader.BoundariesFacts | backend/app/extractors/tlf_exractor.py:1458-1478 | every boundary is the boundary record of its line, and boundaries come in line order |
| TlfHeader.PageAnalysisFacts | backend/app/extractors/tlf_exractor.py:1480-1505 | every header reported has content, and a page is new exactly when a boundary was found |
| TlfHeader.BoundaryHeadersHaveContent | backend/app/extractors/tlf_exractor.py:1488-1492 | only headers with content are collected around boundaries |
| TlfHeader.BestHeaderFacts | backend/app/extractors/tlf_exractor.py:354-358 | there is a best header exactly when some header was found; it has the highest confidence and every header before it a strictly lower one, so `max` picks the first of equals |
| TlfLlm.CaptureFacts | backend/app/extractors/tlf_exractor.py:471-477 | a capture after a key is non-empty and on one line, a confidence capture holds only digits and dots, and a rest-of-line capture is missing exactly when only newlines follow the key |
| TlfLlm.LineCaptureFacts | backend/app/extractors/tlf_exractor.py:471-476 | `\s*([^\n]+)` after a key captures part of one line, and fails exactly when nothing but newlines follows |
| TlfLlm.SearchKeyLeftmost | backend/app/extractors/tlf_exractor.py:481 | the search returns the capture of the leftmost place where the key and its capture match |
| TlfLlm.SearchKeyCaptures | backend/app/extractors/tlf_exractor.py:481 | whatever the search finds is a well-formed capture |
| TlfLlm.SearchKeyAbsent | backend/app/extractors/tlf_exractor.py:481-482 | with no match anywhere the search finds nothing and the key stays unset |
| TlfLlm.KeyLineCaptured | backend/app/extractors/tlf_exractor.py:471-482 | for a reply whose first key match is followed by a space and a line, the key captures that line |
| TlfLlm.LineCaptureAt | backend/app/extractors/tlf_exractor.py:471-476 | a single space then a line gives exactly that line as the capture |
| TlfLlm.NumeralCaptured | backend/app/extractors/tlf_exractor.py:477-482 | for a reply whose first `CONFIDENCE:` is followed by a space and a numeral, the numeral is captured |
| TlfLlm.NumeralCaptureAt | backend/app/extractors/tlf_exractor.py:477 | a single space then a run of digits and dots gives exactly that run as the capture |
| TlfLlm.ParseFloat | backend/app/extractors/tlf_exractor.py:485 | `float` of a digits-and-dots run, when it succeeds, is non-negative |
| TlfLlm.ParseFloatAccepts | backend/app/extractors/tlf_exractor.py:485 | `float` accepts a digits-and-dots run exactly when it has at most one dot and at least one digit |
| TlfLlm.ParseFloatAboveOne | backend/app/extractors/tlf_exractor.py:485 | a confidence of 1.5 is read as 1.5: nothing clamps it to 1 |
| TlfLlm.ParseFloatTwoDots | backend/app/extractors/tlf_exractor.py:485 | a confidence of 1.2.3 cannot be read |
| TlfLlm.KeptGroupsFacts | backend/app/extractors/tlf_exractor.py:487 | every treatment group kept is stripped, non-empty and not "unknown" in any case, and there are no more groups than parts |
| TlfLlm.KeptGroupsComplete | backend/app/extractors/tlf_exractor.py:487 | no part whose strip is non-empty and not "unknown" is dropped |
| TlfLlm.KeptGroupsAvoid | backend/app/extractors/tlf_exractor.py:486-487 | a character that no `;`-separated part holds is in no kept group |
| TlfLlm.GroupsFieldClean | backend/app/extractors/tlf_exractor.py:486-487 | every treatment group parsed is clean and holds no `;` |
| TlfLlm.TextFieldOfLine | backend/app/extractors/tlf_exractor.py:488-489 | a text field read from a line is that line stripped, never empty, and None exactly when it reads "unknown" in any case |
| TlfLlm.TextAtLine | backend/app/extractors/tlf_exractor.py:488-489 | the same holds for any key's text capture |
| TlfLlm.ConfidenceOfNumeral | backend/app/extractors/tlf_exractor.py:483-485 | a captured numeral holds no whitespace, so its confidence is `float` of it |
| TlfLlm.ParseReplyConfidence | backend/app/extractors/tlf_exractor.py:468-496 | a confidence `float` rejects turns the reply into the error record; otherwise the reply carries the confidence read, or none when absent, and the caller's method name |
| TlfLlm.ConfidenceFieldOfNumeral | backend/app/extractors/tlf_exractor.py:477-485 | the confidence of a reply whose first confidence key is followed by a numeral is `float` of that numeral |
| TlfLlm.MalformedConfidenceIsError | backend/app/extractors/tlf_exractor.py:483-496 | a first confidence numeral with more than one dot raises and discards every other field of the reply |
| TlfLlm.ConfidenceAsWritten | backend/app/extractors/tlf_exractor.py:483-491 | a readable first confidence numeral is carried as its value, whatever its size, with the caller's method name |
| TlfExtractor.AllSignals | backend/app/extractors/tlf_exractor.py:339-358 | one set of signals (TOC test, page analysis, patterns, structure, domain, best header) is read per chunk |
| TlfExtractor.TypesStep | backend/app/extractors/tlf_exractor.py:2108-2110 | counting one more history entry by its truthy type keeps the type distribution equal to the non-zero per-type counts, and the typed count rises by one exactly for a typed entry |
| TlfExtractor.DomainsStep | backend/app/extractors/tlf_exractor.py:2111-2112 | counting one more entry by its truthy domain keeps the domain distribution equal to the non-zero per-domain counts |
| TlfExtractor.TallyEntry | backend/app/extractors/tlf_exractor.py:2108-2122 | one pass of the summary loop keeps both distributions equal to the counts over the entries seen |
| TlfExtractor.TypedAtMost | backend/app/extractors/tlf_exractor.py:2108-2110 | the type distribution counts no more entries than the history holds, and all of them when every entry has a type |
| TlfExtractor.Extractor.constructor | backend/app/extractors/tlf_exractor.py:13-32 | a new extractor has no current output, confidence 0, an empty history and the given confidence threshold |
| TlfExtractor.Extractor.UpdateTlfContext | backend/app/extractors/tlf_exractor.py:1067-1114 | the state after the update is the context update of the old state by the record |
| TlfExtractor.Extractor.ApplySignals | backend/app/extractors/tlf_exractor.py:353-428 | for a chunk that is not a table of contents, the record and new state are those of one step of the extraction |
| TlfExtractor.Extractor.DecideChunk | backend/app/extractors/tlf_exractor.py:336-428 | each chunk gets the TOC record or the step's record, and the state becomes the step's |
| TlfExtractor.Extractor.ExtractAll | backend/app/extractors/tlf_exractor.py:336-451 | the loop returns the records of the pass over all chunks and leaves the state the pass ends in |
| TlfExtractor.Extractor.Extract | backend/app/extractors/tlf_exractor.py:332-451 | extraction returns the pass over the chunks' signals and leaves the state that pass ends in |
| TlfExtractor.Extractor.ResetContext | backend/app/extractors/tlf_exractor.py:2323-2333 | after a reset there is no current output, confidence 0 and an empty history |
| TlfExtractor.Extractor.GetTlfSummary | backend/app/extractors/tlf_exractor.py:2102-2130 | the summary counts every history entry, holds exactly the non-zero per-type and per-domain counts, whose type counts add up to the typed entries, and lists every output in history order with the current context |
| TlfExtractorFacts.ConfidentHeaderWins | backend/app/extractors/tlf_exractor.py:361-371 | a header more confident than 0.6 wins every field it has, the method is `flexible_header_analysis` and the confidence is the larger of the two |
| TlfExtractorFacts.WeakHeaderOnlyFillsTitle | backend/app/extractors/tlf_exractor.py:372-384 | without a confident header the pattern result stands, except that a missing title is taken from the header at 0.2 more confidence, capped at 1 |
| TlfExtractorFacts.OverallConfidenceBounds | backend/app/extractors/tlf_exractor.py:2085-2100 | signal scores in [0, 1] give an overall confidence in [0, 1]; without an LLM above 0.7 it is the weighted sum |
| TlfExtractorFacts.ConfidentLlmBlends | backend/app/extractors/tlf_exractor.py:2085-2100 | an LLM more confident than 0.7 moves the score between the weighted sum and its own confidence |
| TlfExtractorFacts.OverallConfidenceMonotone | backend/app/extractors/tlf_exractor.py:2085-2100 | a better score on any signal never lowers the overall confidence |
| TlfExtractorFacts.CombineWithoutLlm | backend/app/extractors/tlf_exractor.py:984-1065 | without an LLM the record keeps position, context, transitions and the pattern's truthy fields; a non-header under the threshold with a current output fills its gaps from it and is marked `_inherited`, and only then |
| TlfExtractorFacts.CombineWithLlm | backend/app/extractors/tlf_exractor.py:984-1065 | an LLM at or under 0.7 changes nothing; a more confident one wins its truthy type and number, the title only above 0.9 or when none was found, and is recorded in the method |
| TlfExtractorFacts.InheritRefusals | backend/app/extractors/tlf_exractor.py:1792-1871 | a typed, numbered record over 0.8, a table of contents, no current output, and a header with little continuation and header content never inherit |
| TlfExtractorFacts.InheritGrants | backend/app/extractors/tlf_exractor.py:1792-1871 | past the refusals, data, footnotes and anything with a continuation score of two or more inherit |
| TlfExtractorFacts.InheritedRecordFacts | backend/app/extractors/tlf_exractor.py:2268-2311 | an inherited record takes the context's title, keeps its own type, number, population and domain and fills its gaps, and its confidence rises by at least 0.2 up to 0.9 |
| TlfExtractorFacts.TransitionReasons | backend/app/extractors/tlf_exractor.py:1394-1425 | a first output is always a transition, as is a change of truthy number or truthy type |
| TlfExtractorFacts.NoTransition | backend/app/extractors/tlf_exractor.py:1394-1425 | the same type, number and title is never a transition, nor is a chunk naming none of them |
| TlfExtractorFacts.ShortTitlesStay | backend/app/extractors/tlf_exractor.py:1411-1422 | titles of ten characters or fewer are never compared, so with the same type and number the chunk stays in its output |
| TlfExtractorFacts.UpdateContextFacts | backend/app/extractors/tlf_exractor.py:1067-1114 | the update leaves the state alone, or on a transition with two of type, number and title or confidence over 0.8 opens the record's context at this chunk and logs exactly that entry; footnotes, headers without type and number and low scores change nothing; consistency is kept |
| TlfExtractorFacts.UpdateIdempotent | backend/app/extractors/tlf_exractor.py:1067-1114 | once a record has opened its context, offering it again changes nothing |
| TlfExtractorFacts.UpdateGrows | backend/app/extractors/tlf_exractor.py:1067-1114 | an update adds at most the entry of the current chunk to the history |
| TlfExtractorFacts.TocStep | backend/app/extractors/tlf_exractor.py:2368-2401 | a table of contents gets the TOC record with no type or number, and the context is left alone |
| TlfExtractorFacts.DecideFacts | backend/app/extractors/tlf_exractor.py:395-428 | the decided record keeps its position and carries the new context; after an early commit the state is unchanged, otherwise at most one entry is added; consistency is kept; an inherited record has a context and scores at most 0.9 |
| TlfExtractorFacts.StepFacts | backend/app/extractors/tlf_exractor.py:336-428 | one chunk gives a record at its position carrying the new context, at most one new history entry, and a consistent state stays consistent |
| TlfExtractorFacts.NewContextSetWithoutCommit | backend/app/extractors/tlf_exractor.py:395-417 | a confident header repeating the current output is labelled `new_context_set` though the context is unchanged |
| TlfExtractorFacts.OpeningChunkInherits | backend/app/extractors/tlf_exractor.py:395-413 | a header chunk between 0.6 and 0.8 that opens a document's first output is then labelled as inheriting that output when it reads like a continuation |
| TlfExtractorFacts.StepOkHolds | backend/app/extractors/tlf_exractor.py:336-428 | one chunk meets everything the pass over a document relies on |
| TlfExtractorFacts.GrowsAscending | backend/app/extractors/tlf_exractor.py:402-425 | an entry added at the latest chunk keeps the newer entries ascending and the older ones intact |
| TlfExtractorFacts.RunStepOk | backend/app/extractors/tlf_exractor.py:336-449 | the pass over n chunks is the pass over n - 1 followed by one step that meets its promises |
| TlfExtractorFacts.RunRecords | backend/app/extractors/tlf_exractor.py:336-451 | a pass gives one record per chunk at its own position, and the TOC record for every table of contents |
| TlfExtractorFacts.RecordsExtend | backend/app/extractors/tlf_exractor.py:341-449 | appending a well-placed record keeps the record list in order |
| TlfExtractorFacts.RunHistory | backend/app/extractors/tlf_exractor.py:336-451 | a pass over n chunks adds at most n entries after the old history, opened at ascending chunks below n, and keeps the state consistent |
| TlfExtractorFacts.HistoryExtend | backend/app/extractors/tlf_exractor.py:402-425 | a step that grows the history by at most its own entry keeps the pass's history promises |
| TlfExtractorFacts.ExtractFacts | backend/app/extractors/tlf_exractor.py:332-451 | from a fresh extractor, extraction gives one record per chunk at its position, at most one history entry per chunk, and a consistent state |

## Findings

| source | as written | input that shows it | evidently intended | confidence | as-written member | corrected member |
|---|---|---|---|---|---|---|
| backend/app/extractors/tlf_exractor.py:833-839 | a keyword counts as a regular expression only when it starts with `r"` or contains `\b` or `[`; any other keyword is passed through `re.escape` (strict pass) or looked up as a substring (loose pass), backslashes included | the adverse-event keyword `adverse\s+event` against the chunk text `serious adverse event summary`: the keyword adds nothing, because the text holds no backslash | every keyword spelled with regex syntax goes to `re.findall` unescaped, so `adverse\s+event` matches `adverse event` | high; not executed | TlfDomains.AsWrittenBackslashKeywordNeverScores | TlfDomains.AdverseEventKeywordRegexCorrected |

`TlfDomains.LiteralAsWritten` and `TlfDomains.AdverseEventKeywordShape` show that the as-written test sends `adverse\s+event` down the literal path. `TlfDomains.CorrectedLiteralKeywordsArePlain` shows that, once corrected, only keywords free of regex characters are compared literally. `TlfDomains.ClassifyDomainsDual` applies the corrected test. `TlfExtractor.SignalsOf` takes the test from the configuration's `correctedKeywordTest` flag, so every fact about the extractor holds both for the program as written and for the corrected one; `TlfExtractor.Extractor.constructor` builds the corrected one.

## Left out

- Regular-expression matching in the extractor: the pattern searches listed above are fields of `TlfSignals.Matchers`, taken as given. What those patterns accept is not modelled, and neither is the `re.error` fallback of the domain passes. The concretely modelled expressions (`TlfDomains.BoundedCount`, `TlfHeader.DropTrailingMark`, `Strings.DigitRuns`, `TlfLlm.SearchKey`, the `BaseExtractor`, `DocumentService` and `Helpers` substitutions and searches) are written out on the strings.
- Character classes are ASCII only. Case mapping, `\d` and `isdigit`, `isalpha`, and the word characters of `\b` all use ASCII. Whitespace is six characters: space, tab, newline, carriage return, vertical tab and form feed. Python also treats `\x1c` to `\x1f` as whitespace; the model does not. Python's Unicode `lower`, `upper`, `title`, `split`, `strip`, `\d`, `\w` and `isdigit` are wider.
- TlfDomains.Combine: the merged keyword list keeps first-seen order, where `list(set(...))` orders it by string hashes, which vary per run. `ChatService.EnhanceQuery` fixes the same first-seen order for its keywords.
- DocumentService.GetDocumentsByStructure, DocumentService.CountTlfOutputs and TlfExtractor.Extractor.GetTlfSummary: return maps, where the source's dictionaries keep first-seen insertion order. That order is not modelled.
- DocumentService.WithFields: a keyword argument naming anything but the five optional fields is skipped. In the source, `hasattr` also holds for `document_id`, `status`, `progress`, `message`, `created_at` and `updated_at`, so `setattr` would overwrite them. No caller passes such a name, and `DocumentService.WithFieldsKeeps` holds only under that assumption.
- StorageService.Storage.GetStorageInfo: reports the index ids as a set; the source's `list(self._indexes.keys())` is in insertion order, which the model's map does not keep.
- QueryService.FilterAndRank: a hit's score is always a number. The source's `getattr(x, 'score', 1.0)` can give `None`, the sort then raises inside `try/except: pass`, and the survivors come back in whatever order the interrupted sort left. That order is not modelled. `topK` is a `nat`, so a negative `top_k`, which would slice from the end, is not modelled either.
- Floating point: confidences are exact reals. Python's doubles and `round` are not modelled.
- TlfLlm.ParseFloat: keeps the exact decimal of the numeral, where `float` rounds it to a double.
- Language-model calls, prompts, `aextract`, `_allm_tlf_analysis` and `_llm_tlf_analysis`: not modelled beyond the reply parser. The reply text is a parameter, and merging an LLM result into a record is modelled as an optional input of `CombineResults`. `extract` itself never calls the model.
- `__call__`, which writes the records into llama-index nodes: not modelled.
- Logging, `print`, `debug_info`, `page_analysis` and `best_header` fields of a record: not modelled. They are diagnostics that no decision reads.
- `_determine_title_source`, the `debug_*` methods, `suggest_title_fixes` and `get_performance_stats`: diagnostics only, not modelled.
- Header cache: `_check_cache`, `_is_repeat_header`, `_create_optimized_metadata` and `_update_cache` are never called from `extract`, so they are not modelled. `reset_context` clearing the cache fields is left out with them.
- `_extract_header_from_section` is never called; its live twin `_extract_flexible_header` is modelled.
- `_extract_page_info`, `_extract_sponsor_info` and `_extract_document_context` only fill informational dictionaries no decision reads; not modelled.
- `_extract_treatment_groups` is an input of the model (`Matchers.treatmentGroups`); its regex scan is not modelled.
- TlfExtractor.AllSignals: reads every chunk's signals up front, including chunks the strict test then calls a table of contents. Those signals are never used, so the records are the same.
- TlfExtractor.UpdateContext: leaves out the TOC guard of `_update_tlf_context`. The guard reads a `text` entry that no record has, so it tests the empty text, which is never a table of contents (`TlfSignals.EmptyTextIsNotToc`).
- TlfExtractor.TitlesDiffer: a title longer than ten characters made only of whitespace makes `_detect_tlf_transition` divide by zero. The model reads the titles as not different instead of raising.
- TlfHeader.HeaderOf: standardises the population once after the line scan, where the source does it on the line. The last population line wins in both.
- StorageService: the vector index, its nodes and `VectorStoreIndex` construction are opaque values.
- QueryService: retrieval, `_prepare_context`, `_query_llm`, `process_query`, the streaming variants, `get_available_sources` and `get_query_count` are not modelled. They are LLM and vector-store plumbing.
- DocumentService: PDF parsing, the ingestion pipeline, file storage and hashing, `_handle_duplicate_document`, `delete_document`'s file removal, `get_documents_summary` and `get_average_processing_time` are not modelled. They are I/O, or averages over floats.
- ChatService: `create_new_chat`, `send_message`, the streaming and LLM helpers, `get_chat_statistics` and `list_chat_sessions` are not modelled. They are LLM plumbing or views over the same registry.
- Clocks, UUIDs and hashes: timestamps are integers passed in by the caller, identifiers are parameters.
- Helpers: `generate_document_id`, `generate_file_hash`, `format_processing_time` and `safe_json_serialize` are not modelled. They wrap uuid, sha256, float formatting and json.
- BaseExtractor: `extract`, `_get_timestamp` and `_extract_with_llm` are not modelled; they are abstract, a clock read and an LLM call.
- Concurrency: the services' `async` methods are modelled as sequential calls.
