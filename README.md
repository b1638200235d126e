# Neo RAG research agent: the deterministic core in Dafny

This project models the deterministic layer of a Norwegian legal research
assistant. The assistant answers questions about statutes from Lovdata by
retrieving statute paragraphs from a vector index and asking a language
model to answer from them. Around the model and index calls sits plain
sequential logic, and that logic is what the Dafny modules model:

- `SharedState` (`src/shared/state.py`): the evidence reducer `reduce_docs`
  of the plan-driven graph. It handles the `"delete"` sentinel, single
  strings, and lists of strings, dicts and Documents. Documents get a
  composite fingerprint (id, paragraph, chapter, chunk and a short content
  hash). The md5-based `_generate_uuid` is an uninterpreted parameter
  `H` returning a 36-character text.
- `AgentState` (`src/state.py`): the content-keyed evidence merge of the
  tool-loop agent.
- `RetrievalGraph` (`src/retrieval_graph/graph.py`): the classifier
  post-processing, `route_query`, the plan and research node updates,
  `check_finished`, the graph's edges, and a run of the graph as a trace
  of nodes. The language model's answers and the retriever's results are
  inputs.
- `NeoRagAgent` (`src/neo_rag_agent.py`): `should_call_tool` and the
  two-node agent/tools loop, run over given model answers.
- `SharedUtils` (`src/shared/utils.py`): the XML rendering of evidence
  (`_format_doc`, `format_docs`) and the provider/model split of
  `load_chat_model`.
- `IngestLovdata` (`scripts/ingest_lovdata.py`):
  - the greedy line packer `standard_chunking`;
  - paragraph segmentation `chunke_basert_pa_paragrafer`, with the
    chapter lookup `finn_kapittel`;
  - the statute metadata built by `parse_lov_metadata`.
  Regular-expression matches are inputs: match positions and groups.
- `Tools` (`src/tools.py`):
  - the sub-query line parsing of `generer_sokestrenger`;
  - the metadata filter of `hent_lovtekst`;
  - the match-to-Document mapping shared by `sok_lovdata` and
    `hent_lovtekst`;
  - the numbered context of `sammenstill_svar`.
- `Utils` (`src/utils.py`): `truncate_text` and `format_metadata`.
- `Config` (`src/config.py`): `validate_config`, the secret masking of
  `get_config_dict`, and the `DEBUG` flag.

Two modules support them:

- `Common`: Python's values and ordered dicts. A dict is a sequence of
  key/value pairs in insertion order, because the renderers iterate in
  that order. Exceptions are `Err` values named after the Python exception.
- `Text`: Python's string operations, with round-trip lemmas for split
  and join.

Code that updates state step by step is written as methods with loops.
Each method is proved equal to a specification function, and the
properties are proved about that function. Examples:

- `reduce_docs` over its candidate list;
- `conduct_research`'s retrieval loop;
- the line packer;
- the paragraph loop;
- the step-by-step metadata dict;
- the renderers' `+=` loops;
- the filter dict;
- the match loops.

Code that is one expression or conditional is written as functions.

Facts about the code that the model follows:

- `reduce_docs` in `src/shared/state.py` is not idempotent for Document
  candidates, although its docstring (`src/shared/state.py:30`) says it
  combines existing documents with new ones by document ID. See
  "Findings".
- The code has neither an evidence cap nor a ceiling on tool rounds, so
  the model has neither.
- The keyword override of a `generelt` classification runs only when
  classification succeeded. The guard `if state.messages` on that path
  is dead: the last message is already read before the `try`
  (`src/retrieval_graph/graph.py:47`). An empty conversation therefore
  raises `IndexError` instead of taking the fallback.
- An empty research plan does not end the turn. The edge into
  `conduct_research` is unconditional, and reading `steps[0]` raises
  `IndexError`.
- `generer_sokestrenger` tests a line with `strip()` but keeps
  `strip('- ').strip()`. So a line `-` yields the empty query `""`.
- The textual date form (`1 januar 2020`) leaves the date field empty.
  The reformatting only runs when the text holds a `.`.

## Model

| member | source | states |
|---|---|---|
| SharedState.FingerprintParts | src/shared/state.py:70-90 | the parts are the truthy fields among id, paragraf_nr, kapittel_nr and chunk_id, in that order, then `h:` and the first 8 characters of the hash of the first 50 characters; there is always at least the hash part |
| SharedState.Part | src/shared/state.py:73-86 | a field contributes at most one part, and only when it is truthy |
| SharedState.FingerprintDeterministic | src/shared/state.py:69-96 | two Documents with equal id, paragraf_nr, kapittel_nr and chunk_id and an equal 50-character prefix get the same fingerprint |
| SharedState.ItemId | src/shared/state.py:50-99 | the id of every candidate is truthy (`H` of the text for a string; the given uuid, or `H` of the content, for a dict; the hashed fingerprint for a Document), so the uuid-writing branch for an empty id never runs |
| SharedState.Emit | src/shared/state.py:51-107 | a string becomes a Document whose only metadata is `uuid` = its id; a dict keeps its content and its other keys and gets `uuid` = its id; a Document is appended as it is |
| SharedState.EmitAll | src/shared/state.py:47-109 | one Document per admitted candidate |
| SharedState.AgreeWithoutExisting | src/shared/state.py:41-109 | with no existing evidence, the reducer as written and the corrected reducer agree on every input |
| SharedState.AsWrittenNotIdempotent | src/shared/state.py:49-107 | merging `Document("x", {})` into what merging it once produced appends it a second time |
| SharedState.AdmitsOne | src/shared/state.py:105-107 | a single candidate with an unseen id is appended |
| SharedState.DocumentId | src/shared/state.py:68-103 | the id computed by successive appends to `doc_id_parts` is the fingerprint, it is truthy, and the Document is kept unchanged |
| SharedState.MergeOne | src/shared/state.py:50-107 | one loop step: the candidate's id joins the seen set, and the candidate is appended exactly when it is a string or its id was unseen |
| SharedState.AdmittedStep | src/shared/state.py:50-107 | one more candidate adds its id to the seen ids and is admitted exactly when it is kept against the seed and the ids before it |
| SharedState.EmitAllAppend | src/shared/state.py:47-109 | the appended Documents of two candidate lists concatenate |
| SharedState.MergeAll | src/shared/state.py:47-107 | the candidate loop appends exactly the admitted candidates' Documents, in order |
| SharedState.ReduceDocs | src/shared/state.py:16-109 | `"delete"` gives `[]`; a single string appends one Document with uuid `H(new)` and no duplicate check; a list appends the admitted candidates to the existing evidence (corrected seed) |
| SharedState.ReduceDocsAsWritten | src/shared/state.py:16-109 | the reducer as written: `"delete"` gives `[]`; for a list, the existing evidence is an unchanged prefix and at most one Document per candidate is appended |
| SharedState.AdmittedLength | src/shared/state.py:50-107 | no more candidates are admitted than given, and each admitted one is a given candidate |
| SharedState.AdmittedInOrder | src/shared/state.py:50-107 | the appended candidates are a subsequence of the candidates: each is the candidate at its kept position, and the kept positions strictly increase |
| SharedState.ReducePrefix | src/shared/state.py:41-109 | for a list, the existing evidence (`[]` for None) is an unchanged prefix and the result has at most `existing + new` entries |
| SharedState.AdmittedKeyedUnique | src/shared/state.py:56-107 | no admitted dict or Document has an id from the seed, and no two admitted dicts or Documents share an id (first seen wins) |
| SharedState.AdmittedKeepsStrings | src/shared/state.py:51-54 | every string candidate is appended, duplicates included |
| SharedState.SeedAppend | src/shared/state.py:49 | the ids seeded from two evidence lists are the union of their seeds |
| SharedState.EmitRecordsId | src/shared/state.py:49-107 | an appended candidate's Document is recognised by the corrected seed under the candidate's id |
| SharedState.EmittedIdsRecorded | src/shared/state.py:50-107 | after a merge, every candidate's id is in the seed or is recognised in the appended Documents |
| SharedState.NothingAdmitted | src/shared/state.py:62-66 | dicts and Documents whose ids are all seen append nothing |
| SharedState.ReduceIdempotent | src/shared/state.py:16-109 | with the corrected seed, merging the same dicts and Documents into the result a second time changes nothing |
| AgentState.Unseen | src/state.py:31-32 | the filtered list is no longer than `right` |
| AgentState.MergeByContent | src/state.py:15-34 | an empty `right` gives `left`; an empty `left` gives `right` (duplicates kept); otherwise `left` is a prefix and the rest is the docs of `right` whose text is not in `left` |
| AgentState.UnseenAppend | src/state.py:32 | the filter keeps the order: filtering a concatenation concatenates the filtered parts |
| AgentState.UnseenCount | src/state.py:31-32 | a document whose text was seen is dropped entirely; any other is kept as often as it occurs in `right` |
| AgentState.UnseenNone | src/state.py:31-32 | when every text of `right` is seen, nothing is appended |
| AgentState.UnseenCovers | src/state.py:31-34 | every text of `right` is in `left` or among the appended documents |
| AgentState.MergeIdempotent | src/state.py:25-34 | merging the same `right` into the result again changes nothing |
| RetrievalGraph.Classify | src/retrieval_graph/graph.py:54-67 | a missing type becomes `lovspørsmål` and a missing logic `""`; a `generelt` answer whose lower-cased question contains one of the nine keywords becomes `lovspørsmål` with the question quoted in the logic; any other answer is kept; `generelt` survives only without a keyword |
| RetrievalGraph.AnalyzeAndRoute | src/retrieval_graph/graph.py:25-76 | an empty conversation raises `IndexError`; a failed classification gives `lovspørsmål` with the fixed fallback logic; otherwise the post-processed classification of the last message |
| RetrievalGraph.MentionsLawSeven | src/retrieval_graph/graph.py:63-64 | the nine keywords match exactly the texts containing one of seven of them (`lovverk` and `rettslig` contain `lov` and `rett`) |
| RetrievalGraph.OffentlighetslovenNotGeneral | src/retrieval_graph/graph.py:61-67 | the question about the main principles of the Freedom of Information Act is never routed as `generelt`, whatever the classifier says |
| RetrievalGraph.RouteQuery | src/retrieval_graph/graph.py:92-101 | `lovspørsmål`, `mer-info` and `generelt` go to the plan, ask-for-more-info and general-answer nodes, each iff; any other type raises `ValueError` |
| RetrievalGraph.CheckFinished | src/retrieval_graph/graph.py:331-334 | research continues iff the steps are present and non-empty, and otherwise the answer is written |
| RetrievalGraph.Remaining | src/retrieval_graph/graph.py:313 | the steps left are `steps[1:]` |
| RetrievalGraph.Next | src/retrieval_graph/graph.py:371-387 | END follows exactly the three answering nodes; only the classifier's route can raise; research follows exactly the plan node and a research round with steps left |
| RetrievalGraph.CreateResearchPlanUpdate | src/retrieval_graph/graph.py:178 | the plan's steps are the planner's, and the documents update clears any existing evidence |
| RetrievalGraph.ResearchLoop | src/retrieval_graph/graph.py:313-334 | with N ≥ 1 steps left, a run from the research node makes exactly N research rounds, then answers and ends |
| RetrievalGraph.PlanRounds | src/retrieval_graph/graph.py:178-384 | a plan of N ≥ 1 steps gives exactly N research rounds before the answer; an empty plan raises `IndexError` |
| RetrievalGraph.RunFromStart | src/retrieval_graph/graph.py:371-387 | the whole run for each classification: legal questions plan and research (or raise on an empty plan), `mer-info` and `generelt` end after their node, unknown types raise `ValueError` |
| RetrievalGraph.CollectDocs | src/retrieval_graph/graph.py:243-306 | the retrieval loop gathers the documents of each sub-query in order and stops at the first retriever exception |
| RetrievalGraph.CollectedStopsAtFailure | src/retrieval_graph/graph.py:243-306 | a failing call keeps exactly what was gathered before it |
| RetrievalGraph.ConductResearchRound | src/retrieval_graph/graph.py:182-315 | an empty plan raises `IndexError`; a failing query-generation call (outside the `try`) raises its exception; otherwise the steps left are `steps[1:]`, and the documents are the gathered ones passed through `reduce_docs(None, ...)` |
| RetrievalGraph.AdmittedDocs | src/retrieval_graph/graph.py:310 | every document kept by the deduplication is one of those gathered |
| RetrievalGraph.FreshMerge | src/retrieval_graph/graph.py:310 | merging into no evidence starts from an empty seen set |
| RetrievalGraph.ResearchEvidenceUnique | src/retrieval_graph/graph.py:310 | a round's evidence has no more documents than were gathered, each was gathered, and no two share a fingerprint |
| NeoRagAgent.ShouldCallTool | src/neo_rag_agent.py:83-95 | an empty conversation raises; otherwise `tools` iff the last message has non-empty tool calls, and `__end__` iff it has none (absent or empty) |
| NeoRagAgent.Next | src/neo_rag_agent.py:111-121 | the run starts at the agent; the tool node always returns to the agent; END is reached only from the agent; nothing leads back to START |
| NeoRagAgent.AgentUpdate | src/neo_rag_agent.py:77-80 | each agent call contributes exactly the model's one answer |
| NeoRagAgent.ToolRoundsCounts | src/neo_rag_agent.py:111-121 | k tool rounds visit the agent k times and the tool node k times, and never END |
| NeoRagAgent.ToolRoundsAlternate | src/neo_rag_agent.py:111-121 | in k tool rounds the agent and the tool node alternate, agent first |
| NeoRagAgent.EndsAtFirstFinalAnswer | src/neo_rag_agent.py:111-121 | when answer k is the first without tool calls, the run makes k tool rounds, then ends at the agent with that answer last in the conversation |
| NeoRagAgent.NoFinalAnswer | src/neo_rag_agent.py:111-121 | while every answer asks for tools, the loop never reaches END |
| SharedUtils.StructEntry | src/shared/utils.py:34-35 | a structural key contributes at most one element |
| SharedUtils.StructEntries | src/shared/utils.py:33-35 | at most one element per structural key |
| SharedUtils.OtherEntries | src/shared/utils.py:39-41 | at most one generic element per entry |
| SharedUtils.RenderStructural | src/shared/utils.py:32-35 | the structural part is the lines of the present, truthy structural keys, in the fixed order of the seven-key list |
| SharedUtils.RenderKeys | src/shared/utils.py:33-35 | the `+=` loop over a key list renders exactly its present, truthy keys, in the list's order |
| SharedUtils.RenderGeneric | src/shared/utils.py:38-41 | the generic part is the lines of the non-structural entries whose value is not None, in insertion order |
| SharedUtils.FormatDoc | src/shared/utils.py:15-52 | one document renders as its content, the structural part and the generic part in the XML frame |
| SharedUtils.StructEntriesMembers | src/shared/utils.py:33-35 | an element is rendered structurally iff its key is structural and present with a truthy value |
| SharedUtils.StructEntriesAppend | src/shared/utils.py:33-35 | the structural elements follow the key list's order |
| SharedUtils.OtherEntriesMembers | src/shared/utils.py:39-41 | an entry is rendered generically iff it is not structural and its value is not None, so structural keys never appear in that form |
| SharedUtils.OtherEntriesAppend | src/shared/utils.py:39-41 | the generic elements keep the insertion order |
| SharedUtils.EmptyMetadata | src/shared/utils.py:24-52 | a document without metadata renders with both metadata parts empty |
| SharedUtils.NoStructEntries | src/shared/utils.py:33-35 | empty metadata has no structural elements |
| SharedUtils.Blocks | src/shared/utils.py:83 | one rendered block per document, in order |
| SharedUtils.FormatDocs | src/shared/utils.py:81-82 | None and the empty list render as `<documents></documents>` |
| SharedUtils.BlocksAppend | src/shared/utils.py:83 | the blocks of concatenated lists concatenate |
| SharedUtils.FormatDocsAppend | src/shared/utils.py:81-86 | the rendering of two non-empty lists is their blocks joined by a newline inside one `<documents>` frame |
| SharedUtils.FormatOneDoc | src/shared/utils.py:83-86 | one document renders as its block inside the `<documents>` frame |
| SharedUtils.FirstIndex | src/shared/utils.py:96 | the position of the first `/`, if any |
| SharedUtils.SplitModelName | src/shared/utils.py:95-99 | with no `/` the provider is `""` and the model the whole name; otherwise provider, `/` and model give back the name, and the provider holds no `/` |
| SharedUtils.SplitModelNameUnique | src/shared/utils.py:95-99 | the split is at the first `/`: a provider without `/` is recovered exactly, the model keeping any later `/` |
| IngestLovdata.SizeSnoc | scripts/ingest_lovdata.py:358-368 | a chunk's size grows by the length of each line added |
| IngestLovdata.FlattenSnoc | scripts/ingest_lovdata.py:362 | closing a chunk appends its lines to the lines packed so far |
| IngestLovdata.CloseKeepsInv | scripts/ingest_lovdata.py:360-364 | closing the current chunk and starting a new one with the line keeps the packing invariant |
| IngestLovdata.GreedySnoc | scripts/ingest_lovdata.py:360-364 | a chunk closed because the next line did not fit keeps the packing greedy |
| IngestLovdata.ExtendKeepsInv | scripts/ingest_lovdata.py:365-368 | adding the line to the current chunk keeps the packing invariant |
| IngestLovdata.StepKeepsInv | scripts/ingest_lovdata.py:357-368 | one loop step keeps the packing invariant |
| IngestLovdata.PackKeepsInv | scripts/ingest_lovdata.py:357-368 | the whole loop keeps the packing invariant |
| IngestLovdata.ChunksProperties | scripts/ingest_lovdata.py:350-372 | the chunks hold the lines in order; there is at least one; each is a single line or at most 1000 characters; a chunk's size plus the next chunk's first line exceeds 1000 |
| IngestLovdata.Texts | scripts/ingest_lovdata.py:362 | each chunk's text is its lines joined by newlines |
| IngestLovdata.JoinTexts | scripts/ingest_lovdata.py:362-372 | joining the chunk texts by newlines joins all their lines by newlines |
| IngestLovdata.ChunkTextsRoundTrip | scripts/ingest_lovdata.py:350-372 | there is at least one chunk, and the chunk texts joined by `"\n"` give back the text exactly |
| IngestLovdata.PackLines | scripts/ingest_lovdata.py:350-372 | the packing loop computes the greedy chunks |
| IngestLovdata.ChunkMetadata | scripts/ingest_lovdata.py:380-389 | copying, deleting `source_text` and updating raises `KeyError` iff the statute metadata has no `source_text` |
| IngestLovdata.ChunkMetadataGet | scripts/ingest_lovdata.py:380-389 | a chunk's metadata holds the update's entries, no `source_text`, and the statute's other entries |
| IngestLovdata.StandardEntriesGet | scripts/ingest_lovdata.py:384-389 | chunk i's entries are `chunk_id = chunk_index = i`, `id = <lov_id>-chunk-<i>` and `chunk_type = tekst`, without `source_text` |
| IngestLovdata.StandardDocsMetadata | scripts/ingest_lovdata.py:377-396 | chunk document i holds chunk text i, `chunk_id = chunk_index = i`, `id = <lov_id>-chunk-<i>`, `chunk_type = tekst`, and no `source_text` |
| IngestLovdata.StandardDocument | scripts/ingest_lovdata.py:378-396 | one chunk's document, or `KeyError` iff there is no `source_text` |
| IngestLovdata.DocumentsOfChunks | scripts/ingest_lovdata.py:377-398 | the document loop builds one document per chunk, in order |
| IngestLovdata.StandardChunking | scripts/ingest_lovdata.py:336-398 | `standard_chunking` packs the lines and builds the chunk documents |
| IngestLovdata.ChapterFrom | scripts/ingest_lovdata.py:271-278 | a chapter found is one of the chapters and starts before the paragraph |
| IngestLovdata.FinnKapittel | scripts/ingest_lovdata.py:271-278 | the loop of `finn_kapittel` computes the chapter lookup |
| IngestLovdata.ChapterIsLastBefore | scripts/ingest_lovdata.py:271-278 | for chapters in order, none starting at the paragraph: the lookup is None iff every chapter starts after the paragraph, and otherwise it is the last chapter starting before it |
| IngestLovdata.NoneWhenAllAfter | scripts/ingest_lovdata.py:271-278 | chapters that all start after the paragraph give None |
| IngestLovdata.ParagraphValues | scripts/ingest_lovdata.py:310-320 | one value per paragraph metadata key |
| IngestLovdata.ParagraphDocument | scripts/ingest_lovdata.py:282-330 | paragraph i's document, or `KeyError` iff there is no `source_text` |
| IngestLovdata.DocumentsOfHeadings | scripts/ingest_lovdata.py:281-330 | the loop builds one document per heading, in order, or raises on the first |
| IngestLovdata.HeadingStep | scripts/ingest_lovdata.py:330 | each iteration appends paragraph i's document |
| IngestLovdata.ChunkByParagraphs | scripts/ingest_lovdata.py:238-333 | with no `§` heading the result is `standard_chunking`'s; otherwise the documents of the headings |
| IngestLovdata.HeadingDocsShape | scripts/ingest_lovdata.py:281-323 | one document per `§` heading, in order; its text is `§ nr. title`, a blank line and the stripped text up to the next heading or the end |
| IngestLovdata.ParagraphKeysDistinct | scripts/ingest_lovdata.py:310-320 | the paragraph keys are distinct and do not include `source_text` |
| IngestLovdata.ParagraphDocMetadata | scripts/ingest_lovdata.py:297-320 | paragraph i's document has `paragraf_nr`, `chunk_index = i`, `id = <lov_id>-paragraf-<nr>`, `parent_id = kapittel-<nr>` or None without a chapter number, and no `source_text` |
| IngestLovdata.ReformatNumeric | scripts/ingest_lovdata.py:192-197 | `DD.MM.YYYY` becomes `YYYY-MM-DD` |
| IngestLovdata.DateFieldCases | scripts/ingest_lovdata.py:183-203 | a numeric date found is reformatted to ISO order; a textual date without `.` leaves the field `""` |
| IngestLovdata.Remove | scripts/ingest_lovdata.py:158 | `replace('–', '')` leaves no en dash |
| IngestLovdata.ShortNameNoDash | scripts/ingest_lovdata.py:156-158 | the short name is the stripped group with en dashes removed, stripped again, and holds no en dash (the later split is a no-op) |
| IngestLovdata.FirstTitleLine | scripts/ingest_lovdata.py:174-180 | there is no fallback title iff no line qualifies |
| IngestLovdata.FirstTitleLineAt | scripts/ingest_lovdata.py:174-180 | the fallback title is the first qualifying line, stripped |
| IngestLovdata.FindTitleLine | scripts/ingest_lovdata.py:174-180 | the line loop finds the first of the first ten lines that mentions `lov om` and is shorter than 150 |
| IngestLovdata.TitleField | scripts/ingest_lovdata.py:161-180 | a title pattern that matched always replaces the placeholder title |
| IngestLovdata.LanguageNynorsk | scripts/ingest_lovdata.py:226-229 | the language is `nno` iff the lower-cased text mentions `nynorsk` but neither `bokmål` nor `lov om` |
| IngestLovdata.LovMetadataShape | scripts/ingest_lovdata.py:139-232 | the returned dict has the eight default keys in order, then `uuid`; `lov_id`, `ikrafttredelse`, `språk` and `source_text` are the searched-for values |
| IngestLovdata.WithUuid | scripts/ingest_lovdata.py:232 | the uuid comes last and does not disturb any field |
| IngestLovdata.FieldsKeys | scripts/ingest_lovdata.py:139-229 | filling in the fields keeps the default keys in their order |
| IngestLovdata.FillKeepsKeys | scripts/ingest_lovdata.py:151-229 | assigning an existing key keeps the keys |
| IngestLovdata.DefaultKeys | scripts/ingest_lovdata.py:139-148 | the dict literal's keys, in order |
| IngestLovdata.FieldKeysAt | scripts/ingest_lovdata.py:139-148 | each default key is found at its position, and no uuid is present yet |
| IngestLovdata.SetLovId | scripts/ingest_lovdata.py:151-153 | `lov_id` becomes `lov-` and the lower-cased match, or stays `ukjent` |
| IngestLovdata.SetShortName | scripts/ingest_lovdata.py:156-158 | `lov_navn` becomes the cleaned short name, or stays `ukjent` |
| IngestLovdata.SetTitle | scripts/ingest_lovdata.py:161-180 | `lov_tittel` becomes the first pattern's title or the fallback line, and keeps its keys |
| IngestLovdata.ParseDate | scripts/ingest_lovdata.py:183-223 | each date field becomes the settled date text, and only that field changes |
| IngestLovdata.DecideLanguage | scripts/ingest_lovdata.py:226-229 | `språk` becomes the decided language |
| IngestLovdata.ParseNames | scripts/ingest_lovdata.py:139-180 | the id, name and title steps produce the name fields over the default keys |
| IngestLovdata.ParseDetails | scripts/ingest_lovdata.py:183-229 | the date and language steps produce the detail fields over the default keys |
| IngestLovdata.ParseLovMetadata | scripts/ingest_lovdata.py:126-235 | `parse_lov_metadata` computes the statute metadata, with the fresh uuid last |
| Tools.FilterMap | src/tools.py:103 | no more results than lines |
| Tools.QueryLines | src/tools.py:103 | no more queries than lines |
| Tools.ParseQueries | src/tools.py:102-104 | the queries are a prefix of the cleaned non-blank lines, of length `min(num_queries, lines)` |
| Tools.FilterMapMembers | src/tools.py:103 | a value is kept iff some line maps to it |
| Tools.FilterMapAppend | src/tools.py:103 | the comprehension keeps the lines' order |
| Tools.QueryLinesMembers | src/tools.py:103 | a query is produced iff some non-blank line cleans to it |
| Tools.QueryLinesAppend | src/tools.py:103 | the queries keep the lines' order |
| Tools.DashLineGivesEmptyQuery | src/tools.py:103-104 | a response `-` yields the one empty query |
| Tools.DashLineQuery | src/tools.py:103 | the line `-` passes the blank test and cleans to `""` |
| Tools.BuildFilter | src/tools.py:124-128 | the filter starts with `lov_id`, and has a `paragraf_nr` and a `kapittel_nr` condition iff those arguments are truthy |
| Tools.FilterSelects | src/tools.py:124-128 | a record is selected iff its `lov_id` matches and each given field matches |
| Tools.MatchContent | src/tools.py:51 | the content defaults to `""` when absent, is the stored text when present, and a non-text value is refused |
| Tools.MatchMetadataFields | src/tools.py:52-58 | the metadata keys are `lov_id`, `paragraf_nr`, `kapittel_nr`, `lov_navn` (from `lov_tittel`), and `score` only for searches |
| Tools.DocumentsOfMatches | src/tools.py:49-62 | the match loop builds one document per match, in order, or fails on the first malformed one |
| Tools.MatchDocsShape | src/tools.py:139-150 | one document per match; content `""` when absent; `lov_id` copied; `lov_navn` from `lov_tittel`; `score` present iff searching |
| Tools.MatchDocsFails | src/tools.py:49-62 | the mapping fails iff some match holds a non-text content |
| Tools.CitationEntries | src/tools.py:171-174 | no more cited entries than metadata entries |
| Tools.Blocks | src/tools.py:170-175 | block i is labelled `Dokument i+1`, then the content, then the metadata line |
| Tools.DocsText | src/tools.py:169-175 | the `+=` loop builds the concatenation of the numbered blocks |
| Tools.BlocksSnoc | src/tools.py:170-175 | each iteration appends the next numbered block |
| Tools.CitationEntriesMembers | src/tools.py:171-174 | an entry is cited iff it is one of `lov_id`, `lov_navn`, `paragraf_nr` and `kapittel_nr` with a truthy value |
| Tools.CitationEntriesAppend | src/tools.py:171-174 | cited entries keep the metadata's order |
| Tools.ContextAppend | src/tools.py:169-175 | the context of two lists is the first's, then the second's renumbered from the first's length |
| Tools.ConcatAppend | src/tools.py:175 | building the context text by `+=` concatenates |
| Utils.TruncateText | src/utils.py:84-97 | a text within the limit is kept; a longer one is its first `max_length` characters and `...`, of length `max_length + 3`; every result starts with `text[:max_length]` |
| Utils.TruncateIdempotent | src/utils.py:95-97 | shortening a shortened text changes nothing |
| Utils.EntryLines | src/utils.py:81 | one `key: value` line per entry, in order |
| Utils.FormatMetadata | src/utils.py:71-81 | an empty mapping gives `""`; one entry gives its line |
| Utils.FormatMetadataLines | src/utils.py:81 | splitting the text at newlines gives back one line per entry, when no key or value holds a newline |
| Config.ValidateConfig | src/config.py:32-47 | valid iff both keys are set iff there are no errors; one message per missing key, Pinecone's first |
| Config.Censored | src/config.py:58-63 | None reads `None`; non-secrets and empty secrets are shown; secrets of 1 to 8 characters become `****`; longer ones show the first four, `...` and the last four |
| Config.CensoredRevealsOnlyEnds | src/config.py:61-62 | the mask depends only on a secret's first and last four characters |
| Config.CensoredHidesLongSecrets | src/config.py:61-62 | a secret longer than eleven characters is never shown whole |
| Config.Debug | src/config.py:27 | an unset variable gives `false` |
| Config.LowerCharTo | src/config.py:27 | the characters lower-casing to an ASCII letter are that letter and its capital |
| Config.DebugSpelled | src/config.py:27 | the flag is on iff the value is `1`, `t` or `true` in any mix of cases |

## Left out

- Language-model, embedding and vector-index calls are not modelled. Their
  results are inputs: the classifier answer, the plan, the retriever
  results, the model's answers, the index matches and the query text.
- `_generate_uuid` is the uninterpreted function `H` returning 36
  characters; md5 itself is not modelled.
- `uuid.uuid4()` in `parse_lov_metadata` is a parameter.
- Async execution, LangGraph compilation, the tracing wrappers and the
  `ainvoke` patching are not modelled. The graph runs as a function over
  its edges.
- LangGraph's own recursion limit is not modelled.
- `NeoRagAgent.Run`: a loop whose answers never stop asking for tools is
  represented by running out of given answers (`None`). The agent has no
  round ceiling of its own.
- The retrieval graph's state reducer (`src/retrieval_graph/state.py`) is
  not part of this model. Only the updates that `create_research_plan`
  and `conduct_research` return are modelled.
- `src/mcp_server.py`, the logging setup, the configuration and retriever
  wrappers, the prompt strings and the test and CLI scripts are not
  modelled.
- Ingestion I/O is not modelled: `fetch_document`, `clean_html`,
  `load_into_pinecone`, `main`, and the environment check with
  `sys.exit`.
- Regular-expression searches are inputs. For `parse_lov_metadata`, they
  are the group each search found (`Searches`). For the chunkers, they are
  the ordered match positions and groups (`Match`).
- The title patterns' case-insensitive matching and the pattern order are
  folded into the title group given.
- `Text.Lower` lower-cases ASCII and Latin-1 letters only. `str.lower` also
  folds other alphabets.
- `IngestLovdata.DateFieldCases`: the `try`/`except` that keeps the raw
  date is unreachable, because formatting three split strings cannot
  raise. The field is set only when the split gives exactly three parts.
- `Config`: the other entries of `get_config_dict` are plain environment
  reads and are not modelled. The environment is a parameter.
- `Utils`: `ensure_directory`, `load_json` and `save_json` are file I/O and
  are not modelled.
- Document metadata is never None in the model. `doc.metadata or {}` is
  modelled as a possibly empty list of entries.
- Dict candidates of `reduce_docs` are modelled by their `page_content` and
  `metadata` only. Any other keys a dict carries into `Document(**...)` are
  not modelled.
- `Common.Show` renders numbers, booleans and None as Python's `str`
  does. Floats and other objects carry their rendering (`VOther`), because
  float formatting is not modelled.
- `Tools.MatchContent`: a non-text `content` value is an error in the
  model. The source hands it to `Document`, whose validation rejects it.
- `RetrievalGraph.ConductResearchRound`: `graph.py` imports `reduce_docs`
  from `src/retrieval_graph/state.py`, which is not part of this model.
  The model takes it to be `src/shared/state.py`'s `reduce_docs`.
- `RetrievalGraph.Run`: the run takes the classifier's routing and the
  planner's steps as given. A failure of the planner call
  (`src/retrieval_graph/graph.py:177`), of the query-generation call in
  a research round (`src/retrieval_graph/graph.py:238`) or of an answering
  call (`src/retrieval_graph/graph.py:356`, and likewise in
  `ask_for_more_info` and `respond_to_general_query`) propagates and ends
  the run. The run model does not include these failures; only
  `RetrievalGraph.ConductResearchRound` models the query-generation failure.
- `SharedState.Keeps`: the seen set compares `Value`s, whose constructors
  are all distinct. Python's set treats `1`, `True` and `1.0` as one key,
  and an unhashable `uuid` value (a list, say) raises `TypeError` at
  `src/shared/state.py:49`. Neither is modelled.

## Findings

| source | as written | input that shows it | evidently intended | confidence | as-written member | corrected member |
|---|---|---|---|---|---|---|
| src/shared/state.py:49-107 | the seen set is seeded only with the existing Documents' `metadata["uuid"]`, while a Document candidate is checked under its fingerprint and appended without writing that fingerprint anywhere | merge `[Document("x", {})]` into no evidence, then merge the same list into the result: the second merge appends it again, giving `[d, d]` | documents are combined with the existing ones by document ID (docstring, src/shared/state.py:30), so re-feeding the same candidate list leaves the evidence unchanged: the seed also holds the existing Documents' fingerprints | not executed | SharedState.AsWrittenNotIdempotent | SharedState.ReduceIdempotent |

The call sites in the code shown pass no existing evidence:
`conduct_research` passes `None` (`src/retrieval_graph/graph.py:310`), and
the debug script passes `[]` (`test_graph_debug.py:143`). There both seeds
are empty, so the two reducers agree (`SharedState.AgreeWithoutExisting`).
The research round calls the corrected `SharedState.ReduceDocs`, and its
contract states that the result equals what the code as written returns.
