# llm-based-recommender: a Dafny model of the recommendation pipeline

This project models the per-request core of the LLM-based fashion
recommender. That core is:

- the LangGraph workflow built in `src/recommender/graph.py`;
- its nodes: topic check, self-query retrieval, the off-topic reply, the RAG
  recommender and the cross-encoder ranker;
- the two copies of the category keyword filter;
- the language helpers and the Chroma comparator translator;
- the LLM provider selection;
- the `/recommend` endpoint's envelope mapping;
- the jieba/BM25 top-k selection;
- the data-preparation string helpers of `src/indexing/embedding.py` and
  `process_data.py`.

External calls are parameters of the model. These are the LLMs, the vector
store and self-query chain, the cross-encoder, the RAG generator, the jieba
segmenter and the BM25 scores. A `Result` Failure stands for an exception one
of them raises.

Structure, one module per source file:

- `State` holds the state record (`RecState`). It is a class whose fields the
  nodes update in place. `Value()` gives a `Snapshot` of the record.
- Each node (topic classifier, self-query retrieval, off-topic reply, RAG
  recommender, ranker) is an imperative method that updates a `RecState` in
  place. Each is proved
  equal to a pure `...Effect` function on snapshots.
- `Graph.Run` drives the compiled graph from a node to END over snapshots. The
  lemmas about whole runs are stated on `Graph.Run`.
- The loops of the source are `while`/`for` loops with invariants, proved
  against recursive specification functions. These loops are the keyword scans,
  the filter loops, the corpus build and the relevant-documents loop.
- The builder calls of `create_recommendaer_graph` are methods of the
  `Graph.Workflow` class.
- Shared definitions live in five modules:
  - `State`: the state record and the `Doc` document type.
  - `Cells`: a spreadsheet cell: missing, a number or a string.
  - `Text`: Python string operations over ASCII whitespace and case.
  - `Seqs`: Python's `s[:stop]` slice and an order-preserving subsequence
    relation.
  - `Wrappers`: `Option` and `Result`.

Four quirks of the code shape the model:

- `src/recommender/ranker_node.py:20` imports `filter_docs_by_category` and
  `extract_category_from_query` from `src/recommender/utils.py`, which defines
  neither, so importing the ranker raises ImportError
  (`RankerNode.ImportFails`). As written, `graph.py` and the API router that
  import it cannot load. The model assumes a repair:
  `RankerNode.BuildRanker` uses the helpers of
  `src/indexing/data_loader.py:39-55`, the only module-level definitions under
  those names, whose filter reads the metadata only. The `rag_node.py` copy
  also falls back to the page content. `RagNode.FiltersDiffer` exhibits a
  document on which the two copies disagree.
- `src/indexing/data_loader.py:58-61` reads a global `state` that is never
  bound, so importing the module raises NameError. This is
  `DataLoader.ImportFails`.
- `src/recommender/graph.py:62` adds a plain `rag_recommender -> END` edge
  next to the conditional edges of lines 79-83. Routing follows the
  conditional edge, so a run continues to the ranker when the router says so.
  `Graph.GraphFollowsNext` states that line 62 only adds END to the node's
  successors.
- `on_topic` is declared `bool` (`src/recommender/state.py:31`). The request
  starts it as `False`, and the classifier overwrites it with its label string
  (`src/recommender/check_topic_node.py:75`). `State.Topic` holds either.

## Model

| member | source | states |
|---|---|---|
| State.RecState.constructor | src/recommender/state.py:30-36 | the state object holds exactly the seven keys of the record with the given values |
| Text.FirstContained | src/indexing/data_loader.py:41-45 | None exactly when no keyword is a substring of the query; otherwise a listed keyword that the query contains |
| Text.Strip | process_data.py:12 | `str.strip()`: a slice of the input that neither starts nor ends with whitespace, never longer than the input |
| Text.StripRemovesOnlySpace | process_data.py:12 | everything `strip` removes before and after the kept slice is whitespace |
| Text.RemoveAll | process_data.py:11 | `str.replace(pattern, "")` never lengthens the text and leaves a text without the pattern unchanged |
| Text.RemoveAllIsJoinSplit | process_data.py:11 | `s.replace(p, "")` equals `"".join(s.split(p))`: the occurrences that `split` finds left to right, without overlap, are deleted and everything between them is kept in order |
| Text.StripKeepsNonSpace | process_data.py:12 | `strip` removes whitespace only: the non-whitespace characters survive in order |
| Seqs.Prefix | src/recommender/ranker_node.py:59 | Python's `s[:stop]`: a prefix whose length is the stop clamped to the list, a negative stop counting from the end |
| DataLoader.Kept | src/indexing/data_loader.py:50-55 | an order-preserving subsequence of the input, no longer than it; a document is kept iff the category is a substring of its `Product Details` metadata (default ""), and a matching document keeps every one of its copies while a non-matching one keeps none |
| DataLoader.FilteredDocs | src/indexing/data_loader.py:47-55 | a falsy category returns the list unchanged; otherwise an order-preserving subsequence holding every copy of each matching document and no other document |
| DataLoader.ExtractCategoryFromQuery | src/indexing/data_loader.py:41-45 | the loop returns the first keyword in list order that the query contains, and None when there is none |
| DataLoader.FilterDocsByCategory | src/indexing/data_loader.py:47-55 | the append loop builds exactly `FilteredDocs` |
| DataLoader.KeptIdempotent | src/indexing/data_loader.py:50-55 | filtering twice with one category equals filtering once |
| DataLoader.FilteredDocsIdempotent | src/indexing/data_loader.py:47-55 | the filter is idempotent for a fixed category, falsy or not |
| DataLoader.RunModuleTail | src/indexing/data_loader.py:58-61 | the import-time lines raise NameError exactly when no global `state` exists; otherwise they replace its docs by the filtered docs |
| DataLoader.ImportFails | src/indexing/data_loader.py:58-61 | importing the module fails, since no `state` is bound before line 58 |
| RagNode.Kept | src/recommender/rag_node.py:74-84 | an order-preserving subsequence; a document is kept iff the category occurs in its `Product Details` metadata, or in its page content when that metadata is missing or empty; every copy of a matching document is kept and no copy of another |
| RagNode.FilteredDocs | src/recommender/rag_node.py:71-84 | a falsy category returns the list unchanged; otherwise an order-preserving subsequence holding every copy of each matching document and no other document |
| RagNode.ExtractCategoryFromQuery | src/recommender/rag_node.py:66-70 | the first of 裙, 裤, 衬衫, T恤, 夹克, 外套, 背心 that the query contains, or None |
| RagNode.FilterDocsByCategory | src/recommender/rag_node.py:71-84 | the append loop builds exactly `FilteredDocs` |
| RagNode.RagEffect | src/recommender/rag_node.py:85-109 | docs become the filtered docs; an empty result gives the fixed "not found" reply without a generator call; otherwise the generator's text, or the apology prefix plus the error text; nothing else changes |
| RagNode.RagRecommender | src/recommender/rag_node.py:56-111 | the node's in-place updates leave the state equal to `RagEffect` of the old state |
| RagNode.KeptIdempotent | src/recommender/rag_node.py:74-84 | filtering twice with one category equals filtering once |
| RagNode.FilteredDocsIdempotent | src/recommender/rag_node.py:71-84 | the node's filter is idempotent for a fixed category |
| RagNode.GeneratorSkippedWhenEmpty | src/recommender/rag_node.py:90-93 | when no document survives, the result does not depend on the generator |
| RagNode.MetadataMatchImpliesMatch | src/recommender/rag_node.py:77-83 | a document matching on metadata also passes this node's test |
| RagNode.RefilterKeepsMetadataMatches | src/recommender/rag_node.py:74-84 | re-filtering the data_loader.py filter's output with the same category removes nothing |
| RagNode.FiltersDiffer | src/recommender/rag_node.py:77-83 | a document with no `Product Details` whose page content names the category passes this filter but not the data_loader.py one |
| RankerNode.MissingImport | src/recommender/ranker_node.py:20 | `from m import names` fails at the first name, in written order, that the module does not bind, and succeeds iff it binds them all |
| RankerNode.ImportFails | src/recommender/ranker_node.py:20 | as written, importing the ranker raises ImportError at `filter_docs_by_category`, which the names bound by `src/recommender/utils.py` do not include |
| RankerNode.BuildRanker | src/recommender/ranker_node.py:35-49 | the cross-encoder's documents filtered by the query's category: an order-preserving subsequence holding every copy of each matching document and no other document |
| RankerNode.RankerEffect | src/recommender/ranker_node.py:52-61 | a cross-encoder exception leaves the state as it was; otherwise the old docs are a prefix of the new ones, the appended part is `ranked[:3 - len(docs)]`, `ranker_attempted` is set and nothing else changes |
| RankerNode.RankerNode | src/recommender/ranker_node.py:52-61 | the in-place `extend` and flag write leave the state equal to `RankerEffect` of the old state |
| RankerNode.AppendsUpToTarget | src/recommender/ranker_node.py:58-59 | with n ≤ 3 documents present, exactly min(3 − n, \|ranked\|) documents are appended from the front of the ranking |
| RankerNode.AppendsWithNegativeMargin | src/recommender/ranker_node.py:58-59 | with n > 3 documents present, all but the last n − 3 ranked documents are appended |
| RankerNode.AppendedPassCategory | src/recommender/ranker_node.py:44-49 | every appended document comes from the cross-encoder output and passes the query's category test |
| RankerNode.NoDeduplication | src/recommender/ranker_node.py:56-61 | a document already present is appended again |
| Graph.Route | src/recommender/graph.py:65-83 | "Yes" goes to self-query and "No" to the off-topic node, and any other label has no path; non-empty docs go to RAG and empty ones to the ranker; after RAG the run goes to the ranker only with empty docs, falsy products and the ranker not yet attempted, and otherwise to END |
| Graph.Workflow.constructor | src/recommender/graph.py:20 | a new workflow has no nodes, edges, entry point or routers |
| Graph.Workflow.AddNode | src/recommender/graph.py:55-59 | adds the node and changes nothing else |
| Graph.Workflow.AddEdge | src/recommender/graph.py:61-63 | appends the edge and changes nothing else |
| Graph.Workflow.SetEntryPoint | src/recommender/graph.py:65 | sets the entry point and changes nothing else |
| Graph.Workflow.AddConditionalEdges | src/recommender/graph.py:66-83 | installs the router for the source node and changes nothing else |
| Graph.CreateRecommenderGraph | src/recommender/graph.py:19-85 | the builder calls produce exactly the recommender graph: five nodes, three plain edges, entry `check_topic` and three routers |
| Graph.Successors | src/recommender/graph.py:61-83 | every plain edge's target is among a node's successors |
| Graph.Next | src/recommender/graph.py:61-83 | only an unexpected topic label has no route; after the classifier, "Yes" goes to self-query and "No" to the off-topic node; after self-query, non-empty docs go to RAG and empty ones to the ranker; after RAG, the ranker exactly when docs are empty, products falsy and the ranker unattempted, END otherwise; the ranker always continues to RAG and the off-topic node always ends |
| Graph.GraphFollowsNext | src/recommender/graph.py:61-83 | apart from END, the compiled graph's successors are exactly the node `Next` names; line 62 adds END to the RAG node's successors |
| Graph.OffTopicPrompt | src/recommender/graph.py:43 | the prompt is the fixed head, then the query, then the fixed tail |
| Graph.OffTopicPromptInjective | src/recommender/graph.py:41-43 | different queries give different prompts |
| Graph.CheckTopicEffect | src/recommender/check_topic_node.py:75 | the classifier's label is stored in `on_topic`; its exception propagates and nothing else changes |
| Graph.TopicClassifier | src/recommender/check_topic_node.py:24-77 | the node's in-place write leaves the state equal to `CheckTopicEffect` of the old state; an exception is passed on with the state untouched |
| Graph.SelfQueryEffect | src/recommender/graph.py:23-34 | the retrieved documents, or [] on any exception; every other field is unchanged |
| Graph.NotFashionEffect | src/recommender/graph.py:37-53 | only the recommendation changes: the reply's content, or the fixed scope message when the call fails |
| Graph.SelfQueryRetrieveNode | src/recommender/graph.py:23-34 | the in-place write leaves the state equal to `SelfQueryEffect` of the old state |
| Graph.NotFashionLlmResponseNode | src/recommender/graph.py:37-53 | the in-place write leaves the state equal to `NotFashionEffect` of the old state |
| Graph.Execute | src/recommender/graph.py:55-59 | only the classifier and the ranker can raise; no node changes the query or products; the ranker sets `ranker_attempted` and no other node changes it |
| Graph.StepDecreases | src/recommender/graph.py:61-83 | every routed step lowers the run measure, so every run terminates |
| Graph.Run | src/recommender/graph.py:61-85 | a run from a node other than END starts with that node; a run from END executes nothing |
| Graph.TraceWithinMeasure | src/recommender/graph.py:61-83 | a run executes at most as many nodes as its start's measure |
| Graph.RunFromRanker | src/recommender/graph.py:61-83 | from the ranker a run either raises at the ranker or ends after one RAG step |
| Graph.RunFromRag | src/recommender/graph.py:79-83 | from RAG a run ends at once, or passes once through the ranker and RAG |
| Graph.RunFromSelfQuery | src/recommender/graph.py:72-83 | the five paths from self-query, each with whether it succeeds |
| Graph.RunPaths | src/recommender/graph.py:61-83 | a run from the entry point follows one of seven paths, and it succeeds exactly on the complete ones |
| Graph.RunBounds | src/recommender/graph.py:61-83 | every run reaches END within five node executions, runs the ranker at most once and RAG at most twice |
| Graph.RankerOnlyAfterEmptyDocs | src/recommender/graph.py:72-83 | the ranker is routed to only when the docs are empty |
| Graph.OnTopicRetrieves | src/recommender/graph.py:66-70 | a "Yes" label makes the run the classifier followed by the run from self-query |
| Graph.RetrievedDocsGoToRag | src/recommender/graph.py:72-76 | retrieval that finds documents is followed by the run from RAG |
| Graph.EmptyRetrievalGoesToRanker | src/recommender/graph.py:72-76 | retrieval that finds nothing or raises goes to the ranker, then fails there or ends after one RAG step |
| Graph.RagFallsBackToRanker | src/recommender/graph.py:79-83 | after RAG the run continues with the ranker exactly when RAG left no docs, products are falsy and the ranker has not run; otherwise it ends with RAG's state |
| Graph.OffTopicKeepsDocs | src/recommender/graph.py:37-53 | an off-topic request runs the two nodes, succeeds, keeps its documents and carries the chat reply |
| Utils.HasCjk | src/recommender/utils.py:24-25 | the pattern search succeeds iff some character lies in U+4E00..U+9FFF |
| Utils.DetectLanguage | src/recommender/utils.py:23-27 | "zh" iff the text holds a CJK ideograph, otherwise "en" |
| Utils.GetLanguageSpecificResponse | src/recommender/utils.py:41-58 | an unknown response type raises KeyError; otherwise the table entry for the detected language |
| Utils.DefaultResponseIsError | src/recommender/utils.py:30 | a call without `response_type` never raises and returns the "error" entry in the query's language |
| Utils.ResponseFollowsLanguage | src/recommender/utils.py:43-58 | for a known type, a Chinese query gets the "zh" entry and any other query the "en" entry |
| Utils.AllowedAfterInit | src/recommender/utils.py:65-69 | LIKE and CONTAIN are added to the base list, None read as empty; nothing else is added |
| Utils.ListOfSet | src/recommender/utils.py:70 | `list(a_set)` holds each member exactly once |
| Utils.CustomChromaTranslator.constructor | src/recommender/utils.py:62-70 | the allowed comparators are the base ones plus LIKE and CONTAIN, without duplicates |
| Utils.VisitComparison | src/recommender/utils.py:72-83 | LIKE and CONTAIN clauses are dropped; every other comparison is handed to the base translator unchanged |
| Utils.AddedComparatorsAreDropped | src/recommender/utils.py:65-83 | an allowed comparison that is not dropped was already allowed by the base translator |
| Utils.GetMetadataInfo | src/recommender/utils.py:86-112 | the four attributes are exactly the indexed columns, in order, with the fixed document description |
| LlmFactory.GetLlm | src/recommender/llm_factory.py:69-105 | None means "auto"; explicit providers try only themselves; "auto" with OpenRouter on falls back to Ollama only when its switch is on; "auto" with only Ollama on tries Ollama alone; at most two constructors run; the Ollama-then-OpenRouter fallback never happens; an unknown name raises ValueError; the last failing constructor's error propagates |
| LlmFactory.ConfiguredDefaultIsOpenRouterOnly | src/recommender/llm_factory.py:82-91 | with the shipped switches the default tries OpenRouter only and succeeds exactly when it builds |
| LlmFactory.TestLlmConnection | src/recommender/llm_factory.py:108-126 | true iff `get_llm` and one `invoke` both succeed |
| LlmFactory.UnknownProviderFailsTest | src/recommender/llm_factory.py:104-126 | an unknown provider name always fails the connection test |
| Router.RecommenderApi.constructor | src/api/routers/recommender.py:19 | `graph_app` starts as None |
| Router.RecommenderApi.StartupEvent | src/api/routers/recommender.py:22-28 | after startup `graph_app` is the compiled recommender graph |
| Router.InitialState | src/api/routers/recommender.py:54-61 | the graph's input: the question, `on_topic` False, empty recommendation and self-query state, no docs, ranker not attempted, no products key |
| Router.Indexes | src/api/routers/recommender.py:68 | the documents' ids, in document order |
| Router.GetChatResponse | src/api/routers/recommender.py:39-101 | blank question iff 400; 500 iff the graph is missing or raises, with the error text; 404 iff the graph returns no documents; otherwise 200 with the recommendation (default text when absent) and the ids |
| Router.BlankQuestionSkipsGraph | src/api/routers/recommender.py:46-52 | a blank question's response does not depend on the graph |
| Router.IdlessDocumentsAreResults | src/api/routers/recommender.py:68-77 | a document without an id still counts as a result |
| Router.OffTopicQuestionGives404 | src/api/routers/recommender.py:63-77 | every question the classifier calls off-topic ends in 404 |
| JiebaBm25.StrippedAll | src/indexing/jieba_bm25.py:50 | one stripped segment per segment, in order |
| JiebaBm25.CleanTokens | src/indexing/jieba_bm25.py:50 | every kept token is non-empty and already stripped, and there are no more tokens than segments |
| JiebaBm25.CleanTokensCount | src/indexing/jieba_bm25.py:50 | one token per non-blank segment: only the blank segments are dropped |
| JiebaBm25.CleanTokensKeeps | src/indexing/jieba_bm25.py:50 | the stripped form of every non-blank segment is among the tokens |
| JiebaBm25.CleanTokensOrder | src/indexing/jieba_bm25.py:47-50 | the tokens are a subsequence of the stripped segments: nothing reordered or invented |
| JiebaBm25.CleanTokensIdempotent | src/indexing/jieba_bm25.py:50 | cleaning an already cleaned list changes nothing |
| JiebaBm25.Tokenize | src/indexing/jieba_bm25.py:32-52 | a list is returned unchanged; a text gives non-empty stripped tokens, one per non-blank segment |
| JiebaBm25.TokenizeOrder | src/indexing/jieba_bm25.py:47-50 | a text's tokens are a subsequence of its stripped segments and include every non-blank one; with the count in `Tokenize` they are exactly the non-blank stripped segments, in the segmenter's order |
| JiebaBm25.Insert | src/indexing/jieba_bm25.py:102 | one insertion step of the sort: the result is the list with the index added |
| JiebaBm25.InsertOrdered | src/indexing/jieba_bm25.py:102 | inserting into a list sorted by descending score, ties by index, keeps it sorted |
| JiebaBm25.SortedIndices | src/indexing/jieba_bm25.py:102 | the sorted list has one valid index per position |
| JiebaBm25.SortedIndicesMembers | src/indexing/jieba_bm25.py:102 | the sorted list holds every index below n and nothing else |
| JiebaBm25.SortedIndicesOrdered | src/indexing/jieba_bm25.py:102 | the sorted list is in descending score order, with ties in ascending index order (a stable sort) |
| JiebaBm25.Ranking | src/indexing/jieba_bm25.py:102 | the ranking is a permutation of all document indexes |
| JiebaBm25.PositiveOnly | src/indexing/jieba_bm25.py:105-107 | exactly the candidates with a positive score are kept |
| JiebaBm25.PositiveOnlyAll | src/indexing/jieba_bm25.py:105-107 | with all scores positive, nothing is dropped |
| JiebaBm25.PositiveOnlyPrefix | src/indexing/jieba_bm25.py:102-107 | on a ranked list the kept candidates are a prefix of it |
| JiebaBm25.SelectedSpec | src/indexing/jieba_bm25.py:102-107 | at most top_k documents, all with positive score, in ranking order; a prefix of the ranking's top_k, so a non-positive candidate is dropped, not replaced; a positive document is left out only when the full top_k places went to documents ranked before it |
| JiebaBm25.SelectedDistinct | src/indexing/jieba_bm25.py:102-107 | no document is returned twice |
| JiebaBm25.JiebaBM25Retriever.constructor | src/indexing/jieba_bm25.py:58-67 | the retriever keeps the documents and holds one token list per document |
| JiebaBm25.JiebaBM25Retriever.BuildBm25Index | src/indexing/jieba_bm25.py:69-82 | the loop's corpus holds the tokens of each document's page content, in document order |
| JiebaBm25.JiebaBM25Retriever.GetRelevantDocuments | src/indexing/jieba_bm25.py:84-110 | the append loop returns the documents of exactly the selected indexes, in ranking order |
| JiebaBm25.JiebaBM25LangChainRetriever.constructor | src/indexing/jieba_bm25.py:130-132 | the adapter wraps the given retriever |
| JiebaBm25.JiebaBM25LangChainRetriever.GetRelevantDocuments | src/indexing/jieba_bm25.py:134-135 | delegates with top_k 5 and so returns at most five documents |
| Embedding.CleanColumnNames | src/indexing/embedding.py:32-40 | the four listed raw names get their descriptive names; all other columns and the order are kept |
| Embedding.RenameTargetsAreFixed | src/indexing/embedding.py:34-39 | no descriptive name is itself a raw name |
| Embedding.CleanColumnNamesIdempotent | src/indexing/embedding.py:32-40 | renaming twice equals renaming once |
| Embedding.Present | src/indexing/embedding.py:63 | the wanted names that are present, in the wanted order |
| Embedding.SelectColumns | src/indexing/embedding.py:57-63 | the kept columns are the four descriptive names that exist, in the fixed order |
| Embedding.PresentAll | src/indexing/embedding.py:63 | when every wanted name is present, all are kept |
| Embedding.RenamedPresent | src/indexing/embedding.py:40 | a present raw name yields its descriptive name among the columns |
| Embedding.RawColumnsSelectAll | src/indexing/embedding.py:32-63 | a raw dataset with the four source columns keeps exactly the four descriptive ones, in order |
| Embedding.ConvertSizes | src/indexing/embedding.py:95-101 | "" for a missing or non-string value; otherwise the pieces joined with ", " |
| Embedding.SizePieceCount | src/indexing/embedding.py:99-101 | there is one piece more than the input has commas |
| Embedding.LowerNormalised | src/indexing/embedding.py:100 | lower-casing a stripped, comma-free piece keeps it stripped and comma-free and removes its capitals |
| Embedding.PieceNormalised | src/indexing/embedding.py:100 | each piece is stripped, has no ASCII capital and no comma |
| Embedding.SizePiecesShape | src/indexing/embedding.py:99-101 | every piece is normalised |
| Embedding.ConvertSizesSplitsBack | src/indexing/embedding.py:99-101 | splitting the converted value on ", " gives back exactly the pieces |
| ProcessData.Collapse | process_data.py:12 | `re.sub(r"\s+", " ", s)`: never longer, empty iff the input is, and single-spaced |
| ProcessData.CollapseKeepsNonSpace | process_data.py:12 | the substitution keeps every non-whitespace character, in order |
| ProcessData.CollapseWord | process_data.py:12 | a run of non-whitespace characters passes through unchanged |
| ProcessData.CollapseRun | process_data.py:12 | a maximal run of whitespace becomes exactly one space |
| ProcessData.StripKeepsSingleSpaced | process_data.py:12 | stripping keeps a single-spaced text single-spaced |
| ProcessData.CleanText | process_data.py:11-12 | never longer than the input, no whitespace at either end, every inner whitespace a single plain space |
| ProcessData.CleanTextKeepsContent | process_data.py:11-12 | the non-whitespace characters of the cleaned text are exactly those of the text with every "nan" deleted, i.e. of `"".join(text.split("nan"))` |
| ProcessData.Clean | process_data.py:8-13 | a non-string value is returned unchanged; a string is cleaned |
| ProcessData.CollapseKeepsSpaceless | process_data.py:12 | a text without whitespace is not changed by the substitution |
| ProcessData.CleanTextFixesPlainWords | process_data.py:8-13 | a text without whitespace or "nan" is left as it is |
| ProcessData.SingleSpacedCollapse | process_data.py:12 | the substitution leaves a single-spaced text unchanged |
| ProcessData.CleanTextIdempotent | process_data.py:8-13 | cleaning twice equals cleaning once when the first pass leaves no "nan" |
| ProcessData.CleanProductDetails | process_data.py:15 | only the `Product Details` column is rewritten, cell by cell; a sheet without it raises KeyError |

## Left out

- Self-query retrieval, topic classification, the off-topic chat model, the
  cross-encoder and the RAG chain are oracles (`Graph.Oracles`): prompts,
  few-shot examples, structured output and model loading are not modelled.
- LangGraph's scheduler, `compile()` and the state-merge semantics of its
  channels are not modelled. The run follows the routing of the built graph.
- `Graph.Run`: the "no route" failure message for an unexpected topic label is
  a fixed string; LangGraph's exception text is not modelled.
- FastAPI transport, `JSONResponse`, `HTTPException` plumbing and the startup
  hook's event loop are not modelled: only the code/message/data envelope is.
- `Router.GetChatResponse`: with `graph_app` still None the model returns the
  500 envelope with the AttributeError text. The exact wording of that
  exception is not part of the source.
- `RankerNode.BuildRanker`: the ranker's filter helpers are taken from
  `src/indexing/data_loader.py`, an assumed repair of the failing import at
  `src/recommender/ranker_node.py:20`. Importing `data_loader.py` itself fails
  too (`DataLoader.ImportFails`), so as written neither module loads.
- `DataLoader.ImportFails`: it exhibits the import failure for the module's
  own globals, modelled as `DataLoader.StateAtImport` (no `state` bound). It
  does not derive that fact from Python's name resolution.
- Document metadata is a map from string to string (`State.Doc`). In the
  source, `row.to_dict()` also holds non-string values such as the price. A
  non-string `Product Details` makes `category in details` raise TypeError. The
  RAG node's `try` would catch that, but the ranker would not. That case is
  not modelled.
- `Utils.ListOfSet`: the order of `list(set)` is left open, since Python does
  not fix it.
- Whitespace and letter case are ASCII only (`Text.IsSpace`, `Text.Lower`).
  Python's `str.strip`, `\s` and `str.lower` also cover non-ASCII whitespace
  and letters.
- `CustomChromaTranslator`'s base translator (its comparator list and its
  `visit_comparison`) is a parameter.
- `JiebaBM25Retriever.get_scores` and BM25Okapi scoring are not modelled: the
  scores are a parameter with one score per document. jieba segmentation
  (`lcut`) is a parameter too.
- `create_jieba_bm25_index`, pickle save and load, CSV and Excel reading and
  writing, `dropna`, `sample` and `convert_price` (float parsing) are not
  modelled.
- pandas duplicate column names are not modelled: columns are a list of
  distinct names, a sheet a map from name to cells.
- The logging calls (`logger`, `set_debug`) have no effect on the model.
- src/config.py is not part of this model beyond the switches
  `USE_OPENROUTER = True` and `USE_OLLAMA = False` (`LlmFactory.Configured`).
- `load_cross_encoder_model`, `build_rag_chain`, `create_openrouter_llm` and
  `create_ollama_llm` are not modelled: each either produces its result or
  raises, which the oracles and `LlmFactory.Construction` capture.
