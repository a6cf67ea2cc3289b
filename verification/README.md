# MATLAB troubleshooter: the decision layer of the answering pipelines

This project models the decision layer of a retrieval-augmented assistant that
answers MATLAB questions. There are two pipelines.

- **The agents pipeline** (`agents/*`, driven by `Orchestrator.run`):
  1. An optional image is turned into the query.
  2. A retrieval gate decides whether to search the vector index.
  3. Every retrieved document gets a numeric relevance score and a binary relevance verdict.
  4. The best score chooses a strategy: knowledge base only, web only, or hybrid.
  5. The generator answers from the matching context and reports its sources.
  6. The documents scoring at least the lower threshold are listed, best first.
- **The standalone combined script** (`Scripts/combined_rag_final.py`). It uses the same gate and the same two
  judgements, but routes differently:
  - it searches the web when no document is judged relevant or the best score is too low;
  - it blends the best relevant document with web knowledge in the middle band;
  - otherwise it writes one candidate answer per relevant document and keeps the best one by
    (fully supported, utility).

Around them, the chat service (`main.py`) does four things:
- cuts long messages down before it keeps them in conversation memory;
- maps remembered messages to chat history;
- lists a session's history;
- renders a result as text.

Every language model prompt, the vector index, the web search tool, the image
analyser, `json.loads` and the `:.2f` score formatter are *oracles*. They are
function-typed fields of `Oracles.Services` that the caller supplies, so every
property holds whatever they reply. Each run also returns the sequence of service
calls it made, so "no web search happens" or "the index is searched exactly when
the gate says yes" are statements about that trace.

Modules (one file each):

- `Wrappers`: `Option` and `Result`.
- `Text`:
  - Python's `str.strip` over the full `str.isspace` set;
  - ASCII lower-casing, and verdict normalisation;
  - `split('\n')` and `join`;
  - the key-point comprehension;
  - `dict.get`.
- `Sorting`: a stable descending sort (`sorted(..., reverse=True)`), first-maximum (`max(..., key=...)`) and `max`.
- `Models`: the record shapes of `agents/models.py` and `Document.preview`.
- `Oracles`: the services, the call trace and the search predicates over it.
- `RetrievalAgent`, `EvaluationAgent`, `WebSearchAgent`, `GenerationAgent`, `Orchestrator`: the agents pipeline.
- `CombinedRag`: the standalone script.
- `ChatApi`:
  - memory truncation;
  - the history mapping;
  - session history entries;
  - `print_result`.

Where the source builds a list in a loop, the model has a method with a loop. It is proved
equal to a specification function, and the properties are lemmas about that
function.

## Model

| member | source | states |
|---|---|---|
| Text.Strip | agents/retrieval_agent.py:65 | the stripped text is empty exactly when the input is all whitespace, and otherwise starts and ends with a non-space |
| Text.StripSplitsInput | agents/retrieval_agent.py:65 | the input is whitespace, then its stripped form, then whitespace |
| Text.StripIdempotent | agents/web_search_agent.py:65 | stripping twice is stripping once |
| Text.NormaliseIdempotent | agents/evaluation_agent.py:127 | normalising a verdict (strip, lower) twice gives the same as once |
| Text.NormaliseIgnoresPadding | agents/evaluation_agent.py:127 | surrounding whitespace does not change a normalised verdict |
| Text.NormaliseFoldsCase | agents/evaluation_agent.py:127 | the normal form of a reply equals its stripped form ignoring letter case, so `strip().lower()` changes nothing but capitals |
| Text.MatchesWord | agents/evaluation_agent.py:98-99 | a reply matches a lower-case word exactly when its stripped form equals the word ignoring letter case |
| Text.SplitJoin | agents/web_search_agent.py:129 | splitting newline-joined lines that contain no newline gives back those lines |
| Text.KeyPointsWellFormed | agents/web_search_agent.py:82 | every key point is non-empty, stripped and newline-free, and there are no more of them than lines |
| Text.KeyPointsInLineOrder | agents/web_search_agent.py:82 | the key points of a text are those of its first line followed by those of the rest |
| Text.KeyPointsOfBlank | agents/web_search_agent.py:82 | an all-whitespace reply gives no key points |
| Text.KeyPointsJoinRoundTrip | agents/web_search_agent.py:128-129 | extracting key points from the newline-joined key points gives the same key points |
| Text.Get | agents/generation_agent.py:62 | `dict.get`: the stored value when the key is present, the default otherwise |
| Text.NatToString | main.py:59 | the `{i+1}` number is written as decimal digits that denote exactly that number, with no leading zero |
| Sorting.SortDesc | agents/generation_agent.py:51-52 | the sort keeps the length, is a permutation of its input and is ordered by key, highest first |
| Sorting.SortDescStable | agents/orchestrator.py:132 | elements with equal keys keep their input order (Python's sort is stable) |
| Sorting.FirstMax | Scripts/combined_rag_final.py:367 | `max` with a key: no element has a larger key, and every earlier element has a strictly smaller key |
| Sorting.MaxScore | agents/evaluation_agent.py:161 | the maximum occurs in the list and bounds every element |
| Sorting.MaxScorePermutation | agents/evaluation_agent.py:161 | reordering the scores does not change the maximum |
| Models.Preview | agents/models.py:13-15 | content up to the limit is returned unchanged; longer content becomes its first `max_length` characters plus "..." (length `max_length` + 3); the preview agrees with the content on its first characters |
| Models.QueryResultOf | agents/models.py:37-41 | a result built from a response alone has no links and no documents |
| Models.WebSearchResultOf | agents/models.py:44-47 | a web result built from knowledge alone has no sources |
| Oracles.SearchesWebAppend | agents/orchestrator.py:100-103 | a trace searches the web exactly when one of its parts does |
| Oracles.SearchesIndexAppend | agents/retrieval_agent.py:80 | a trace searches the index exactly when one of its parts does |
| RetrievalAgent.New | agents/retrieval_agent.py:22-51 | construction fails, with the loader's reason in the message, exactly when the index cannot be loaded; otherwise `top_k` is 3 |
| RetrievalAgent.ShouldRetrieve | agents/retrieval_agent.py:53-67 | retrieval is wanted exactly when the gate reply, stripped, equals "yes" in any letter case |
| RetrievalAgent.ShouldRetrieveIgnoresPadding | agents/retrieval_agent.py:65-67 | whitespace around the gate reply never changes the decision |
| RetrievalAgent.Documents | agents/retrieval_agent.py:83-88 | one document per hit, in hit order, copying content and metadata |
| RetrievalAgent.RetrieveDocuments | agents/retrieval_agent.py:69-91 | the loop converts every hit of one `top_k` index search, and that search is the only call |
| RetrievalAgent.Run | agents/retrieval_agent.py:93-112 | a "no" gives (False, []) after only the gate call; a "yes" gives (True, the converted hits) after the gate call and one index search |
| EvaluationAgent.StrategyName | agents/evaluation_agent.py:148-168 | a strategy's name is one of "kb_only", "web_only", "hybrid" |
| EvaluationAgent.StrategyNamesDistinct | agents/evaluation_agent.py:158-168 | the names of different strategies differ, and none is "none" |
| EvaluationAgent.IsRelevantReply | agents/evaluation_agent.py:98-99 | a verdict is relevant exactly when, stripped, it equals "relevant" in any letter case |
| EvaluationAgent.IrrelevantIsNotRelevant | agents/evaluation_agent.py:98-99 | the reply "Irrelevant" is not a relevant verdict |
| EvaluationAgent.Evaluations | agents/evaluation_agent.py:91-112 | exactly one judgement per document |
| EvaluationAgent.EvaluationsPointwise | agents/evaluation_agent.py:97-108 | the judgement at each position holds the score and the verdict of the document at that position, each from its own call |
| EvaluationAgent.EvaluationCalls | agents/evaluation_agent.py:97-103 | both judgements are requested for every document: the verdict and then the score, in document order |
| EvaluationAgent.EvaluateRelevance | agents/evaluation_agent.py:79-112 | the loop returns the judgements and the calls of the whole document list |
| EvaluationAgent.EvaluateSupport | agents/evaluation_agent.py:114-129 | the verdict is the stripped reply with capitals lowered: it is in normal form and equals the stripped reply ignoring letter case; it is "fully supported" exactly when the reply says so in any letter case |
| EvaluationAgent.DetermineStrategy | agents/evaluation_agent.py:148-168 | web only when no score reaches the lower threshold (in particular for no scores); knowledge base only when some score reaches the upper one; hybrid otherwise; each stated both ways |
| EvaluationAgent.ReachesPermutation | agents/evaluation_agent.py:161-168 | whether some score reaches a threshold does not depend on the order of the scores |
| EvaluationAgent.DetermineStrategyPermutation | agents/evaluation_agent.py:161 | the strategy is the same for any reordering of the judgements |
| EvaluationAgent.Run | agents/evaluation_agent.py:170-190 | the judgements of every document, and the strategy computed from exactly those judgements |
| WebSearchAgent.RewriteQuery | agents/web_search_agent.py:53-67 | the rewritten query is the reply with its surrounding whitespace removed: the reply is whitespace, then the result, then whitespace, and the result neither starts nor ends with whitespace; it is empty exactly when the reply is blank |
| WebSearchAgent.ExtractKnowledge | agents/web_search_agent.py:69-84 | every key point is non-empty, stripped and newline-free; there are no more of them than lines; a blank reply gives none |
| WebSearchAgent.Sources | agents/web_search_agent.py:98-105 | every source has a non-empty URL, and there are no more sources than entries |
| WebSearchAgent.SourcesAppend | agents/web_search_agent.py:99-103 | the sources of consecutive entries come out in entry order |
| WebSearchAgent.SourcesOfOne | agents/web_search_agent.py:100-103 | an entry is dropped exactly when its link is missing or empty; otherwise it gives one link, titled "Untitled" when no title is given |
| WebSearchAgent.ExtractSources | agents/web_search_agent.py:86-108 | the loop gives no sources for unparseable output and otherwise the sources of all parsed entries |
| WebSearchAgent.Search | agents/web_search_agent.py:110-135 | knowledge and sources both come from the same raw result; the knowledge splits back into exactly the extracted key points; every source has a URL |
| WebSearchAgent.Run | agents/web_search_agent.py:110-135 | the run returns that search result after the rewrite, search and extraction calls |
| GenerationAgent.Zip | agents/generation_agent.py:51 | `zip` pairs documents and scores position by position, up to the shorter list |
| GenerationAgent.KbParts | agents/generation_agent.py:58-59 | one context part per ranked pair, in ranked order |
| GenerationAgent.KbSources | agents/generation_agent.py:61-67 | every knowledge-base source has a non-empty URL, and there are no more sources than pairs |
| GenerationAgent.KbSourcesAppend | agents/generation_agent.py:58-67 | sources come out in ranked order |
| GenerationAgent.KbSourcesOfOne | agents/generation_agent.py:62-67 | a document gives a source exactly when its 'source_url' is present and non-empty, and the source carries that URL |
| GenerationAgent.PrepareKbContext | agents/generation_agent.py:38-73 | the loop builds the parts and sources of the score-sorted pairs; the context is the parts joined by a blank line |
| GenerationAgent.IncludedHistory | agents/generation_agent.py:95-97 | history reaches the prompt exactly when it was given and is non-empty, and then unchanged |
| GenerationAgent.KbAnswer | agents/generation_agent.py:75-104 | the sources are those of the ranked documents, each with a URL, no more than the pairs; history is included by the rule above |
| GenerationAgent.GenerateFromKb | agents/generation_agent.py:75-104 | the method answers as the knowledge-base answer states |
| GenerationAgent.GenerateFromWeb | agents/generation_agent.py:106-135 | the sources are the web sources unchanged; the context starts with the web knowledge; the query and history are passed as given |
| GenerationAgent.HybridAnswer | agents/generation_agent.py:137-177 | the sources are the knowledge-base sources followed by the web sources |
| GenerationAgent.GenerateHybrid | agents/generation_agent.py:137-177 | the method answers as the hybrid answer states |
| GenerationAgent.GenerateWithoutContext | agents/generation_agent.py:179-203 | no sources, and the fixed "No specific context available." context |
| GenerationAgent.Answer | agents/generation_agent.py:205-229 | "kb_only", "web_only" and "hybrid" go to their generators; any other strategy, a non-string one included, answers without context and sources |
| GenerationAgent.Run | agents/generation_agent.py:205-229 | the method dispatches as the answer above states |
| Orchestrator.New | agents/orchestrator.py:24-46 | construction fails exactly when the retrieval agent cannot load its index, with its message; otherwise the thresholds are as given |
| Orchestrator.RelevantDocs | agents/orchestrator.py:122-129 | every listed document scores at least the lower threshold, and no more are listed than pairs |
| Orchestrator.RelevantDocsAppend | agents/orchestrator.py:122-129 | the filter keeps document order |
| Orchestrator.RelevantDocsOfOne | agents/orchestrator.py:122-129 | a document is listed exactly when its score reaches the lower threshold; without a 'url' its URL reads "No URL available" |
| Orchestrator.CollectRelevantDocs | agents/orchestrator.py:122-129 | the loop lists the filter of the zipped documents and scores |
| Orchestrator.RelevantDocsComplete | agents/orchestrator.py:122-129 | every document scoring at least the lower threshold is listed |
| Orchestrator.RelevantDocsSound | agents/orchestrator.py:122-129 | every listed document is one that scores at least the lower threshold |
| Orchestrator.StrategyArgReads | agents/orchestrator.py:108-115 | the generator reads documents and scores exactly for knowledge base and hybrid, and the web result exactly for web and hybrid |
| Orchestrator.RankedSameMembers | agents/orchestrator.py:132 | sorting neither adds nor drops a listed document |
| Orchestrator.RankedRelevantDocsOrder | agents/orchestrator.py:132 | the listed documents are sorted by score, highest first, are a permutation of the filtered ones, are no more than the documents and all reach the lower threshold |
| Orchestrator.RankedRelevantDocsComplete | agents/orchestrator.py:122-132 | each document scoring at least the lower threshold appears in the final list |
| Orchestrator.RankedRelevantDocsSound | agents/orchestrator.py:122-132 | each document in the final list is a retrieved one scoring at least the lower threshold |
| Orchestrator.RunRetrieved | agents/orchestrator.py:95-139 | the method runs evaluation, the web search when needed, generation and the document listing as the retrieved answer states |
| Orchestrator.RunQuery | agents/orchestrator.py:79-139 | the method runs the gate and then one of the two answers |
| Orchestrator.Run | agents/orchestrator.py:62-139 | the method runs the whole pipeline, the image step included |
| Orchestrator.NoRetrievalAnswer | agents/orchestrator.py:84-92 | when the gate says no: no documents, no links, the fixed no-context prompt without history, and only the gate and generation calls |
| Orchestrator.ImageReplacesQuery | agents/orchestrator.py:75-77 | with image bytes the image analysis replaces the query for everything that follows; without them the query is used as given |
| Orchestrator.RetrievedSearches | agents/orchestrator.py:100-103 | after retrieval the index has been searched, and the web is searched exactly for web and hybrid |
| Orchestrator.DeclinedSearches | agents/orchestrator.py:84-92 | the no-retrieval path searches neither the index nor the web |
| Orchestrator.SearchesByDecision | agents/orchestrator.py:79-115 | the index is searched exactly when the gate says yes, and the web exactly when it says yes and the strategy is web or hybrid |
| Orchestrator.ReferenceLinksByStrategy | agents/orchestrator.py:118-119 | the reference links are the generator's sources unchanged: knowledge-base, web, or the two in that order |
| Orchestrator.AllHaveUrlsConcat | agents/generation_agent.py:172 | joining two link lists whose URLs are all non-empty gives such a list |
| Orchestrator.ReferenceLinksHaveUrls | agents/orchestrator.py:118-119 | every reference link of a retrieved answer has a non-empty URL |
| CombinedRag.New | Scripts/combined_rag_final.py:181-220 | construction fails with the one fixed message exactly when the index cannot be loaded; otherwise thresholds and `top_k` are as given |
| CombinedRag.Judgements | Scripts/combined_rag_final.py:316-337 | one judgement per retrieved context |
| CombinedRag.JudgementsPointwise | Scripts/combined_rag_final.py:316-337 | the judgement at each position is that of the context at the same position |
| CombinedRag.Scores | Scripts/combined_rag_final.py:319 | the score list holds every judgement's score, in order |
| CombinedRag.RelevantDocs | Scripts/combined_rag_final.py:323-329 | every listed document scores at least the lower threshold, no more than the contexts |
| CombinedRag.RelevantDocsComplete | Scripts/combined_rag_final.py:323-329 | every context scoring at least the lower threshold is listed |
| CombinedRag.RelevantContexts | Scripts/combined_rag_final.py:336-337 | only binary-relevant contexts are kept, each one of the judged contexts |
| CombinedRag.RelevantContextsComplete | Scripts/combined_rag_final.py:336-337 | every binary-relevant context is kept |
| CombinedRag.JudgeCalls | Scripts/combined_rag_final.py:318-333 | for each context the score is requested, then the verdict, in context order |
| CombinedRag.JudgedSnoc | Scripts/combined_rag_final.py:319-337 | one more judged context appends its score, its document when it reaches the lower threshold, and itself when relevant |
| CombinedRag.JudgeContexts | Scripts/combined_rag_final.py:313-337 | the loop fills the scores, the listed documents and the relevant contexts of all judgements, with their calls |
| CombinedRag.MaxScoreOrZero | Scripts/combined_rag_final.py:340 | 0 for no scores, otherwise the largest score |
| CombinedRag.MaxScoreReaches | Scripts/combined_rag_final.py:340-343 | the maximum reaches a threshold exactly when some score does |
| CombinedRag.RelevantContextsEmpty | Scripts/combined_rag_final.py:343 | no context is kept exactly when none is judged relevant |
| CombinedRag.RouteByJudgements | Scripts/combined_rag_final.py:340-395 | web when no context is relevant or no score reaches the lower threshold (even if scores are high); hybrid when one is relevant, some score reaches the lower threshold but none the upper one; knowledge otherwise; each both ways |
| CombinedRag.SourcePairs | Scripts/combined_rag_final.py:269 | one (title, link) pair per parsed entry, in entry order |
| CombinedRag.PerformWebSearch | Scripts/combined_rag_final.py:256-274 | the knowledge is the refined search output; unparseable output gives no sources |
| CombinedRag.WebLinks | Scripts/combined_rag_final.py:348-350 | only sources with a non-empty link become reference links |
| CombinedRag.WebLinksAgree | Scripts/combined_rag_final.py:348-350 | the script's link filter gives the same links as the web search agent's source extraction |
| CombinedRag.CollectWebLinks | Scripts/combined_rag_final.py:348-350 | the loop collects exactly those links |
| CombinedRag.SourceLine | Scripts/combined_rag_final.py:354 | a source line is the prefix and title followed by ": " and the link when there is a link, and the prefix and title alone otherwise |
| CombinedRag.SourcesTextLines | Scripts/combined_rag_final.py:354 | when there is a source and no title or link holds a newline, the newline-joined sources text splits back into exactly one source line per source, in source order |
| CombinedRag.WebContext | Scripts/combined_rag_final.py:354-358 | the web context is the web knowledge, then the sources heading, then exactly the sources text |
| CombinedRag.BestContext | Scripts/combined_rag_final.py:367 | the hybrid path uses the first relevant context with the highest score: no context scores higher, and every earlier one scores strictly lower |
| CombinedRag.DocumentLink | Scripts/combined_rag_final.py:371-373 | the hybrid path adds a "Retrieved document" link exactly when the URL is not "No URL available" |
| CombinedRag.HybridContext | Scripts/combined_rag_final.py:384-390 | the hybrid context is the retrieved knowledge, then the web knowledge, then the sources heading and the database URL line, then exactly the sources text with "Web: " before every line |
| CombinedRag.Candidates | Scripts/combined_rag_final.py:400-418 | one candidate per relevant context |
| CombinedRag.CandidatesPointwise | Scripts/combined_rag_final.py:401-418 | each candidate is the answer, support verdict and utility for the relevant context at its position |
| CombinedRag.CandidateCalls | Scripts/combined_rag_final.py:401-418 | three calls per candidate: generation, support, utility |
| CombinedRag.GenerateCandidates | Scripts/combined_rag_final.py:400-418 | the loop builds all candidates and their calls |
| CombinedRag.BestCandidate | Scripts/combined_rag_final.py:422 | no candidate outranks the chosen one, and every earlier candidate is strictly outranked by it (ties go to the first) |
| CombinedRag.FullySupportedPreferred | Scripts/combined_rag_final.py:422 | a fully supported candidate, whenever one exists, wins over any other regardless of utility, and it has the highest utility among fully supported ones |
| CombinedRag.PrimaryLink | Scripts/combined_rag_final.py:426-428 | at most one "Primary source" link, present exactly when the metadata URL differs from the default |
| CombinedRag.WebAnswerSearches | Scripts/combined_rag_final.py:343-360 | the web path keeps the listed documents, searches the web and never the index |
| CombinedRag.HybridAnswerSearches | Scripts/combined_rag_final.py:363-392 | the hybrid path keeps the listed documents, searches the web and never the index |
| CombinedRag.KnowledgeAnswerSearches | Scripts/combined_rag_final.py:395-431 | the knowledge path keeps the listed documents and searches neither the web nor the index |
| CombinedRag.RoutedSearches | Scripts/combined_rag_final.py:342-431 | after judging, the web is searched exactly when the route is not the knowledge route |
| CombinedRag.RetrievedSearches | Scripts/combined_rag_final.py:302-431 | the listed documents are the filtered judgements, and the web is searched exactly when the judgements route away from the knowledge path |
| CombinedRag.SearchesByGate | Scripts/combined_rag_final.py:296-437 | a "no" gives no links and no documents; the index is searched exactly when the gate says yes; the web exactly when it says yes and the route is web or hybrid |
| CombinedRag.RunWeb | Scripts/combined_rag_final.py:343-360 | the method performs the web path |
| CombinedRag.RunHybrid | Scripts/combined_rag_final.py:363-392 | the method performs the hybrid path |
| CombinedRag.RunKnowledge | Scripts/combined_rag_final.py:395-431 | the method performs the knowledge path |
| CombinedRag.RunRouted | Scripts/combined_rag_final.py:340-431 | the method takes the route the judgements choose |
| CombinedRag.RunRetrieved | Scripts/combined_rag_final.py:302-431 | the method searches the index, judges every context and follows the route |
| CombinedRag.Run | Scripts/combined_rag_final.py:276-437 | the method runs the whole script for one query |
| ChatApi.KeptContent | main.py:106-116 | kept content is never longer than 2400; it equals the message exactly when the message is at most 2400 long, and otherwise it is the first 2300 characters plus "... [content truncated]" |
| ChatApi.StoredMessage | main.py:114-136 | the stored message keeps role and role type, holds the kept content and a timestamp, and is flagged truncated exactly when the content was longer than 2400 |
| ChatApi.TruncationFlagged | main.py:119-124 | the truncation flag is set exactly when the content was cut |
| ChatApi.AddMessage | main.py:108-141 | the call reports success exactly when the store accepts the one stored message |
| ChatApi.HistoryOf | main.py:184-189 | one history turn per remembered message |
| ChatApi.HistoryPointwise | main.py:184-189 | each turn keeps the message content; its role is "user" exactly for role type "user" and "assistant" otherwise |
| ChatApi.ExchangeRoundTrip | main.py:182-189 | the prompt and answer text the form chat endpoint stores (main.py lines 221-222) come back through the history mapping as a user turn and an assistant turn, with their content unchanged when within the limit |
| ChatApi.ChatHistory | main.py:182-189 | the loop maps every remembered message; nothing remembered or a failed read gives empty history |
| ChatApi.EntryOf | main.py:302-319 | a user entry exactly for role type "user"; the message content; truncated exactly when the flag is truthy; the stored timestamp, or the current time when there is none |
| ChatApi.StoredMessageListed | main.py:302-319 | a message as it was stored is listed with its kept content, its truncation and its own timestamp |
| ChatApi.Entries | main.py:300-319 | one entry per remembered message |
| ChatApi.EntriesPointwise | main.py:300-319 | each entry is that of the message at its position |
| ChatApi.SessionHistory | main.py:291-325 | the loop lists every message; nothing remembered gives []; a failed read gives the "Error retrieving session history: " error |
| ChatApi.LinksTextAppend | main.py:50-51 | one "- title: url" line per link, in link order |
| ChatApi.DocsTextInOrder | main.py:58-61 | the document entries appear numbered from 1 in list order |
| ChatApi.ListedDocs | main.py:58 | the documents are listed sorted by score, highest first, as a permutation of the result's documents |
| ChatApi.NoLinksExactly | main.py:48-53 | "Reference Links: None" follows the response exactly when there are no links |
| ChatApi.AppendLinkLines | main.py:50-51 | the loop appends every link line |
| ChatApi.AppendLinks | main.py:48-53 | the links section: heading and lines, or "None" |
| ChatApi.AppendDocEntries | main.py:58-61 | the loop appends every document entry |
| ChatApi.AppendDocs | main.py:56-63 | the documents section: heading and the sorted entries, or "None" |
| ChatApi.PrintResult | main.py:37-64 | the rendered text: the apology for no result, otherwise the response, the links section and the documents section |

## Left out

- Services: the language model prompts and their structured outputs, FAISS loading and similarity search, the DuckDuckGo search, the image analysis, `json.loads` and `:.2f` formatting. They are parameters (fields of `Oracles.Services`), not computed.
- Clocks: `datetime.now()` timestamps are parameters.
- The FastAPI endpoints, the Zep client and session creation (network I/O) are left out.
- The response generation endpoint around the history mapping is left out.
- main-streamlit.py is not part of this model (user interface, audio recording and transcription).
- Scripts/agent_main.py is not part of this model (command-line printing).
- The crawler is not part of this model.
- The MCP client is not part of this model.
- The image analysis prompt is left out.
- `generate_prompt` in Scripts/combined_rag_final.py is left out: it is only a service call.
- Logging and printing are left out.
- `evaluate_utility` is the utility oracle passed through. The script's `int(...)` on the rating is the oracle's integer result.
- Scores are real numbers: NaN is not modelled.
- Lower-casing is ASCII only. The words compared against ("yes", "relevant", "fully supported") contain no letter for which full Unicode lower-casing would decide differently.
- Parsed search output is modelled as a list of string-valued dictionaries. Other JSON shapes, which the source would reject with an exception other than a decode error, are not modelled.
- Document metadata values are strings.
- Memory message metadata is a timestamp text or a truncation flag.
- GenerationAgent.Answer: requires the documents and scores for "kb_only"/"hybrid" and the web result for "web_only"/"hybrid". The source would fail on a missing one, and the orchestrator always passes them (`Orchestrator.StrategyArgReads`).
- CombinedRag.HybridAnswer, CombinedRag.KnowledgeAnswer: require at least one relevant context. The routing reaches them only then (`CombinedRag.RouteByJudgements`).
- On unparseable search output the knowledge is still extracted from the raw text. Only the sources become empty. This follows the code.
- At agents/orchestrator.py:86 the history is passed positionally into the strategy slot. The model keeps this as the strategy argument `NotAString`: generation without context, with the history dropped.
- ChatApi.SessionHistory: the current time is a function of the entry's position, because the source reads the clock once per entry.
- ChatApi.AddMessage: the failure of the memory store is an outcome of the store oracle rather than an exception.
- ChatApi.PrintResult: a falsy result is modelled as an absent result. A result object is never falsy, so `None` is the only such input.
- ChatApi.PrintResult: the `hasattr` checks always succeed on result records and are not modelled.
