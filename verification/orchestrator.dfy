/**
 * The orchestrator: runs the agents in order for one query. An image, when
 * given, is first turned into the query; then the retrieval gate decides, the
 * documents are judged, the strategy chooses whether the web is searched, the
 * generator answers, and the documents scoring at least the lower threshold are
 * listed best first.
 */
module Orchestrator {
  import opened Wrappers
  import opened Text
  import opened Sorting
  import opened Models
  import opened Oracles
  import RetrievalAgent
  import EvaluationAgent
  import WebSearchAgent
  import GenerationAgent

  /** The configured agents: retrieval (index and hit count) and evaluation (thresholds). */
  datatype Agents = Agents(retrieval: RetrievalAgent.Agent, evaluation: EvaluationAgent.Agent)

  /** Construction fails exactly when the retrieval agent cannot load its index. */
  function New(load: IndexLoad, lower: real := EvaluationAgent.DefaultLower,
               upper: real := EvaluationAgent.DefaultUpper): (r: Result<Agents, string>)
    ensures r.Failure? <==> load.IndexUnreadable?
    ensures r.Failure? ==> r.error == RetrievalAgent.New(load).error
    ensures r.Success? ==> r.value.retrieval == RetrievalAgent.New(load).value &&
                           r.value.evaluation == EvaluationAgent.Agent(lower, upper)
  {
    match RetrievalAgent.New(load)
    case Failure(e) => Failure(e)
    case Success(retrieval) => Success(Agents(retrieval, EvaluationAgent.Agent(lower, upper)))
  }

  /** An image is present when bytes were given and they are not empty. */
  predicate HasImage(image: Option<seq<bv8>>)
  {
    image.Some? && image.value != []
  }

  /** The query the pipeline works on: the image analysis when there is an image, else the user's query. */
  function EffectiveQuery(services: Services, query: string, image: Option<seq<bv8>>): string
  {
    if HasImage(image) then services.analyseImage(query, image.value) else query
  }

  /** The document summary kept in the result. */
  function RelevantDocOf(p: GenerationAgent.Scored): RelevantDocument
  {
    RelevantDocument(Preview(p.doc), p.score, Get(p.doc.metadata, "url", "No URL available"))
  }

  /** The summaries of the pairs scoring at least `lower`, in pair order. */
  function RelevantDocs(pairs: seq<GenerationAgent.Scored>, lower: real): (docs: seq<RelevantDocument>)
    ensures |docs| <= |pairs|
    ensures forall i :: 0 <= i < |docs| ==> docs[i].score >= lower
  {
    if pairs == [] then []
    else
      var p := pairs[|pairs| - 1];
      RelevantDocs(pairs[..|pairs| - 1], lower) + (if p.score >= lower then [RelevantDocOf(p)] else [])
  }

  /** The summaries of consecutive runs of pairs are concatenated in order. */
  lemma {:induction false} RelevantDocsAppend(a: seq<GenerationAgent.Scored>, b: seq<GenerationAgent.Scored>, lower: real)
    ensures RelevantDocs(a + b, lower) == RelevantDocs(a, lower) + RelevantDocs(b, lower)
  {
    if b != [] {
      RelevantDocsAppend(a, b[..|b| - 1], lower);
      assert (a + b)[..|a + b| - 1] == a + b[..|b| - 1];
    } else {
      assert a + b == a;
    }
  }

  /** One pair is kept exactly when its score reaches `lower`; its URL defaults to "No URL available". */
  lemma RelevantDocsOfOne(p: GenerationAgent.Scored, lower: real)
    ensures RelevantDocs([p], lower) == if p.score >= lower then [RelevantDocOf(p)] else []
    ensures p.score >= lower && "url" !in p.doc.metadata ==> RelevantDocs([p], lower)[0].url == "No URL available"
  {
    assert [p][..0] == [];
  }

  /** The loop filling `relevant_docs`: one summary per pair scoring at least `lower`. */
  method CollectRelevantDocs(documents: seq<Document>, scores: seq<real>, lower: real)
    returns (relevant: seq<RelevantDocument>)
    ensures relevant == RelevantDocs(GenerationAgent.Zip(documents, scores), lower)
  {
    var pairs := GenerationAgent.Zip(documents, scores);
    relevant := [];
    var i := 0;
    while i < |pairs|
      invariant 0 <= i <= |pairs|
      invariant relevant == RelevantDocs(pairs[..i], lower)
    {
      var doc, score := pairs[i].doc, pairs[i].score;
      if score >= lower {
        relevant := relevant + [RelevantDocument(Preview(doc), score, Get(doc.metadata, "url", "No URL available"))];
      }
      assert pairs[..i + 1][..i] == pairs[..i];
      i := i + 1;
    }
    assert pairs[..|pairs|] == pairs;
  }

  /** The calls made before retrieval: the image analysis, if any. */
  function ImageCalls(query: string, image: Option<seq<bv8>>): seq<Call>
  {
    if HasImage(image) then [ImageAnalysis(query)] else []
  }

  /** The strategy-dependent arguments of the generator: documents and scores, and the web result. */
  predicate UsesDocuments(s: EvaluationAgent.Strategy)
  {
    s == EvaluationAgent.KbOnly || s == EvaluationAgent.Hybrid
  }

  predicate UsesWeb(s: EvaluationAgent.Strategy)
  {
    s == EvaluationAgent.WebOnly || s == EvaluationAgent.Hybrid
  }

  /** The generator reads the documents and the web result exactly for the strategies that use them. */
  lemma StrategyArgReads(s: EvaluationAgent.Strategy)
    ensures GenerationAgent.ReadsDocuments(GenerationAgent.Named(EvaluationAgent.StrategyName(s))) <==> UsesDocuments(s)
    ensures GenerationAgent.ReadsWeb(GenerationAgent.Named(EvaluationAgent.StrategyName(s))) <==> UsesWeb(s)
  {
    EvaluationAgent.StrategyNamesDistinct(s, EvaluationAgent.KbOnly);
    EvaluationAgent.StrategyNamesDistinct(s, EvaluationAgent.WebOnly);
    EvaluationAgent.StrategyNamesDistinct(s, EvaluationAgent.Hybrid);
  }

  /** The document summaries of the result: those scoring at least `lower`, best first. */
  function RankedRelevantDocs(docs: seq<Document>, scores: seq<real>, lower: real): seq<RelevantDocument>
  {
    SortDesc(RelevantDocs(GenerationAgent.Zip(docs, scores), lower), DocScore)
  }

  /** The strategy chosen from the judgements of the retrieved documents. */
  function StrategyFor(o: Agents, services: Services, q: string, docs: seq<Document>): EvaluationAgent.Strategy
  {
    EvaluationAgent.DetermineStrategy(o.evaluation, EvaluationAgent.Evaluations(services, q, docs))
  }

  /** The generator's answer for the chosen strategy, given the documents and scores and, if searched, the web result. */
  function RetrievedGeneration(o: Agents, services: Services, q: string, docs: seq<Document>,
                               history: Option<seq<ChatTurn>>): GenerationAgent.Generated
  {
    var strategy := StrategyFor(o, services, q, docs);
    var scores := EvaluationAgent.ScoreValues(EvaluationAgent.Evaluations(services, q, docs));
    StrategyArgReads(strategy);
    GenerationAgent.Answer(services, q, GenerationAgent.Named(EvaluationAgent.StrategyName(strategy)),
      if UsesDocuments(strategy) then Some(docs) else None,
      if UsesDocuments(strategy) then Some(scores) else None,
      if UsesWeb(strategy) then Some(WebSearchAgent.Search(services, q)) else None,
      history)
  }

  /** The calls after retrieval: the judgements, the web search if the strategy uses the web, then `last`. */
  function RetrievedCalls(services: Services, q: string, docs: seq<Document>, strategy: EvaluationAgent.Strategy,
                          last: Call): seq<Call>
  {
    EvaluationAgent.EvaluationCalls(q, docs) +
    (if UsesWeb(strategy) then WebSearchAgent.SearchCalls(services, q) else []) +
    [last]
  }

  /** What `run` computes from the retrieved documents when the gate asks for retrieval. */
  function RetrievedAnswer(o: Agents, services: Services, q: string, docs: seq<Document>,
                           history: Option<seq<ChatTurn>>): Outcome
  {
    var g := RetrievedGeneration(o, services, q, docs, history);
    var scores := EvaluationAgent.ScoreValues(EvaluationAgent.Evaluations(services, q, docs));
    Outcome(
      QueryResult(g.response, g.sources, RankedRelevantDocs(docs, scores, o.evaluation.lower)),
      RetrievedCalls(services, q, docs, StrategyFor(o, services, q, docs), Generation(g.input)))
  }

  /**
   * What `run` computes for the query it works on. Without retrieval the
   * generator is called with the history in the strategy position, so it
   * answers without context and without history.
   */
  function QueryAnswer(o: Agents, services: Services, q: string, history: Option<seq<ChatTurn>>): Outcome
  {
    if !RetrievalAgent.ShouldRetrieve(services, q) then
      var g := GenerationAgent.Answer(services, q, GenerationAgent.NotAString, None, None, None, None);
      Outcome(QueryResult(g.response, g.sources, []), [RetrievalDecision(q), Generation(g.input)])
    else
      var docs := RetrievalAgent.Documents(o.retrieval.index.search(q, o.retrieval.topK));
      var r := RetrievedAnswer(o, services, q, docs, history);
      Outcome(r.result, [RetrievalDecision(q), IndexSearch(q, o.retrieval.topK)] + r.calls)
  }

  /** What `run` computes: the image, if any, is analysed first and its analysis becomes the query. */
  function Answer(o: Agents, services: Services, query: string, image: Option<seq<bv8>>,
                  history: Option<seq<ChatTurn>>): Outcome
  {
    var r := QueryAnswer(o, services, EffectiveQuery(services, query, image), history);
    Outcome(r.result, ImageCalls(query, image) + r.calls)
  }

  /** The part of `run` after retrieval: evaluation, the web search if the strategy asks, generation, ranking. */
  method RunRetrieved(o: Agents, services: Services, q: string, documents: seq<Document>,
                      history: Option<seq<ChatTurn>>) returns (result: QueryResult, calls: seq<Call>)
    ensures Outcome(result, calls) == RetrievedAnswer(o, services, q, documents, history)
  {
    var relevanceScores, strategy, evaluationCalls := EvaluationAgent.Run(o.evaluation, services, q, documents);
    var webResult: Option<WebSearchResult> := None;
    var webCalls: seq<Call> := [];
    if strategy == EvaluationAgent.WebOnly || strategy == EvaluationAgent.Hybrid {
      var web;
      web, webCalls := WebSearchAgent.Run(services, q);
      webResult := Some(web);
    }
    var scores := EvaluationAgent.ScoreValues(relevanceScores);
    var usesDocuments := strategy == EvaluationAgent.KbOnly || strategy == EvaluationAgent.Hybrid;
    StrategyArgReads(strategy);
    var g := GenerationAgent.Run(services, q, GenerationAgent.Named(EvaluationAgent.StrategyName(strategy)),
      if usesDocuments then Some(documents) else None,
      if usesDocuments then Some(scores) else None,
      webResult, history);
    calls := evaluationCalls + webCalls + [Generation(g.input)];
    var relevantDocs := CollectRelevantDocs(documents, scores, o.evaluation.lower);
    relevantDocs := SortDesc(relevantDocs, DocScore);
    result := QueryResult(g.response, g.sources, relevantDocs);
  }

  /** `run` from the retrieval gate on, for the query it works on. */
  method RunQuery(o: Agents, services: Services, q: string, history: Option<seq<ChatTurn>>)
    returns (result: QueryResult, calls: seq<Call>)
    ensures Outcome(result, calls) == QueryAnswer(o, services, q, history)
  {
    var performed, documents, retrievalCalls := RetrievalAgent.Run(o.retrieval, services, q);
    if !performed {
      var g := GenerationAgent.Run(services, q, GenerationAgent.NotAString, None, None, None, None);
      result := QueryResult(g.response, g.sources, []);
      calls := retrievalCalls + [Generation(g.input)];
      return;
    }
    var rest;
    result, rest := RunRetrieved(o, services, q, documents, history);
    calls := retrievalCalls + rest;
  }

  /** `Orchestrator.run`. */
  method Run(o: Agents, services: Services, query: string, image: Option<seq<bv8>>,
             history: Option<seq<ChatTurn>>) returns (result: QueryResult, calls: seq<Call>)
    ensures Outcome(result, calls) == Answer(o, services, query, image, history)
  {
    var q := query;
    var imageCalls: seq<Call> := [];
    if image.Some? && image.value != [] {
      q := services.analyseImage(query, image.value);
      imageCalls := [ImageAnalysis(query)];
    }
    var rest;
    result, rest := RunQuery(o, services, q, history);
    calls := imageCalls + rest;
  }

  /** Every pair scoring at least `lower` has its summary listed. */
  lemma {:induction false} RelevantDocsComplete(pairs: seq<GenerationAgent.Scored>, lower: real, i: nat)
    requires i < |pairs| && pairs[i].score >= lower
    ensures RelevantDocOf(pairs[i]) in RelevantDocs(pairs, lower)
  {
    var last := |pairs| - 1;
    if i < last {
      RelevantDocsComplete(pairs[..last], lower, i);
    }
  }

  /** Every listed summary is that of a pair scoring at least `lower`. */
  lemma {:induction false} RelevantDocsSound(pairs: seq<GenerationAgent.Scored>, lower: real, d: RelevantDocument)
    requires d in RelevantDocs(pairs, lower)
    ensures exists i :: 0 <= i < |pairs| && pairs[i].score >= lower && d == RelevantDocOf(pairs[i])
  {
    var last := |pairs| - 1;
    if d in RelevantDocs(pairs[..last], lower) {
      RelevantDocsSound(pairs[..last], lower, d);
      var i :| 0 <= i < |pairs[..last]| && pairs[..last][i].score >= lower && d == RelevantDocOf(pairs[..last][i]);
      assert pairs[i] == pairs[..last][i];
    } else {
      assert pairs[last].score >= lower && d == RelevantDocOf(pairs[last]);
    }
  }

  /** The ranked list holds the same summaries as the filtered one. */
  lemma RankedSameMembers(docs: seq<Document>, scores: seq<real>, lower: real, d: RelevantDocument)
    ensures d in RankedRelevantDocs(docs, scores, lower) <==> d in RelevantDocs(GenerationAgent.Zip(docs, scores), lower)
  {
    var listed := RelevantDocs(GenerationAgent.Zip(docs, scores), lower);
    var ranked := RankedRelevantDocs(docs, scores, lower);
    assert d in ranked <==> d in multiset(ranked);
    assert d in listed <==> d in multiset(listed);
  }

  /**
   * The documents of the result are sorted by score from highest to lowest, are
   * a permutation of the filtered summaries, number at most the documents, and
   * all reach the lower threshold.
   */
  lemma RankedRelevantDocsOrder(docs: seq<Document>, scores: seq<real>, lower: real)
    ensures SortedDesc(RankedRelevantDocs(docs, scores, lower), DocScore)
    ensures multiset(RankedRelevantDocs(docs, scores, lower)) ==
            multiset(RelevantDocs(GenerationAgent.Zip(docs, scores), lower))
    ensures |RankedRelevantDocs(docs, scores, lower)| <= |docs|
    ensures forall d :: d in RankedRelevantDocs(docs, scores, lower) ==> d.score >= lower
  {
    var listed := RelevantDocs(GenerationAgent.Zip(docs, scores), lower);
    forall d | d in RankedRelevantDocs(docs, scores, lower)
      ensures d.score >= lower
    {
      RankedSameMembers(docs, scores, lower, d);
      var k :| 0 <= k < |listed| && listed[k] == d;
    }
  }

  /** Every document scoring at least the lower threshold has its summary in the result. */
  lemma RankedRelevantDocsComplete(docs: seq<Document>, scores: seq<real>, lower: real)
    ensures forall i :: 0 <= i < |docs| && i < |scores| && scores[i] >= lower ==>
              RelevantDocOf(GenerationAgent.Scored(docs[i], scores[i])) in RankedRelevantDocs(docs, scores, lower)
  {
    var pairs := GenerationAgent.Zip(docs, scores);
    forall i | 0 <= i < |docs| && i < |scores| && scores[i] >= lower
      ensures RelevantDocOf(GenerationAgent.Scored(docs[i], scores[i])) in RankedRelevantDocs(docs, scores, lower)
    {
      assert pairs[i] == GenerationAgent.Scored(docs[i], scores[i]);
      RelevantDocsComplete(pairs, lower, i);
      RankedSameMembers(docs, scores, lower, RelevantDocOf(pairs[i]));
    }
  }

  /** Every summary in the result is that of a document scoring at least the lower threshold. */
  lemma RankedRelevantDocsSound(docs: seq<Document>, scores: seq<real>, lower: real)
    ensures forall d :: d in RankedRelevantDocs(docs, scores, lower) ==>
              exists i :: 0 <= i < |docs| && i < |scores| && scores[i] >= lower &&
                          d == RelevantDocOf(GenerationAgent.Scored(docs[i], scores[i]))
  {
    var pairs := GenerationAgent.Zip(docs, scores);
    forall d | d in RankedRelevantDocs(docs, scores, lower)
      ensures exists i :: 0 <= i < |docs| && i < |scores| && scores[i] >= lower &&
                          d == RelevantDocOf(GenerationAgent.Scored(docs[i], scores[i]))
    {
      RankedSameMembers(docs, scores, lower, d);
      RelevantDocsSound(pairs, lower, d);
      var i :| 0 <= i < |pairs| && pairs[i].score >= lower && d == RelevantDocOf(pairs[i]);
      assert pairs[i] == GenerationAgent.Scored(docs[i], scores[i]);
    }
  }

  /**
   * When the gate declines, the model answers the query with no context and no
   * history, nothing is retrieved, judged or searched, and the result lists no
   * links and no documents.
   */
  lemma NoRetrievalAnswer(o: Agents, services: Services, q: string, history: Option<seq<ChatTurn>>)
    requires !RetrievalAgent.ShouldRetrieve(services, q)
    ensures QueryAnswer(o, services, q, history) ==
      Outcome(QueryResult(services.generate(GenerationInput(q, GenerationAgent.NoContext, None)), [], []),
              [RetrievalDecision(q), Generation(GenerationInput(q, GenerationAgent.NoContext, None))])
  {
    var g := GenerationAgent.Answer(services, q, GenerationAgent.NotAString, None, None, None, None);
    assert g.input == GenerationInput(q, GenerationAgent.NoContext, None);
  }

  /**
   * A non-empty image replaces the typed query by its analysis, after one
   * analysis call; without an image (or with empty bytes) the typed query is used.
   */
  lemma ImageReplacesQuery(o: Agents, services: Services, query: string, image: Option<seq<bv8>>,
                           history: Option<seq<ChatTurn>>)
    ensures HasImage(image) ==>
      var analysed := QueryAnswer(o, services, services.analyseImage(query, image.value), history);
      Answer(o, services, query, image, history) == Outcome(analysed.result, [ImageAnalysis(query)] + analysed.calls)
    ensures !HasImage(image) ==> Answer(o, services, query, image, history) == QueryAnswer(o, services, query, history)
  {
    if !HasImage(image) {
      assert ImageCalls(query, image) + QueryAnswer(o, services, query, history).calls ==
             QueryAnswer(o, services, query, history).calls;
    }
  }

  /**
   * The calls after a yes from the gate: the index is searched once and never
   * again, and the web exactly for the web-only and hybrid strategies.
   */
  lemma RetrievedSearches(services: Services, q: string, k: nat, docs: seq<Document>,
                          strategy: EvaluationAgent.Strategy, input: GenerationInput)
    ensures var calls := [RetrievalDecision(q), IndexSearch(q, k)] + RetrievedCalls(services, q, docs, strategy, Generation(input));
            SearchesIndex(calls) && (SearchesWeb(calls) <==> UsesWeb(strategy))
  {
    var front := [RetrievalDecision(q), IndexSearch(q, k)];
    var evals := EvaluationAgent.EvaluationCalls(q, docs);
    var web := if UsesWeb(strategy) then WebSearchAgent.SearchCalls(services, q) else [];
    SearchesWebAppend(front, evals + web + [Generation(input)]);
    SearchesWebAppend(evals + web, [Generation(input)]);
    SearchesWebAppend(evals, web);
    SearchesIndexAppend(front, evals + web + [Generation(input)]);
    assert front[1] in front;
    if UsesWeb(strategy) {
      assert web[1] in web;
    }
  }

  /** The calls after a no from the gate search neither the index nor the web. */
  lemma DeclinedSearches(q: string, input: GenerationInput)
    ensures !SearchesIndex([RetrievalDecision(q), Generation(input)])
    ensures !SearchesWeb([RetrievalDecision(q), Generation(input)])
  {
  }

  /**
   * The index is searched exactly when the gate says yes, and the web exactly
   * when, in addition, the strategy is web only or hybrid.
   */
  lemma SearchesByDecision(o: Agents, services: Services, q: string, history: Option<seq<ChatTurn>>)
    ensures SearchesIndex(QueryAnswer(o, services, q, history).calls) <==> RetrievalAgent.ShouldRetrieve(services, q)
    ensures SearchesWeb(QueryAnswer(o, services, q, history).calls) <==>
              RetrievalAgent.ShouldRetrieve(services, q) &&
              UsesWeb(StrategyFor(o, services, q, RetrievalAgent.Documents(o.retrieval.index.search(q, o.retrieval.topK))))
  {
    if RetrievalAgent.ShouldRetrieve(services, q) {
      var docs := RetrievalAgent.Documents(o.retrieval.index.search(q, o.retrieval.topK));
      RetrievedSearches(services, q, o.retrieval.topK, docs, StrategyFor(o, services, q, docs),
                        RetrievedGeneration(o, services, q, docs, history).input);
    } else {
      DeclinedSearches(q, GenerationAgent.Answer(services, q, GenerationAgent.NotAString, None, None, None, None).input);
    }
  }

  /**
   * The links of the result follow the strategy: the knowledge-base links of the
   * ranked documents, the web links, or the former followed by the latter.
   */
  lemma ReferenceLinksByStrategy(o: Agents, services: Services, q: string, docs: seq<Document>,
                                 history: Option<seq<ChatTurn>>)
    ensures var strategy := StrategyFor(o, services, q, docs);
            var kb := GenerationAgent.KbSources(services.formatScore,
                        GenerationAgent.Ranked(docs, EvaluationAgent.ScoreValues(EvaluationAgent.Evaluations(services, q, docs))));
            var web := WebSearchAgent.Search(services, q).sources;
            var links := RetrievedAnswer(o, services, q, docs, history).result.referenceLinks;
            (strategy == EvaluationAgent.KbOnly ==> links == kb) &&
            (strategy == EvaluationAgent.WebOnly ==> links == web) &&
            (strategy == EvaluationAgent.Hybrid ==> links == kb + web)
  {
    StrategyArgReads(StrategyFor(o, services, q, docs));
  }

  /** All links have a URL. */
  predicate AllHaveUrls(links: seq<ReferenceLink>)
  {
    forall i :: 0 <= i < |links| ==> links[i].url != ""
  }

  lemma AllHaveUrlsConcat(a: seq<ReferenceLink>, b: seq<ReferenceLink>)
    requires AllHaveUrls(a) && AllHaveUrls(b)
    ensures AllHaveUrls(a + b)
  {
    forall i | 0 <= i < |a + b|
      ensures (a + b)[i].url != ""
    {
      if i >= |a| {
        assert (a + b)[i] == b[i - |a|];
      }
    }
  }

  /** Every link of the result carries a non-empty URL, whatever the strategy. */
  lemma ReferenceLinksHaveUrls(o: Agents, services: Services, q: string, docs: seq<Document>,
                               history: Option<seq<ChatTurn>>)
    ensures AllHaveUrls(RetrievedAnswer(o, services, q, docs, history).result.referenceLinks)
  {
    var scores := EvaluationAgent.ScoreValues(EvaluationAgent.Evaluations(services, q, docs));
    var kb := GenerationAgent.KbAnswer(services, q, docs, scores, history).sources;
    var web := WebSearchAgent.Search(services, q).sources;
    assert AllHaveUrls(kb) && AllHaveUrls(web);
    ReferenceLinksByStrategy(o, services, q, docs, history);
    AllHaveUrlsConcat(kb, web);
  }
}
