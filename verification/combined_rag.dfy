/**
 * The standalone combined pipeline script. A self-reflective gate decides
 * whether to retrieve; each retrieved context gets a numeric score and a binary
 * verdict; then the best score and the verdicts choose between answering from
 * web knowledge, from the best context blended with web knowledge, or from one
 * answer per relevant context, the best of which is picked by support and
 * utility.
 */
module CombinedRag {
  import opened Wrappers
  import opened Text
  import opened Sorting
  import opened Models
  import opened Oracles
  import RetrievalAgent
  import EvaluationAgent
  import WebSearchAgent

  const DefaultLower: real := 0.3
  const DefaultUpper: real := 0.7
  const DefaultTopK: nat := 3

  /** The one message construction reports, whatever made the index unreadable. */
  const LoadError := "Failed to load index. Please check the path and try again."
  const NoUrl := "No URL available"
  const NoSourceUrl := "No source URL available"
  const NoRetrievalContext := "No retrieval necessary."

  /** A constructed pipeline: the loaded index, the two score thresholds and the hit count. */
  datatype Rag = Rag(index: VectorIndex, lower: real, upper: real, topK: nat)

  /** Construction fails exactly when the index cannot be loaded, and the loader's reason is not passed on. */
  function New(load: IndexLoad, lower: real := DefaultLower, upper: real := DefaultUpper,
               topK: nat := DefaultTopK): (r: Result<Rag, string>)
    ensures r.Failure? <==> load.IndexUnreadable?
    ensures r.Failure? ==> r.error == LoadError
    ensures r.Success? ==> r.value.index == load.index && r.value.lower == lower &&
                           r.value.upper == upper && r.value.topK == topK
  {
    match load
    case IndexLoaded(index) => Success(Rag(index, lower, upper, topK))
    case IndexUnreadable(_) => Failure(LoadError)
  }

  // ---------------------------------------------------------------------------
  // Judging the retrieved contexts
  // ---------------------------------------------------------------------------

  /** One retrieved context with its numeric score and its binary verdict. */
  datatype Judged = Judged(content: string, metadata: map<string, string>, score: real, relevant: bool)

  function JudgedScore(j: Judged): real
  {
    j.score
  }

  /** Both judgements of one hit, each from its own model call. */
  function JudgeHit(services: Services, query: string, hit: RawHit): Judged
  {
    Judged(hit.pageContent, hit.metadata, services.scoreRelevance(query, hit.pageContent),
           EvaluationAgent.IsRelevantReply(services.judgeRelevance(query, hit.pageContent)))
  }

  /** The judgements of the hits, one per hit, in hit order. */
  function Judgements(services: Services, query: string, hits: seq<RawHit>): (js: seq<Judged>)
    ensures |js| == |hits|
  {
    if hits == [] then []
    else Judgements(services, query, hits[..|hits| - 1]) + [JudgeHit(services, query, hits[|hits| - 1])]
  }

  /** The judgement at each position is that of the hit at the same position. */
  lemma {:induction false} JudgementsPointwise(services: Services, query: string, hits: seq<RawHit>, i: nat)
    requires i < |hits|
    ensures Judgements(services, query, hits)[i] == JudgeHit(services, query, hits[i])
  {
    if i < |hits| - 1 {
      JudgementsPointwise(services, query, hits[..|hits| - 1], i);
    }
  }

  /** `eval_scores`: the numeric scores in hit order. */
  function Scores(js: seq<Judged>): (xs: seq<real>)
    ensures |xs| == |js|
    ensures forall i :: 0 <= i < |js| ==> xs[i] == js[i].score
  {
    if js == [] then [] else Scores(js[..|js| - 1]) + [js[|js| - 1].score]
  }

  /** The summary kept for a context that scores well: a 200-character preview, the score, the parent URL. */
  function DocInfo(j: Judged): RelevantDocument
  {
    RelevantDocument(Preview(Document(j.content, j.metadata)), j.score, Get(j.metadata, "parent_url", NoUrl))
  }

  /** `relevant_docs`: the summaries of the contexts scoring at least `lower`, in hit order. */
  function RelevantDocs(js: seq<Judged>, lower: real): (docs: seq<RelevantDocument>)
    ensures |docs| <= |js|
    ensures forall k :: 0 <= k < |docs| ==> docs[k].score >= lower
  {
    if js == [] then []
    else
      var j := js[|js| - 1];
      RelevantDocs(js[..|js| - 1], lower) + (if j.score >= lower then [DocInfo(j)] else [])
  }

  /** Every context scoring at least `lower` has its summary kept, whatever its binary verdict. */
  lemma {:induction false} RelevantDocsComplete(js: seq<Judged>, lower: real, i: nat)
    requires i < |js| && js[i].score >= lower
    ensures DocInfo(js[i]) in RelevantDocs(js, lower)
  {
    var last := |js| - 1;
    if i < last {
      RelevantDocsComplete(js[..last], lower, i);
    }
  }

  /** `relevant_contexts`: the contexts judged relevant, in hit order. */
  function RelevantContexts(js: seq<Judged>): (rs: seq<Judged>)
    ensures |rs| <= |js|
    ensures forall k :: 0 <= k < |rs| ==> rs[k].relevant && rs[k] in js
  {
    if js == [] then []
    else
      var j := js[|js| - 1];
      var front := RelevantContexts(js[..|js| - 1]);
      assert forall k :: 0 <= k < |front| ==> front[k] in js by {
        forall k | 0 <= k < |front|
          ensures front[k] in js
        {
          var m :| 0 <= m < |js[..|js| - 1]| && js[..|js| - 1][m] == front[k];
          assert js[m] == front[k];
        }
      }
      front + (if j.relevant then [j] else [])
  }

  /** Every context judged relevant is kept as a candidate, whatever its score. */
  lemma {:induction false} RelevantContextsComplete(js: seq<Judged>, i: nat)
    requires i < |js| && js[i].relevant
    ensures js[i] in RelevantContexts(js)
  {
    var last := |js| - 1;
    if i < last {
      RelevantContextsComplete(js[..last], i);
    }
  }

  /** The calls judging the hits make: the score, then the binary verdict, for each hit. */
  function JudgeCalls(query: string, hits: seq<RawHit>): (calls: seq<Call>)
    ensures |calls| == 2 * |hits|
    ensures forall c :: c in calls ==> c.RelevanceScoring? || c.RelevanceJudgement?
    ensures forall i :: 0 <= i < |hits| ==>
      calls[2 * i] == RelevanceScoring(query, hits[i].pageContent) &&
      calls[2 * i + 1] == RelevanceJudgement(query, hits[i].pageContent)
  {
    if hits == [] then []
    else
      var last := hits[|hits| - 1];
      JudgeCalls(query, hits[..|hits| - 1]) +
      [RelevanceScoring(query, last.pageContent), RelevanceJudgement(query, last.pageContent)]
  }

  /** Judging one more hit appends its judgement and its two calls. */
  lemma JudgeStep(services: Services, query: string, hits: seq<RawHit>, i: nat)
    requires i < |hits|
    ensures Judgements(services, query, hits[..i + 1]) ==
            Judgements(services, query, hits[..i]) + [JudgeHit(services, query, hits[i])]
    ensures JudgeCalls(query, hits[..i + 1]) ==
            JudgeCalls(query, hits[..i]) + [RelevanceScoring(query, hits[i].pageContent),
                                            RelevanceJudgement(query, hits[i].pageContent)]
  {
    assert hits[..i + 1][..i] == hits[..i];
  }

  /** One more judgement extends the scores, the kept summaries and the candidates by its own contribution. */
  lemma JudgedSnoc(js: seq<Judged>, j: Judged, lower: real)
    ensures Scores(js + [j]) == Scores(js) + [j.score]
    ensures RelevantDocs(js + [j], lower) == RelevantDocs(js, lower) + (if j.score >= lower then [DocInfo(j)] else [])
    ensures RelevantContexts(js + [j]) == RelevantContexts(js) + (if j.relevant then [j] else [])
  {
    assert (js + [j])[..|js|] == js;
  }

  /** What one judgement adds to the scores, the kept summaries and the candidates. */
  method Keep(ghost judged: seq<Judged>, j: Judged, lower: real,
              scores: seq<real>, relevantDocs: seq<RelevantDocument>, relevantContexts: seq<Judged>)
    returns (scores': seq<real>, relevantDocs': seq<RelevantDocument>, relevantContexts': seq<Judged>)
    requires scores == Scores(judged)
    requires relevantDocs == RelevantDocs(judged, lower)
    requires relevantContexts == RelevantContexts(judged)
    ensures scores' == Scores(judged + [j])
    ensures relevantDocs' == RelevantDocs(judged + [j], lower)
    ensures relevantContexts' == RelevantContexts(judged + [j])
  {
    JudgedSnoc(judged, j, lower);
    scores' := scores + [j.score];
    relevantDocs' := relevantDocs;
    if j.score >= lower {
      relevantDocs' := relevantDocs + [DocInfo(j)];
    }
    relevantContexts' := relevantContexts;
    if j.relevant {
      relevantContexts' := relevantContexts + [j];
    }
  }

  /**
   * The judging loop: for each hit in order, the score (kept in the scores, and
   * the summary kept when the score reaches `lower`), then the binary verdict
   * (the context kept as a candidate when it is relevant).
   */
  method JudgeContexts(services: Services, query: string, hits: seq<RawHit>, lower: real)
    returns (scores: seq<real>, relevantDocs: seq<RelevantDocument>, relevantContexts: seq<Judged>, calls: seq<Call>)
    ensures scores == Scores(Judgements(services, query, hits))
    ensures relevantDocs == RelevantDocs(Judgements(services, query, hits), lower)
    ensures relevantContexts == RelevantContexts(Judgements(services, query, hits))
    ensures calls == JudgeCalls(query, hits)
  {
    scores, relevantDocs, relevantContexts, calls := [], [], [], [];
    ghost var judged: seq<Judged> := [];
    var i := 0;
    while i < |hits|
      invariant 0 <= i <= |hits|
      invariant judged == Judgements(services, query, hits[..i])
      invariant scores == Scores(judged)
      invariant relevantDocs == RelevantDocs(judged, lower)
      invariant relevantContexts == RelevantContexts(judged)
      invariant calls == JudgeCalls(query, hits[..i])
    {
      var j := JudgeHit(services, query, hits[i]);
      scores, relevantDocs, relevantContexts := Keep(judged, j, lower, scores, relevantDocs, relevantContexts);
      calls := calls + [RelevanceScoring(query, j.content), RelevanceJudgement(query, j.content)];
      JudgeStep(services, query, hits, i);
      judged := judged + [j];
      i := i + 1;
    }
    assert hits[..|hits|] == hits;
  }

  // ---------------------------------------------------------------------------
  // Choosing the route
  // ---------------------------------------------------------------------------

  /** `max(eval_scores) if eval_scores else 0`. */
  function MaxScoreOrZero(xs: seq<real>): (m: real)
    ensures xs == [] ==> m == 0.0
    ensures xs != [] ==> m in xs && forall i :: 0 <= i < |xs| ==> xs[i] <= m
  {
    if xs == [] then 0.0 else MaxScore(xs)
  }

  /** The three ways of answering after retrieval. */
  datatype Route = WebRoute | HybridRoute | KnowledgeRoute

  /** The route the script takes from the scores and the relevant contexts. */
  function RouteFrom(rag: Rag, scores: seq<real>, relevant: seq<Judged>): Route
  {
    var best := MaxScoreOrZero(scores);
    if relevant == [] || best < rag.lower then WebRoute
    else if rag.lower <= best < rag.upper then HybridRoute
    else KnowledgeRoute
  }

  /** The route the script takes from the judgements. */
  function RouteOf(rag: Rag, js: seq<Judged>): Route
  {
    RouteFrom(rag, Scores(js), RelevantContexts(js))
  }

  /** Some context is judged relevant. */
  predicate SomeRelevant(js: seq<Judged>)
  {
    exists i :: 0 <= i < |js| && js[i].relevant
  }

  /** Some context scores at least `t`. */
  predicate SomeScoreReaches(js: seq<Judged>, t: real)
  {
    exists i :: 0 <= i < |js| && js[i].score >= t
  }

  lemma MaxScoreReaches(js: seq<Judged>, t: real)
    requires js != []
    ensures MaxScoreOrZero(Scores(js)) >= t <==> SomeScoreReaches(js, t)
  {
    var xs := Scores(js);
    var m := MaxScoreOrZero(xs);
    if m >= t {
      var i :| 0 <= i < |xs| && xs[i] == m;
      assert js[i].score >= t;
    }
    if SomeScoreReaches(js, t) {
      var i :| 0 <= i < |js| && js[i].score >= t;
      assert xs[i] <= m;
    }
  }

  lemma RelevantContextsEmpty(js: seq<Judged>)
    ensures RelevantContexts(js) == [] <==> !SomeRelevant(js)
  {
    if SomeRelevant(js) {
      var i :| 0 <= i < |js| && js[i].relevant;
      RelevantContextsComplete(js, i);
    }
    if RelevantContexts(js) != [] {
      var r := RelevantContexts(js)[0];
      assert r.relevant && r in js;
    }
  }

  /**
   * The route in terms of the judgements: the web when no context is judged
   * relevant or none scores at least the lower threshold; the blend when both
   * hold but none scores at least the upper threshold; the contexts' own answers
   * when, in addition, some context scores at least the upper threshold.
   */
  lemma RouteByJudgements(rag: Rag, js: seq<Judged>)
    ensures RouteOf(rag, js) == WebRoute <==> !SomeRelevant(js) || !SomeScoreReaches(js, rag.lower)
    ensures RouteOf(rag, js) == HybridRoute <==>
              SomeRelevant(js) && SomeScoreReaches(js, rag.lower) && !SomeScoreReaches(js, rag.upper)
    ensures RouteOf(rag, js) == KnowledgeRoute <==>
              SomeRelevant(js) && SomeScoreReaches(js, rag.lower) && SomeScoreReaches(js, rag.upper)
  {
    RelevantContextsEmpty(js);
    if js != [] {
      MaxScoreReaches(js, rag.lower);
      MaxScoreReaches(js, rag.upper);
    }
  }

  // ---------------------------------------------------------------------------
  // Web search
  // ---------------------------------------------------------------------------

  /** One search result as the script keeps it: its title (or "Untitled") and its link (or ""). */
  datatype WebSource = WebSource(title: string, link: string)

  function SourcePair(entry: map<string, string>): WebSource
  {
    WebSource(Get(entry, "title", "Untitled"), Get(entry, "link", ""))
  }

  /** One pair per search result, in result order, kept even when the link is empty. */
  function SourcePairs(entries: seq<map<string, string>>): (ps: seq<WebSource>)
    ensures |ps| == |entries|
    ensures forall i :: 0 <= i < |entries| ==> ps[i] == SourcePair(entries[i])
  {
    if entries == [] then [] else SourcePairs(entries[..|entries| - 1]) + [SourcePair(entries[|entries| - 1])]
  }

  /** What `perform_web_search` returns: the refined knowledge and the source pairs. */
  datatype WebFindings = WebFindings(knowledge: string, sources: seq<WebSource>)

  /**
   * `perform_web_search`: the knowledge is exactly the one the web search agent
   * derives from the same search; the pairs cover every parsed result, and an
   * unparseable output gives none.
   */
  function PerformWebSearch(services: Services, query: string): (w: WebFindings)
    ensures w.knowledge == WebSearchAgent.Search(services, query).knowledge
    ensures var parsed := services.parseJson(WebSearchAgent.RawResults(services, query));
            (parsed.DecodeError? ==> w.sources == []) &&
            (parsed.Parsed? ==> w.sources == SourcePairs(parsed.entries))
  {
    var raw := WebSearchAgent.RawResults(services, query);
    var knowledge := Join("\n", WebSearchAgent.ExtractKnowledge(services, raw));
    match services.parseJson(raw)
    case Parsed(entries) => WebFindings(knowledge, SourcePairs(entries))
    case DecodeError => WebFindings(knowledge, [])
  }

  /** The reference links of the pairs that have a link, in pair order. */
  function WebLinks(sources: seq<WebSource>): (links: seq<ReferenceLink>)
    ensures |links| <= |sources|
    ensures forall k :: 0 <= k < |links| ==> links[k].url != ""
  {
    if sources == [] then []
    else
      var s := sources[|sources| - 1];
      WebLinks(sources[..|sources| - 1]) + (if s.link != "" then [ReferenceLink(s.title, s.link)] else [])
  }

  /** The script's web links are exactly the links the web search agent extracts from the same results. */
  lemma {:induction false} WebLinksAgree(entries: seq<map<string, string>>)
    ensures WebLinks(SourcePairs(entries)) == WebSearchAgent.Sources(entries)
  {
    if entries != [] {
      var front := entries[..|entries| - 1];
      WebLinksAgree(front);
      assert SourcePairs(entries)[..|entries| - 1] == SourcePairs(front);
    }
  }

  /** The loop adding the web links to the result. */
  method CollectWebLinks(sources: seq<WebSource>) returns (links: seq<ReferenceLink>)
    ensures links == WebLinks(sources)
  {
    links := [];
    var i := 0;
    while i < |sources|
      invariant 0 <= i <= |sources|
      invariant links == WebLinks(sources[..i])
    {
      var title, link := sources[i].title, sources[i].link;
      if link != "" {
        links := links + [ReferenceLink(title, link)];
      }
      assert sources[..i + 1][..i] == sources[..i];
      i := i + 1;
    }
    assert sources[..|sources|] == sources;
  }

  /** One line of the sources text: "title: link", or the title alone when there is no link. */
  function SourceLine(prefix: string, s: WebSource): (line: string)
    ensures prefix + s.title <= line
    ensures s.link != "" ==> |line| == |prefix + s.title| + 2 + |s.link|
    ensures s.link != "" ==> line[|prefix + s.title|..] == ": " + s.link
    ensures s.link == "" ==> line == prefix + s.title
  {
    if s.link != "" then prefix + s.title + ": " + s.link else prefix + s.title
  }

  /** The sources text: one line per pair, each starting with `prefix`. */
  function SourcesText(prefix: string, sources: seq<WebSource>): string
  {
    Join("\n", SourceLines(prefix, sources))
  }

  function SourceLines(prefix: string, sources: seq<WebSource>): (lines: seq<string>)
    ensures |lines| == |sources|
    ensures forall i :: 0 <= i < |sources| ==> lines[i] == SourceLine(prefix, sources[i])
  {
    seq(|sources|, i requires 0 <= i < |sources| => SourceLine(prefix, sources[i]))
  }

  /**
   * When no title, link or prefix holds a newline, the sources text splits back
   * into one line per source, in source order.
   */
  lemma SourcesTextLines(prefix: string, sources: seq<WebSource>)
    requires sources != []
    requires '\n' !in prefix
    requires forall i :: 0 <= i < |sources| ==> '\n' !in sources[i].title && '\n' !in sources[i].link
    ensures |Split(SourcesText(prefix, sources), '\n')| == |sources|
    ensures forall i :: 0 <= i < |sources| ==>
              Split(SourcesText(prefix, sources), '\n')[i] == SourceLine(prefix, sources[i])
  {
    var lines := SourceLines(prefix, sources);
    forall i | 0 <= i < |lines|
      ensures '\n' !in lines[i]
    {
      assert ": " == [':', ' '];
    }
    SplitJoin(lines, '\n');
  }

  // ---------------------------------------------------------------------------
  // The three routes
  // ---------------------------------------------------------------------------

  /** The context of the web route. */
  function WebContext(w: WebFindings): (c: string)
    ensures "Web search results:\n" + w.knowledge + "\n\nSources:\n" <= c
    ensures c[|"Web search results:\n" + w.knowledge + "\n\nSources:\n"|..] == SourcesText("", w.sources)
  {
    "Web search results:\n" + w.knowledge + "\n\nSources:\n" + SourcesText("", w.sources)
  }

  /** The web route: one web search, then one generation on the web context. */
  function WebAnswer(services: Services, query: string, docs: seq<RelevantDocument>): Outcome
  {
    var w := PerformWebSearch(services, query);
    var input := GenerationInput(query, WebContext(w), None);
    Outcome(QueryResult(services.generate(input), WebLinks(w.sources), docs),
            WebSearchAgent.SearchCalls(services, query) + [Generation(input)])
  }

  /** `max(relevant_contexts, key=score)`: the first context with the highest score. */
  function BestContext(relevant: seq<Judged>): (b: Judged)
    requires relevant != []
    ensures b in relevant
    ensures forall k :: 0 <= k < |relevant| ==> relevant[k].score <= b.score
    ensures exists i :: 0 <= i < |relevant| && relevant[i] == b &&
                        forall j :: 0 <= j < i ==> relevant[j].score < b.score
  {
    var i := FirstMax(relevant, JudgedScore);
    assert forall j :: 0 <= j < i ==> JudgedScore(relevant[j]) < JudgedScore(relevant[i]);
    relevant[i]
  }

  /** The link to the best context, unless its metadata has no 'url'. */
  function DocumentLink(url: string): (links: seq<ReferenceLink>)
    ensures |links| <= 1
    ensures links != [] <==> url != NoUrl
    ensures links != [] ==> links[0] == ReferenceLink("Retrieved document", url)
  {
    if url != NoUrl then [ReferenceLink("Retrieved document", url)] else []
  }

  /** The context of the blended route: both knowledge texts, then the database URL and the web sources. */
  function HybridContext(retrieved: string, w: WebFindings, docUrl: string): (c: string)
    ensures "Retrieved knowledge:\n" + retrieved + "\n\nWeb knowledge:\n" + w.knowledge + "\n\nSources:\n" +
            "Retrieved from database: " + docUrl + "\n" <= c
    ensures c[|"Retrieved knowledge:\n" + retrieved + "\n\nWeb knowledge:\n" + w.knowledge + "\n\nSources:\n" +
              "Retrieved from database: " + docUrl + "\n"|..] == SourcesText("Web: ", w.sources)
  {
    "Retrieved knowledge:\n" + retrieved + "\n\nWeb knowledge:\n" + w.knowledge + "\n\nSources:\n" +
    "Retrieved from database: " + docUrl + "\n" + SourcesText("Web: ", w.sources)
  }

  /**
   * The blended route: the key points of the best context, one web search, and
   * one generation on the combined context.
   */
  function HybridAnswer(services: Services, query: string, relevant: seq<Judged>, docs: seq<RelevantDocument>): Outcome
    requires relevant != []
  {
    var best := BestContext(relevant);
    var retrieved := Join("\n", WebSearchAgent.ExtractKnowledge(services, best.content));
    var docUrl := Get(best.metadata, "url", NoUrl);
    var w := PerformWebSearch(services, query);
    var input := GenerationInput(query, HybridContext(retrieved, w, docUrl), None);
    Outcome(QueryResult(services.generate(input), DocumentLink(docUrl) + WebLinks(w.sources), docs),
            [KeyPointExtraction(best.content)] + WebSearchAgent.SearchCalls(services, query) + [Generation(input)])
  }

  /** One answer generated from one relevant context, with its support verdict and utility rating. */
  datatype Candidate = Candidate(response: string, support: string, utility: int, metadata: map<string, string>)

  function CandidateOf(services: Services, query: string, j: Judged): Candidate
  {
    var response := services.generate(GenerationInput(query, j.content, None));
    Candidate(response, EvaluationAgent.EvaluateSupport(services, response, j.content),
              services.rateUtility(query, response), j.metadata)
  }

  /** The calls one candidate takes: the generation, the support verdict, the utility rating. */
  function CandidateCallsOf(services: Services, query: string, j: Judged): seq<Call>
  {
    var input := GenerationInput(query, j.content, None);
    [Generation(input), SupportJudgement(services.generate(input), j.content),
     UtilityRating(query, services.generate(input))]
  }

  /** One candidate per relevant context, in order. */
  function Candidates(services: Services, query: string, relevant: seq<Judged>): (cs: seq<Candidate>)
    ensures |cs| == |relevant|
  {
    if relevant == [] then []
    else Candidates(services, query, relevant[..|relevant| - 1]) + [CandidateOf(services, query, relevant[|relevant| - 1])]
  }

  /** The candidate at each position is the one generated from the context at the same position. */
  lemma {:induction false} CandidatesPointwise(services: Services, query: string, relevant: seq<Judged>, i: nat)
    requires i < |relevant|
    ensures Candidates(services, query, relevant)[i] == CandidateOf(services, query, relevant[i])
  {
    if i < |relevant| - 1 {
      CandidatesPointwise(services, query, relevant[..|relevant| - 1], i);
    }
  }

  /** The calls of all candidates, three per context, in order. */
  function CandidateCalls(services: Services, query: string, relevant: seq<Judged>): (calls: seq<Call>)
    ensures |calls| == 3 * |relevant|
    ensures forall c :: c in calls ==> c.Generation? || c.SupportJudgement? || c.UtilityRating?
  {
    if relevant == [] then []
    else CandidateCalls(services, query, relevant[..|relevant| - 1]) +
         CandidateCallsOf(services, query, relevant[|relevant| - 1])
  }

  /** One step of the candidate loop extends the candidates and the calls by what the next context contributes. */
  lemma CandidateStep(services: Services, query: string, relevant: seq<Judged>, i: nat)
    requires i < |relevant|
    ensures Candidates(services, query, relevant[..i + 1]) ==
            Candidates(services, query, relevant[..i]) + [CandidateOf(services, query, relevant[i])]
    ensures CandidateCalls(services, query, relevant[..i + 1]) ==
            CandidateCalls(services, query, relevant[..i]) + CandidateCallsOf(services, query, relevant[i])
  {
    assert relevant[..i + 1][..i] == relevant[..i];
  }

  /** The candidate loop: generate, judge support, rate utility, for each relevant context in order. */
  method GenerateCandidates(services: Services, query: string, relevant: seq<Judged>)
    returns (responses: seq<Candidate>, calls: seq<Call>)
    ensures responses == Candidates(services, query, relevant)
    ensures calls == CandidateCalls(services, query, relevant)
  {
    responses, calls := [], [];
    var i := 0;
    while i < |relevant|
      invariant 0 <= i <= |relevant|
      invariant responses == Candidates(services, query, relevant[..i])
      invariant calls == CandidateCalls(services, query, relevant[..i])
    {
      var context := relevant[i].content;
      var input := GenerationInput(query, context, None);
      var response := services.generate(input);
      var support := EvaluationAgent.EvaluateSupport(services, response, context);
      var utility := services.rateUtility(query, response);
      responses := responses + [Candidate(response, support, utility, relevant[i].metadata)];
      calls := calls + [Generation(input), SupportJudgement(response, context), UtilityRating(query, response)];
      CandidateStep(services, query, relevant, i);
      i := i + 1;
    }
    assert relevant[..|relevant|] == relevant;
  }

  predicate FullySupported(c: Candidate)
  {
    c.support == "fully supported"
  }

  /** `a` has the larger key `(support == 'fully supported', utility)`, compared as Python compares tuples. */
  predicate Outranks(a: Candidate, b: Candidate)
  {
    (FullySupported(a) && !FullySupported(b)) || (FullySupported(a) == FullySupported(b) && a.utility > b.utility)
  }

  /**
   * The index `max(responses, key=...)` picks: no candidate outranks it, and it
   * outranks every candidate before it, so ties go to the earliest.
   */
  function BestCandidate(cs: seq<Candidate>): (i: nat)
    requires cs != []
    ensures i < |cs|
    ensures forall j :: 0 <= j < |cs| ==> !Outranks(cs[j], cs[i])
    ensures forall j :: 0 <= j < i ==> Outranks(cs[i], cs[j])
  {
    if |cs| == 1 then 0
    else
      var j := BestCandidate(cs[..|cs| - 1]);
      assert forall k :: 0 <= k < |cs| - 1 ==> cs[..|cs| - 1][k] == cs[k];
      if Outranks(cs[|cs| - 1], cs[j]) then |cs| - 1 else j
  }

  /**
   * A fully supported candidate is preferred to any other; among the fully
   * supported ones the best has the highest utility.
   */
  lemma FullySupportedPreferred(cs: seq<Candidate>)
    requires cs != []
    ensures (exists k :: 0 <= k < |cs| && FullySupported(cs[k])) ==> FullySupported(cs[BestCandidate(cs)])
    ensures forall k :: 0 <= k < |cs| && FullySupported(cs[k]) ==> cs[k].utility <= cs[BestCandidate(cs)].utility
  {
    var b := BestCandidate(cs);
    if exists k :: 0 <= k < |cs| && FullySupported(cs[k]) {
      var k :| 0 <= k < |cs| && FullySupported(cs[k]);
      assert !Outranks(cs[k], cs[b]);
    }
  }

  /** The link to the best candidate's context, unless its metadata has no 'url'. */
  function PrimaryLink(metadata: map<string, string>): (links: seq<ReferenceLink>)
    ensures |links| <= 1
    ensures links != [] <==> Get(metadata, "url", NoSourceUrl) != NoSourceUrl
    ensures links != [] ==> links[0] == ReferenceLink("Primary source", metadata["url"])
  {
    var url := Get(metadata, "url", NoSourceUrl);
    if url != NoSourceUrl then [ReferenceLink("Primary source", url)] else []
  }

  /** The knowledge-base route: one candidate per relevant context, and the best one is the answer. */
  function KnowledgeAnswer(services: Services, query: string, relevant: seq<Judged>, docs: seq<RelevantDocument>): Outcome
    requires relevant != []
  {
    var cs := Candidates(services, query, relevant);
    var best := cs[BestCandidate(cs)];
    Outcome(QueryResult(best.response, PrimaryLink(best.metadata), docs), CandidateCalls(services, query, relevant))
  }

  // ---------------------------------------------------------------------------
  // The whole run
  // ---------------------------------------------------------------------------

  /** The answer of the route the scores and the relevant contexts choose. */
  function RoutedAnswer(rag: Rag, services: Services, query: string, scores: seq<real>, relevant: seq<Judged>,
                        docs: seq<RelevantDocument>): Outcome
  {
    match RouteFrom(rag, scores, relevant)
    case WebRoute => WebAnswer(services, query, docs)
    case HybridRoute => HybridAnswer(services, query, relevant, docs)
    case KnowledgeRoute => KnowledgeAnswer(services, query, relevant, docs)
  }

  /** What `run` computes from the hits once the gate said yes. */
  function RetrievedAnswer(rag: Rag, services: Services, query: string, hits: seq<RawHit>): Outcome
  {
    var js := Judgements(services, query, hits);
    var routed := RoutedAnswer(rag, services, query, Scores(js), RelevantContexts(js), RelevantDocs(js, rag.lower));
    Outcome(routed.result, JudgeCalls(query, hits) + routed.calls)
  }

  /** What `run` computes. */
  function Answer(rag: Rag, services: Services, query: string): Outcome
  {
    if !RetrievalAgent.ShouldRetrieve(services, query) then
      var input := GenerationInput(query, NoRetrievalContext, None);
      Outcome(QueryResult(services.generate(input), [], []), [RetrievalDecision(query), Generation(input)])
    else
      var r := RetrievedAnswer(rag, services, query, rag.index.search(query, rag.topK));
      Outcome(r.result, [RetrievalDecision(query), IndexSearch(query, rag.topK)] + r.calls)
  }

  /** The candidate loop never searches the web or the index. */
  lemma CandidateCallsSearchNothing(services: Services, query: string, relevant: seq<Judged>)
    ensures !SearchesWeb(CandidateCalls(services, query, relevant))
    ensures !SearchesIndex(CandidateCalls(services, query, relevant))
  {
  }

  /** The judging loop never searches the web or the index. */
  lemma JudgeCallsSearchNothing(query: string, hits: seq<RawHit>)
    ensures !SearchesWeb(JudgeCalls(query, hits))
    ensures !SearchesIndex(JudgeCalls(query, hits))
  {
  }

  /** A trace made of some non-search calls, one web search and some more non-search calls. */
  lemma SearchTrace(query: string, rewritten: string, raw: string, before: seq<Call>, input: GenerationInput)
    requires forall c :: c in before ==> c.KeyPointExtraction?
    ensures SearchesWeb(before + [QueryRewrite(query), WebSearch(rewritten), KeyPointExtraction(raw)] + [Generation(input)])
    ensures !SearchesIndex(before + [QueryRewrite(query), WebSearch(rewritten), KeyPointExtraction(raw)] + [Generation(input)])
  {
    var calls := before + [QueryRewrite(query), WebSearch(rewritten), KeyPointExtraction(raw)] + [Generation(input)];
    assert calls[|before| + 1] == WebSearch(rewritten);
  }

  /** The web route keeps the summaries and searches the web but not the index. */
  lemma WebAnswerSearches(services: Services, query: string, docs: seq<RelevantDocument>)
    ensures WebAnswer(services, query, docs).result.relevantDocs == docs
    ensures SearchesWeb(WebAnswer(services, query, docs).calls)
    ensures !SearchesIndex(WebAnswer(services, query, docs).calls)
  {
    WebTrace(services, query, GenerationInput(query, WebContext(PerformWebSearch(services, query)), None));
  }

  /** A web search followed by one generation searches the web but not the index. */
  lemma WebTrace(services: Services, query: string, input: GenerationInput)
    ensures SearchesWeb(WebSearchAgent.SearchCalls(services, query) + [Generation(input)])
    ensures !SearchesIndex(WebSearchAgent.SearchCalls(services, query) + [Generation(input)])
  {
    var search := WebSearchAgent.SearchCalls(services, query);
    assert search == [] + search;
    SearchTrace(query, WebSearchAgent.RewriteQuery(services, query), WebSearchAgent.RawResults(services, query), [], input);
  }

  /** The blended route keeps the summaries and searches the web but not the index. */
  lemma HybridAnswerSearches(services: Services, query: string, relevant: seq<Judged>, docs: seq<RelevantDocument>)
    requires relevant != []
    ensures HybridAnswer(services, query, relevant, docs).result.relevantDocs == docs
    ensures SearchesWeb(HybridAnswer(services, query, relevant, docs).calls)
    ensures !SearchesIndex(HybridAnswer(services, query, relevant, docs).calls)
  {
    var best := BestContext(relevant);
    var retrieved := Join("\n", WebSearchAgent.ExtractKnowledge(services, best.content));
    var w := PerformWebSearch(services, query);
    var input := GenerationInput(query, HybridContext(retrieved, w, Get(best.metadata, "url", NoUrl)), None);
    SearchTrace(query, WebSearchAgent.RewriteQuery(services, query), WebSearchAgent.RawResults(services, query),
                [KeyPointExtraction(best.content)], input);
    assert HybridAnswer(services, query, relevant, docs).calls ==
           [KeyPointExtraction(best.content)] + WebSearchAgent.SearchCalls(services, query) + [Generation(input)];
  }

  /** The knowledge-base route keeps the summaries and searches neither the web nor the index. */
  lemma KnowledgeAnswerSearches(services: Services, query: string, relevant: seq<Judged>, docs: seq<RelevantDocument>)
    requires relevant != []
    ensures KnowledgeAnswer(services, query, relevant, docs).result.relevantDocs == docs
    ensures !SearchesWeb(KnowledgeAnswer(services, query, relevant, docs).calls)
    ensures !SearchesIndex(KnowledgeAnswer(services, query, relevant, docs).calls)
  {
    CandidateCallsSearchNothing(services, query, relevant);
  }

  /**
   * Every route keeps the summaries it was given, and the web is searched on
   * exactly the web and the blended routes; no route searches the index.
   */
  lemma RoutedSearches(rag: Rag, services: Services, query: string, scores: seq<real>, relevant: seq<Judged>,
                       docs: seq<RelevantDocument>)
    ensures RoutedAnswer(rag, services, query, scores, relevant, docs).result.relevantDocs == docs
    ensures SearchesWeb(RoutedAnswer(rag, services, query, scores, relevant, docs).calls) <==>
            RouteFrom(rag, scores, relevant) != KnowledgeRoute
    ensures !SearchesIndex(RoutedAnswer(rag, services, query, scores, relevant, docs).calls)
  {
    var routed := RoutedAnswer(rag, services, query, scores, relevant, docs);
    match RouteFrom(rag, scores, relevant)
    case WebRoute =>
      assert routed == WebAnswer(services, query, docs);
      WebAnswerSearches(services, query, docs);
    case HybridRoute =>
      assert routed == HybridAnswer(services, query, relevant, docs);
      HybridAnswerSearches(services, query, relevant, docs);
    case KnowledgeRoute =>
      assert routed == KnowledgeAnswer(services, query, relevant, docs);
      KnowledgeAnswerSearches(services, query, relevant, docs);
  }

  /**
   * After a yes from the gate, the summaries in the result are those of the
   * hits scoring at least `lower`, and the web is searched exactly when the
   * judgements do not choose the knowledge-base route.
   */
  lemma RetrievedSearches(rag: Rag, services: Services, query: string, hits: seq<RawHit>)
    ensures RetrievedAnswer(rag, services, query, hits).result.relevantDocs ==
            RelevantDocs(Judgements(services, query, hits), rag.lower)
    ensures SearchesWeb(RetrievedAnswer(rag, services, query, hits).calls) <==>
            RouteOf(rag, Judgements(services, query, hits)) != KnowledgeRoute
    ensures !SearchesIndex(RetrievedAnswer(rag, services, query, hits).calls)
  {
    var js := Judgements(services, query, hits);
    var routed := RoutedAnswer(rag, services, query, Scores(js), RelevantContexts(js), RelevantDocs(js, rag.lower));
    RoutedSearches(rag, services, query, Scores(js), RelevantContexts(js), RelevantDocs(js, rag.lower));
    JudgeCallsSearchNothing(query, hits);
    SearchesWebAppend(JudgeCalls(query, hits), routed.calls);
    SearchesIndexAppend(JudgeCalls(query, hits), routed.calls);
  }

  /** A trace that starts with the gate and an index search searches the index, and the web when the rest does. */
  lemma GatedTrace(query: string, k: nat, rest: seq<Call>)
    ensures SearchesIndex([RetrievalDecision(query), IndexSearch(query, k)] + rest)
    ensures SearchesWeb([RetrievalDecision(query), IndexSearch(query, k)] + rest) <==> SearchesWeb(rest)
  {
    var head := [RetrievalDecision(query), IndexSearch(query, k)];
    SearchesWebAppend(head, rest);
    assert head[1] in head + rest;
    assert !SearchesWeb(head);
  }

  /**
   * The gate decides everything else: without retrieval there are no links and
   * no summaries and nothing is searched; with it the index is searched, and
   * the web exactly when the judgements of the hits do not choose the
   * knowledge-base route.
   */
  lemma SearchesByGate(rag: Rag, services: Services, query: string)
    ensures !RetrievalAgent.ShouldRetrieve(services, query) ==>
              Answer(rag, services, query).result.referenceLinks == [] &&
              Answer(rag, services, query).result.relevantDocs == []
    ensures SearchesIndex(Answer(rag, services, query).calls) <==> RetrievalAgent.ShouldRetrieve(services, query)
    ensures SearchesWeb(Answer(rag, services, query).calls) <==>
              RetrievalAgent.ShouldRetrieve(services, query) &&
              RouteOf(rag, Judgements(services, query, rag.index.search(query, rag.topK))) != KnowledgeRoute
  {
    var calls := Answer(rag, services, query).calls;
    if RetrievalAgent.ShouldRetrieve(services, query) {
      var hits := rag.index.search(query, rag.topK);
      var rest := RetrievedAnswer(rag, services, query, hits).calls;
      assert calls == [RetrievalDecision(query), IndexSearch(query, rag.topK)] + rest;
      RetrievedSearches(rag, services, query, hits);
      GatedTrace(query, rag.topK, rest);
    } else {
      assert calls == [RetrievalDecision(query), Generation(GenerationInput(query, NoRetrievalContext, None))];
    }
  }

  method RunWeb(services: Services, query: string, docs: seq<RelevantDocument>)
    returns (result: QueryResult, calls: seq<Call>)
    ensures Outcome(result, calls) == WebAnswer(services, query, docs)
  {
    var w := PerformWebSearch(services, query);
    var links := CollectWebLinks(w.sources);
    var input := GenerationInput(query, WebContext(w), None);
    result := QueryResult(services.generate(input), links, docs);
    calls := WebSearchAgent.SearchCalls(services, query) + [Generation(input)];
  }

  method RunHybrid(services: Services, query: string, relevant: seq<Judged>, docs: seq<RelevantDocument>)
    returns (result: QueryResult, calls: seq<Call>)
    requires relevant != []
    ensures Outcome(result, calls) == HybridAnswer(services, query, relevant, docs)
  {
    var best := BestContext(relevant);
    var retrieved := Join("\n", WebSearchAgent.ExtractKnowledge(services, best.content));
    var docUrl := Get(best.metadata, "url", NoUrl);
    var links := DocumentLink(docUrl);
    var w := PerformWebSearch(services, query);
    var webLinks := CollectWebLinks(w.sources);
    var input := GenerationInput(query, HybridContext(retrieved, w, docUrl), None);
    result := QueryResult(services.generate(input), links + webLinks, docs);
    calls := [KeyPointExtraction(best.content)] + WebSearchAgent.SearchCalls(services, query) + [Generation(input)];
  }

  method RunKnowledge(services: Services, query: string, relevant: seq<Judged>, docs: seq<RelevantDocument>)
    returns (result: QueryResult, calls: seq<Call>)
    requires relevant != []
    ensures Outcome(result, calls) == KnowledgeAnswer(services, query, relevant, docs)
  {
    var responses;
    responses, calls := GenerateCandidates(services, query, relevant);
    var best := responses[BestCandidate(responses)];
    result := QueryResult(best.response, PrimaryLink(best.metadata), docs);
  }

  /** The three branches after judging: the web, the blend, or the contexts' own answers. */
  method RunRouted(rag: Rag, services: Services, query: string, scores: seq<real>, relevantContexts: seq<Judged>,
                   relevantDocs: seq<RelevantDocument>) returns (result: QueryResult, calls: seq<Call>)
    ensures Outcome(result, calls) == RoutedAnswer(rag, services, query, scores, relevantContexts, relevantDocs)
  {
    var maxScore := if scores == [] then 0.0 else MaxScore(scores);
    ghost var routed := RoutedAnswer(rag, services, query, scores, relevantContexts, relevantDocs);
    if relevantContexts == [] || maxScore < rag.lower {
      assert RouteFrom(rag, scores, relevantContexts) == WebRoute;
      assert routed == WebAnswer(services, query, relevantDocs);
      result, calls := RunWeb(services, query, relevantDocs);
    } else if rag.lower <= maxScore < rag.upper {
      assert RouteFrom(rag, scores, relevantContexts) == HybridRoute;
      assert routed == HybridAnswer(services, query, relevantContexts, relevantDocs);
      result, calls := RunHybrid(services, query, relevantContexts, relevantDocs);
    } else {
      assert RouteFrom(rag, scores, relevantContexts) == KnowledgeRoute;
      assert routed == KnowledgeAnswer(services, query, relevantContexts, relevantDocs);
      result, calls := RunKnowledge(services, query, relevantContexts, relevantDocs);
    }
  }

  /** The part of `run` after a yes from the gate: judge every hit, then take the chosen route. */
  method RunRetrieved(rag: Rag, services: Services, query: string, hits: seq<RawHit>)
    returns (result: QueryResult, calls: seq<Call>)
    ensures Outcome(result, calls) == RetrievedAnswer(rag, services, query, hits)
  {
    var scores, relevantDocs, relevantContexts, judgeCalls := JudgeContexts(services, query, hits, rag.lower);
    var rest;
    result, rest := RunRouted(rag, services, query, scores, relevantContexts, relevantDocs);
    calls := judgeCalls + rest;
  }

  /** `CombinedRAG.run`. */
  method Run(rag: Rag, services: Services, query: string) returns (result: QueryResult, calls: seq<Call>)
    ensures Outcome(result, calls) == Answer(rag, services, query)
  {
    if !RetrievalAgent.ShouldRetrieve(services, query) {
      var input := GenerationInput(query, NoRetrievalContext, None);
      result := QueryResult(services.generate(input), [], []);
      calls := [RetrievalDecision(query), Generation(input)];
      return;
    }
    var hits := rag.index.search(query, rag.topK);
    var rest;
    result, rest := RunRetrieved(rag, services, query, hits);
    calls := [RetrievalDecision(query), IndexSearch(query, rag.topK)] + rest;
  }
}
