/**
 * The generation agent: assembles the context (knowledge-base documents ranked
 * by score, web knowledge, both, or none), asks the model for an answer, and
 * reports the sources that answer rests on.
 */
module GenerationAgent {
  import opened Wrappers
  import opened Text
  import opened Sorting
  import opened Models
  import opened Oracles

  /** A document paired with its relevance score. */
  datatype Scored = Scored(doc: Document, score: real)

  function ScoreOf(p: Scored): real
  {
    p.score
  }

  /** `zip(documents, scores)`: pairs up to the shorter of the two lists. */
  function Zip(docs: seq<Document>, scores: seq<real>): (pairs: seq<Scored>)
    ensures |pairs| == if |docs| < |scores| then |docs| else |scores|
    ensures forall i :: 0 <= i < |pairs| ==> pairs[i] == Scored(docs[i], scores[i])
  {
    if docs == [] || scores == [] then []
    else [Scored(docs[0], scores[0])] + Zip(docs[1..], scores[1..])
  }

  /** The pairs ranked by score, highest first, ties in document order. */
  function Ranked(docs: seq<Document>, scores: seq<real>): seq<Scored>
  {
    SortDesc(Zip(docs, scores), ScoreOf)
  }

  /** The context part of one ranked document. */
  function KbPart(formatScore: real -> string, p: Scored): string
  {
    "Document (relevance: " + formatScore(p.score) + "):\n" + p.doc.content
  }

  /** The source one ranked document contributes: a link only when it has a non-empty 'source_url'. */
  function KbSource(formatScore: real -> string, p: Scored): seq<ReferenceLink>
  {
    var url := Get(p.doc.metadata, "source_url", "");
    if url != "" then [ReferenceLink("Document (score: " + formatScore(p.score) + ")", url)] else []
  }

  /** One context part per pair, in pair order. */
  function KbParts(formatScore: real -> string, pairs: seq<Scored>): (parts: seq<string>)
    ensures |parts| == |pairs|
    ensures forall i :: 0 <= i < |pairs| ==> parts[i] == KbPart(formatScore, pairs[i])
  {
    if pairs == [] then []
    else KbParts(formatScore, pairs[..|pairs| - 1]) + [KbPart(formatScore, pairs[|pairs| - 1])]
  }

  /** The links of the pairs that have a source URL, in pair order. */
  function KbSources(formatScore: real -> string, pairs: seq<Scored>): (sources: seq<ReferenceLink>)
    ensures |sources| <= |pairs|
    ensures forall i :: 0 <= i < |sources| ==> sources[i].url != ""
  {
    if pairs == [] then []
    else KbSources(formatScore, pairs[..|pairs| - 1]) + KbSource(formatScore, pairs[|pairs| - 1])
  }

  /** The sources of consecutive runs of pairs are concatenated in order. */
  lemma {:induction false} KbSourcesAppend(formatScore: real -> string, a: seq<Scored>, b: seq<Scored>)
    ensures KbSources(formatScore, a + b) == KbSources(formatScore, a) + KbSources(formatScore, b)
  {
    if b != [] {
      KbSourcesAppend(formatScore, a, b[..|b| - 1]);
      assert (a + b)[..|a + b| - 1] == a + b[..|b| - 1];
    } else {
      assert a + b == a;
    }
  }

  /** A single pair gives exactly one link when its 'source_url' is non-empty, and none otherwise. */
  lemma KbSourcesOfOne(formatScore: real -> string, p: Scored)
    ensures |KbSources(formatScore, [p])| == if "source_url" in p.doc.metadata && p.doc.metadata["source_url"] != "" then 1 else 0
    ensures KbSources(formatScore, [p]) != [] ==> KbSources(formatScore, [p])[0].url == p.doc.metadata["source_url"]
  {
    assert [p][..0] == [];
  }

  /** Taking one more pair adds its part and its source at the end. */
  lemma KbStep(formatScore: real -> string, pairs: seq<Scored>, i: nat)
    requires i < |pairs|
    ensures KbParts(formatScore, pairs[..i + 1]) == KbParts(formatScore, pairs[..i]) + [KbPart(formatScore, pairs[i])]
    ensures KbSources(formatScore, pairs[..i + 1]) == KbSources(formatScore, pairs[..i]) + KbSource(formatScore, pairs[i])
  {
    assert pairs[..i + 1][..i] == pairs[..i];
  }

  /** The knowledge-base context and its sources. */
  datatype KbContext = KbContext(context: string, sources: seq<ReferenceLink>)

  /** What `_prepare_kb_context` computes, from the ranked pairs. */
  function KbContextOf(formatScore: real -> string, docs: seq<Document>, scores: seq<real>): KbContext
  {
    var pairs := Ranked(docs, scores);
    KbContext(Join("\n\n", KbParts(formatScore, pairs)), KbSources(formatScore, pairs))
  }

  /**
   * `_prepare_kb_context`: ranks the pairs, then builds one context part per
   * pair and one link per pair with a source URL, both in ranked order.
   */
  method PrepareKbContext(services: Services, documents: seq<Document>, scores: seq<real>)
    returns (kb: KbContext)
    ensures kb == KbContextOf(services.formatScore, documents, scores)
  {
    var sortedPairs := SortDesc(Zip(documents, scores), ScoreOf);
    var contentParts: seq<string> := [];
    var sources: seq<ReferenceLink> := [];
    var i := 0;
    while i < |sortedPairs|
      invariant 0 <= i <= |sortedPairs|
      invariant contentParts == KbParts(services.formatScore, sortedPairs[..i])
      invariant sources == KbSources(services.formatScore, sortedPairs[..i])
    {
      var p := sortedPairs[i];
      KbStep(services.formatScore, sortedPairs, i);
      contentParts := contentParts + ["Document (relevance: " + services.formatScore(p.score) + "):\n" + p.doc.content];
      var url := Get(p.doc.metadata, "source_url", "");
      if url != "" {
        sources := sources + [ReferenceLink("Document (score: " + services.formatScore(p.score) + ")", url)];
      }
      i := i + 1;
    }
    assert sortedPairs[..|sortedPairs|] == sortedPairs;
    kb := KbContext(Join("\n\n", contentParts), sources);
  }

  /** History goes into the generation input only when it was given and is non-empty. */
  function IncludedHistory(history: Option<seq<ChatTurn>>): (h: Option<seq<ChatTurn>>)
    ensures h.Some? <==> history.Some? && history.value != []
    ensures h.Some? ==> h == history
  {
    if history.Some? && history.value != [] then history else None
  }

  /** A generated answer, the sources it cites, and the input the model was given. */
  datatype Generated = Generated(response: string, sources: seq<ReferenceLink>, input: GenerationInput)

  /** Asks the model once with the given input. */
  function Ask(services: Services, input: GenerationInput, sources: seq<ReferenceLink>): Generated
  {
    Generated(services.generate(input), sources, input)
  }

  /** What `generate_from_kb` returns: the answer over the ranked documents and their links. */
  function KbAnswer(services: Services, query: string, docs: seq<Document>, scores: seq<real>,
                    history: Option<seq<ChatTurn>>): (g: Generated)
    ensures g.sources == KbSources(services.formatScore, Ranked(docs, scores))
    ensures |g.sources| <= |Zip(docs, scores)|
    ensures forall i :: 0 <= i < |g.sources| ==> g.sources[i].url != ""
    ensures g.input.history == IncludedHistory(history)
  {
    var kb := KbContextOf(services.formatScore, docs, scores);
    Ask(services, GenerationInput(query, kb.context, IncludedHistory(history)), kb.sources)
  }

  /** `generate_from_kb`. */
  method GenerateFromKb(services: Services, query: string, documents: seq<Document>, scores: seq<real>,
                        history: Option<seq<ChatTurn>>) returns (g: Generated)
    ensures g == KbAnswer(services, query, documents, scores, history)
  {
    var contextData := PrepareKbContext(services, documents, scores);
    var input := GenerationInput(query, contextData.context, IncludedHistory(history));
    var response := services.generate(input);
    g := Generated(response, contextData.sources, input);
  }

  /** `"\n".join(f"{source.title}: {source.url}" for source in sources)`. */
  function SourcesText(sources: seq<ReferenceLink>): string
  {
    Join("\n", seq(|sources|, i requires 0 <= i < |sources| => sources[i].title + ": " + sources[i].url))
  }

  /** `generate_from_web`: the answer over the web knowledge; its sources are the web sources unchanged. */
  function GenerateFromWeb(services: Services, query: string, web: WebSearchResult,
                           history: Option<seq<ChatTurn>>): (g: Generated)
    ensures g.sources == web.sources
    ensures "Web search results:\n" + web.knowledge <= g.input.context
    ensures g.input.query == query && g.input.history == IncludedHistory(history)
  {
    var context := "Web search results:\n" + web.knowledge + "\n\nSources:\n" + SourcesText(web.sources);
    assert context == ("Web search results:\n" + web.knowledge) + ("\n\nSources:\n" + SourcesText(web.sources));
    Ask(services, GenerationInput(query, context, IncludedHistory(history)), web.sources)
  }

  /** The context of a hybrid answer. */
  function HybridContext(kbContext: string, webKnowledge: string): string
  {
    "Knowledge Base Information:\n" + kbContext + "\n\nWeb Search Information:\n" + webKnowledge
  }

  /** What `generate_hybrid` returns: knowledge-base sources first, then the web sources. */
  function HybridAnswer(services: Services, query: string, docs: seq<Document>, scores: seq<real>,
                        web: WebSearchResult, history: Option<seq<ChatTurn>>): (g: Generated)
    ensures g.sources == KbAnswer(services, query, docs, scores, history).sources + web.sources
    ensures g.input.history == IncludedHistory(history)
  {
    var kb := KbContextOf(services.formatScore, docs, scores);
    Ask(services, GenerationInput(query, HybridContext(kb.context, web.knowledge), IncludedHistory(history)),
        kb.sources + web.sources)
  }

  /** `generate_hybrid`. */
  method GenerateHybrid(services: Services, query: string, documents: seq<Document>, scores: seq<real>,
                        web: WebSearchResult, history: Option<seq<ChatTurn>>) returns (g: Generated)
    ensures g == HybridAnswer(services, query, documents, scores, web, history)
  {
    var kbContext := PrepareKbContext(services, documents, scores);
    var combinedContext := HybridContext(kbContext.context, web.knowledge);
    var input := GenerationInput(query, combinedContext, IncludedHistory(history));
    var response := services.generate(input);
    g := Generated(response, kbContext.sources + web.sources, input);
  }

  /** The context used when there is none. */
  const NoContext: string := "No specific context available."

  /** `generate_without_context`: no sources at all. */
  function GenerateWithoutContext(services: Services, query: string, history: Option<seq<ChatTurn>>): (g: Generated)
    ensures g.sources == []
    ensures g.input.context == NoContext && g.input.history == IncludedHistory(history)
  {
    Ask(services, GenerationInput(query, NoContext, IncludedHistory(history)), [])
  }

  /** The value passed in the strategy position: a strategy name, or something that is not a string. */
  datatype StrategyArg = Named(name: string) | NotAString

  /** The strategies that read the documents and scores, and those that read the web result. */
  predicate ReadsDocuments(strategy: StrategyArg)
  {
    strategy == Named("kb_only") || strategy == Named("hybrid")
  }

  predicate ReadsWeb(strategy: StrategyArg)
  {
    strategy == Named("web_only") || strategy == Named("hybrid")
  }

  /** What `run` returns: dispatch on the strategy name; anything else generates without context. */
  function Answer(services: Services, query: string, strategy: StrategyArg,
                  documents: Option<seq<Document>>, scores: Option<seq<real>>,
                  web: Option<WebSearchResult>, history: Option<seq<ChatTurn>>): (g: Generated)
    requires ReadsDocuments(strategy) ==> documents.Some? && scores.Some?
    requires ReadsWeb(strategy) ==> web.Some?
    ensures strategy == Named("kb_only") ==> g == KbAnswer(services, query, documents.value, scores.value, history)
    ensures strategy == Named("web_only") ==> g == GenerateFromWeb(services, query, web.value, history)
    ensures strategy == Named("hybrid") ==> g == HybridAnswer(services, query, documents.value, scores.value, web.value, history)
    ensures !ReadsDocuments(strategy) && !ReadsWeb(strategy) ==> g.sources == [] && g.input.context == NoContext
  {
    if strategy == Named("kb_only") then KbAnswer(services, query, documents.value, scores.value, history)
    else if strategy == Named("web_only") then GenerateFromWeb(services, query, web.value, history)
    else if strategy == Named("hybrid") then HybridAnswer(services, query, documents.value, scores.value, web.value, history)
    else GenerateWithoutContext(services, query, history)
  }

  /** `run`: the generator the strategy names. */
  method Run(services: Services, query: string, strategy: StrategyArg,
             documents: Option<seq<Document>>, scores: Option<seq<real>>,
             web: Option<WebSearchResult>, history: Option<seq<ChatTurn>>) returns (g: Generated)
    requires ReadsDocuments(strategy) ==> documents.Some? && scores.Some?
    requires ReadsWeb(strategy) ==> web.Some?
    ensures g == Answer(services, query, strategy, documents, scores, web, history)
  {
    if strategy == Named("kb_only") {
      g := GenerateFromKb(services, query, documents.value, scores.value, history);
    } else if strategy == Named("web_only") {
      g := GenerateFromWeb(services, query, web.value, history);
    } else if strategy == Named("hybrid") {
      g := GenerateHybrid(services, query, documents.value, scores.value, web.value, history);
    } else {
      g := GenerateWithoutContext(services, query, history);
    }
  }
}
