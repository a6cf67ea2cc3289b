/**
 * The retrieval agent: asks the language model whether a query needs the
 * knowledge base, and if so fetches the top hits from the vector index and
 * turns them into `Document` records.
 */
module RetrievalAgent {
  import opened Wrappers
  import opened Text
  import opened Models
  import opened Oracles

  /** How many hits are asked of the index per query. */
  const TopK: nat := 3

  /** A constructed agent: the loaded index and the number of hits per search. */
  datatype Agent = Agent(index: VectorIndex, topK: nat)

  /**
   * Construction loads the index once; an unreadable index is reported here, as
   * a `ValueError` carrying the loader's reason, and never later per query.
   */
  function New(load: IndexLoad): (r: Result<Agent, string>)
    ensures r.Failure? <==> load.IndexUnreadable?
    ensures load.IndexUnreadable? ==> r.error == "Failed to load FAISS index: " + load.reason
    ensures load.IndexLoaded? ==> r.value.index == load.index && r.value.topK == 3
  {
    match load
    case IndexLoaded(index) => Success(Agent(index, TopK))
    case IndexUnreadable(reason) => Failure("Failed to load FAISS index: " + reason)
  }

  /** `should_retrieve`: the reply, stripped and lower-cased, is exactly "yes". */
  function ShouldRetrieve(services: Services, query: string): (b: bool)
    ensures b <==> EqualsIgnoringCase(Strip(services.decideRetrieval(query)), "yes")
  {
    assert IsLowerWord("yes");
    MatchesWord(services.decideRetrieval(query), "yes")
  }

  /** Surrounding whitespace in the reply never changes the decision. */
  lemma ShouldRetrieveIgnoresPadding(services: Services, query: string, p: string, q: string)
    requires AllSpace(p) && AllSpace(q)
    ensures ShouldRetrieve(services, query) ==
            (Normalise(p + services.decideRetrieval(query) + q) == "yes")
  {
    NormaliseIgnoresPadding(p, services.decideRetrieval(query), q);
  }

  /** The record made from one raw hit. */
  function ToDocument(hit: RawHit): Document
  {
    Document(hit.pageContent, hit.metadata)
  }

  /** The records made from raw hits, one per hit, in hit order. */
  function Documents(hits: seq<RawHit>): (docs: seq<Document>)
    ensures |docs| == |hits|
    ensures forall i :: 0 <= i < |hits| ==>
      docs[i].content == hits[i].pageContent && docs[i].metadata == hits[i].metadata
  {
    if hits == [] then [] else Documents(hits[..|hits| - 1]) + [ToDocument(hits[|hits| - 1])]
  }

  /** `retrieve_documents`: one index search, then one record per hit. */
  method RetrieveDocuments(agent: Agent, query: string) returns (docs: seq<Document>, calls: seq<Call>)
    ensures docs == Documents(agent.index.search(query, agent.topK))
    ensures calls == [IndexSearch(query, agent.topK)]
  {
    var hits := agent.index.search(query, agent.topK);
    calls := [IndexSearch(query, agent.topK)];
    docs := [];
    var i := 0;
    while i < |hits|
      invariant 0 <= i <= |hits|
      invariant docs == Documents(hits[..i])
    {
      docs := docs + [ToDocument(hits[i])];
      assert hits[..i + 1][..i] == hits[..i];
      i := i + 1;
    }
    assert hits[..|hits|] == hits;
  }

  /**
   * `run`: when the model says no, nothing is retrieved and the index is not
   * searched; otherwise the retrieved records are returned.
   */
  method Run(agent: Agent, services: Services, query: string)
    returns (performed: bool, docs: seq<Document>, calls: seq<Call>)
    ensures performed == ShouldRetrieve(services, query)
    ensures !performed ==> docs == [] && calls == [RetrievalDecision(query)]
    ensures performed ==> docs == Documents(agent.index.search(query, agent.topK))
    ensures performed ==> calls == [RetrievalDecision(query), IndexSearch(query, agent.topK)]
  {
    performed := ShouldRetrieve(services, query);
    if !performed {
      return false, [], [RetrievalDecision(query)];
    }
    var searchCalls;
    docs, searchCalls := RetrieveDocuments(agent, query);
    calls := [RetrievalDecision(query)] + searchCalls;
  }
}
