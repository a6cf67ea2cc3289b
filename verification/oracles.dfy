/**
 * The foreign services the pipeline consults: the language model behind every
 * prompt, the vector index, the web search tool, the image analyser, the JSON
 * parser and the score formatter. Their answers are not computed here; they are
 * functions supplied by the caller, so every property below holds whatever the
 * services reply. Each run also reports the sequence of service calls it made.
 */
module Oracles {
  import opened Wrappers
  import opened Models

  /** One turn of conversation history as handed to the generator. */
  datatype ChatTurn = ChatTurn(role: string, content: string)

  /** The input of the generation prompt; `history` is present only when it was passed and non-empty. */
  datatype GenerationInput = GenerationInput(query: string, context: string, history: Option<seq<ChatTurn>>)

  /** A hit of the vector index: page content and metadata. */
  datatype RawHit = RawHit(pageContent: string, metadata: map<string, string>)

  /** A loaded vector index: similarity search for a query and a number of hits. */
  datatype VectorIndex = VectorIndex(search: (string, nat) -> seq<RawHit>)

  /** Loading the index from disk either succeeds or fails with a reason. */
  datatype IndexLoad = IndexLoaded(index: VectorIndex) | IndexUnreadable(reason: string)

  /** `json.loads` on the search output: a list of string dictionaries, or a decode error. */
  datatype JsonResult = Parsed(entries: seq<map<string, string>>) | DecodeError

  /** The replies of the services, as functions of what they are asked. */
  datatype Services = Services(
    analyseImage: (string, seq<bv8>) -> string,   // image analysis: query and image bytes to a new query
    decideRetrieval: string -> string,            // "Yes"/"No" reply on whether to retrieve
    judgeRelevance: (string, string) -> string,   // "Relevant"/"Irrelevant" reply for query and context
    scoreRelevance: (string, string) -> real,     // relevance score for query and document
    judgeSupport: (string, string) -> string,     // support reply for response and context
    rateUtility: (string, string) -> int,         // utility rating for query and response
    rewriteQuery: string -> string,               // query rewritten for a web search
    searchWeb: string -> string,                  // raw web search output
    extractKeyPoints: string -> string,           // bullet-point key information of a text
    parseJson: string -> JsonResult,              // `json.loads`
    generate: GenerationInput -> string,          // the generated answer
    formatScore: real -> string)                  // `f"{score:.2f}"`

  /** A call made to one of the services, with what it was asked. */
  datatype Call =
    | ImageAnalysis(query: string)
    | RetrievalDecision(query: string)
    | IndexSearch(query: string, k: nat)
    | RelevanceJudgement(query: string, context: string)
    | RelevanceScoring(query: string, context: string)
    | QueryRewrite(query: string)
    | WebSearch(query: string)
    | KeyPointExtraction(text: string)
    | Generation(input: GenerationInput)
    | SupportJudgement(response: string, context: string)
    | UtilityRating(query: string, response: string)

  /** A query's result and the service calls made to produce it. */
  datatype Outcome = Outcome(result: QueryResult, calls: seq<Call>)

  /** Some call in the trace is a web search. */
  predicate SearchesWeb(calls: seq<Call>)
  {
    exists c :: c in calls && c.WebSearch?
  }

  /** Some call in the trace is an index search. */
  predicate SearchesIndex(calls: seq<Call>)
  {
    exists c :: c in calls && c.IndexSearch?
  }

  /** A concatenated trace searches the web exactly when one of its parts does. */
  lemma SearchesWebAppend(a: seq<Call>, b: seq<Call>)
    ensures SearchesWeb(a + b) <==> SearchesWeb(a) || SearchesWeb(b)
  {
    if SearchesWeb(a + b) {
      var c :| c in a + b && c.WebSearch?;
    }
    if SearchesWeb(a) {
      var c :| c in a && c.WebSearch?;
      assert c in a + b;
    }
    if SearchesWeb(b) {
      var c :| c in b && c.WebSearch?;
      assert c in a + b;
    }
  }

  /** A concatenated trace searches the index exactly when one of its parts does. */
  lemma SearchesIndexAppend(a: seq<Call>, b: seq<Call>)
    ensures SearchesIndex(a + b) <==> SearchesIndex(a) || SearchesIndex(b)
  {
    if SearchesIndex(a + b) {
      var c :| c in a + b && c.IndexSearch?;
    }
    if SearchesIndex(a) {
      var c :| c in a && c.IndexSearch?;
      assert c in a + b;
    }
    if SearchesIndex(b) {
      var c :| c in b && c.IndexSearch?;
      assert c in a + b;
    }
  }
}
