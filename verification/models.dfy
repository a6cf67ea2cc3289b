/**
 * The records the agents exchange: documents, relevance scores, reference links,
 * relevant-document summaries, the final query result and the web-search result.
 */
module Models {
  import opened Text

  /** A retrieved document: its text and its metadata dictionary. */
  datatype Document = Document(content: string, metadata: map<string, string>)

  /** The length `Document.preview` cuts at when no length is given. */
  const DefaultPreviewLength: int := 200

  /** The outcome of judging one document: a numeric score and a binary verdict. */
  datatype RelevanceScore = RelevanceScore(score: real, isRelevant: bool)

  /** A link to a source, shown to the user. */
  datatype ReferenceLink = ReferenceLink(title: string, url: string)

  /** A document kept in the final result: a preview, its score and its URL. */
  datatype RelevantDocument = RelevantDocument(contentPreview: string, score: real, url: string)

  /** The key relevant documents are sorted by. */
  function DocScore(d: RelevantDocument): real
  {
    d.score
  }

  /** The final answer to a query, with its links and the documents that scored well. */
  datatype QueryResult = QueryResult(
    finalResponse: string,
    referenceLinks: seq<ReferenceLink>,
    relevantDocs: seq<RelevantDocument>)

  /** What a web search contributes: refined knowledge text and the links it came from. */
  datatype WebSearchResult = WebSearchResult(knowledge: string, sources: seq<ReferenceLink>)

  /**
   * `Document.preview`: the content itself when it is at most `maxLength` long,
   * otherwise its first `maxLength` characters followed by "...".
   */
  function Preview(doc: Document, maxLength: int := DefaultPreviewLength): (r: string)
    ensures |doc.content| <= maxLength ==> r == doc.content
    ensures 0 <= maxLength < |doc.content| ==> r == doc.content[..maxLength] + "..." && |r| == maxLength + 3
    ensures 0 <= maxLength ==> |r| <= maxLength + 3
    ensures forall i :: 0 <= i < |r| && i < |doc.content| && i < maxLength ==> r[i] == doc.content[i]
  {
    if |doc.content| > maxLength then Prefix(doc.content, maxLength) + "..." else doc.content
  }

  /** A `QueryResult` built with only its response: both lists take their empty defaults. */
  function QueryResultOf(finalResponse: string): (r: QueryResult)
    ensures r.finalResponse == finalResponse
    ensures r.referenceLinks == [] && r.relevantDocs == []
  {
    QueryResult(finalResponse, [], [])
  }

  /** A `WebSearchResult` built with only its knowledge: no sources by default. */
  function WebSearchResultOf(knowledge: string): (r: WebSearchResult)
    ensures r.knowledge == knowledge && r.sources == []
  {
    WebSearchResult(knowledge, [])
  }
}
