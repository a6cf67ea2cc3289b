/**
 * The web search agent: rewrites the query for a search engine, searches,
 * distils the raw results into key points, and lists the result links.
 */
module WebSearchAgent {
  import opened Text
  import opened Models
  import opened Oracles

  /** `rewrite_query`: the model's rewritten query with surrounding whitespace removed. */
  function RewriteQuery(services: Services, query: string): (r: string)
    ensures r == [] || (!IsSpace(r[0]) && !IsSpace(r[|r| - 1]))
    ensures Strip(r) == r
    ensures r == [] <==> AllSpace(services.rewriteQuery(query))
    ensures exists p, q :: AllSpace(p) && AllSpace(q) && services.rewriteQuery(query) == p + r + q
  {
    StripIdempotent(services.rewriteQuery(query));
    StripPadding(services.rewriteQuery(query));
    Strip(services.rewriteQuery(query))
  }

  /**
   * `extract_knowledge`: the non-blank lines of the model's bullet-point reply,
   * each stripped, in line order.
   */
  function ExtractKnowledge(services: Services, document: string): (points: seq<string>)
    ensures forall i :: 0 <= i < |points| ==> IsKeyPoint(points[i])
    ensures |points| <= |Split(services.extractKeyPoints(document), '\n')|
    ensures AllSpace(services.extractKeyPoints(document)) ==> points == []
  {
    var reply := services.extractKeyPoints(document);
    KeyPointsWellFormed(reply);
    KeyPointsOfBlank(reply);
    StrippedNonBlankLines(reply)
  }

  /** The link one search result contributes: none without a link, otherwise its title (or "Untitled") and link. */
  function SourceOf(entry: map<string, string>): seq<ReferenceLink>
  {
    var link := Get(entry, "link", "");
    if link != "" then [ReferenceLink(Get(entry, "title", "Untitled"), link)] else []
  }

  /** The links of a list of search results, in result order. */
  function Sources(entries: seq<map<string, string>>): (sources: seq<ReferenceLink>)
    ensures |sources| <= |entries|
    ensures forall i :: 0 <= i < |sources| ==> sources[i].url != ""
  {
    if entries == [] then []
    else Sources(entries[..|entries| - 1]) + SourceOf(entries[|entries| - 1])
  }

  /** The links of consecutive runs of results are concatenated in order. */
  lemma {:induction false} SourcesAppend(a: seq<map<string, string>>, b: seq<map<string, string>>)
    ensures Sources(a + b) == Sources(a) + Sources(b)
  {
    if b != [] {
      SourcesAppend(a, b[..|b| - 1]);
      assert (a + b)[..|a + b| - 1] == a + b[..|b| - 1];
    } else {
      assert a + b == a;
    }
  }

  /** A single result gives a link exactly when it has a non-empty "link"; its title defaults to "Untitled". */
  lemma SourcesOfOne(entry: map<string, string>)
    ensures Sources([entry]) == [] <==> ("link" !in entry || entry["link"] == "")
    ensures Sources([entry]) != [] ==>
      Sources([entry]) == [ReferenceLink(if "title" in entry then entry["title"] else "Untitled", entry["link"])]
  {
    assert [entry][..0] == [];
  }

  /** The links of the parsed search output; an unparseable output gives none. */
  function SourcesOf(parsed: JsonResult): seq<ReferenceLink>
  {
    match parsed
    case Parsed(entries) => Sources(entries)
    case DecodeError => []
  }

  /** `extract_sources`: one link per result that has one, in result order; none when the output is not JSON. */
  method ExtractSources(services: Services, webResults: string) returns (sources: seq<ReferenceLink>)
    ensures services.parseJson(webResults).DecodeError? ==> sources == []
    ensures services.parseJson(webResults).Parsed? ==> sources == Sources(services.parseJson(webResults).entries)
  {
    var parsed := services.parseJson(webResults);
    if parsed.DecodeError? {
      return [];
    }
    var results := parsed.entries;
    sources := [];
    var i := 0;
    while i < |results|
      invariant 0 <= i <= |results|
      invariant sources == Sources(results[..i])
    {
      var title := Get(results[i], "title", "Untitled");
      var link := Get(results[i], "link", "");
      if link != "" {
        sources := sources + [ReferenceLink(title, link)];
      }
      assert results[..i + 1][..i] == results[..i];
      i := i + 1;
    }
    assert results[..|results|] == results;
  }

  /** The raw output of the search for the rewritten query. */
  function RawResults(services: Services, query: string): string
  {
    services.searchWeb(RewriteQuery(services, query))
  }

  /**
   * What `run` produces: the key points joined by line breaks as knowledge,
   * and the links, both taken from the same raw search output.
   */
  function Search(services: Services, query: string): (r: WebSearchResult)
    ensures StrippedNonBlankLines(r.knowledge) == ExtractKnowledge(services, RawResults(services, query))
    ensures r.sources == SourcesOf(services.parseJson(RawResults(services, query)))
    ensures forall i :: 0 <= i < |r.sources| ==> r.sources[i].url != ""
  {
    var raw := RawResults(services, query);
    var points := ExtractKnowledge(services, raw);
    KeyPointsJoinRoundTrip(services.extractKeyPoints(raw));
    WebSearchResult(Join("\n", points), SourcesOf(services.parseJson(raw)))
  }

  /** The calls a web search makes: rewrite, search, key-point extraction. */
  function SearchCalls(services: Services, query: string): seq<Call>
  {
    [QueryRewrite(query), WebSearch(RewriteQuery(services, query)), KeyPointExtraction(RawResults(services, query))]
  }

  /** `run`: rewrite, search once, and build the result from that one raw output. */
  method Run(services: Services, query: string) returns (result: WebSearchResult, calls: seq<Call>)
    ensures result == Search(services, query)
    ensures calls == SearchCalls(services, query)
  {
    var rewritten := RewriteQuery(services, query);
    var webResults := services.searchWeb(rewritten);
    var keyPoints := ExtractKnowledge(services, webResults);
    var webKnowledge := Join("\n", keyPoints);
    var sources := ExtractSources(services, webResults);
    result := WebSearchResult(webKnowledge, sources);
    calls := [QueryRewrite(query), WebSearch(rewritten), KeyPointExtraction(webResults)];
  }
}
