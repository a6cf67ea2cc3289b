/**
 * The evaluation agent: judges every retrieved document twice (a binary
 * relevant/irrelevant verdict and a numeric score), normalises support
 * verdicts, and picks a retrieval strategy from the best score.
 */
module EvaluationAgent {
  import opened Text
  import opened Sorting
  import opened Models
  import opened Oracles

  const DefaultLower: real := 0.3
  const DefaultUpper: real := 0.7

  /** The agent's two score thresholds. */
  datatype Agent = Agent(lower: real, upper: real)

  /** Where the answer's context comes from. */
  datatype Strategy = KbOnly | WebOnly | Hybrid

  /** The strategy names the agents exchange. */
  function StrategyName(s: Strategy): (name: string)
    ensures name in {"kb_only", "web_only", "hybrid"}
  {
    match s
    case KbOnly => "kb_only"
    case WebOnly => "web_only"
    case Hybrid => "hybrid"
  }

  /** Distinct strategies have distinct names, and none is called "none". */
  lemma StrategyNamesDistinct(s: Strategy, t: Strategy)
    ensures StrategyName(s) == StrategyName(t) <==> s == t
    ensures StrategyName(s) != "none"
  {
    assert "kb_only"[0] != "web_only"[0] && "kb_only"[0] != "hybrid"[0] && "web_only"[0] != "hybrid"[0];
  }

  lemma VerdictWordsAreLower()
    ensures IsLowerWord("relevant") && IsLowerWord("fully supported")
  {
  }

  /** A binary verdict counts as relevant when, stripped and lower-cased, it is "relevant". */
  function IsRelevantReply(reply: string): (b: bool)
    ensures b <==> EqualsIgnoringCase(Strip(reply), "relevant")
  {
    VerdictWordsAreLower();
    MatchesWord(reply, "relevant")
  }

  /** "Irrelevant" is not a relevant verdict. */
  lemma IrrelevantIsNotRelevant()
    ensures !IsRelevantReply("Irrelevant")
  {
    KeyPointIsStripped("Irrelevant");
    assert |Strip("Irrelevant")| == 10;
  }

  /** The two judgements of one document: the score and the binary verdict, each from its own model call. */
  function Judge(services: Services, query: string, doc: Document): RelevanceScore
  {
    RelevanceScore(
      services.scoreRelevance(query, doc.content),
      IsRelevantReply(services.judgeRelevance(query, doc.content)))
  }

  /** The judgements of a list of documents, one per document, in document order. */
  function Evaluations(services: Services, query: string, docs: seq<Document>): (rs: seq<RelevanceScore>)
    ensures |rs| == |docs|
  {
    if docs == [] then []
    else Evaluations(services, query, docs[..|docs| - 1]) + [Judge(services, query, docs[|docs| - 1])]
  }

  /** The judgement at each position is the one of the document at the same position. */
  lemma {:induction false} EvaluationsPointwise(services: Services, query: string, docs: seq<Document>, i: nat)
    requires i < |docs|
    ensures Evaluations(services, query, docs)[i] == Judge(services, query, docs[i])
  {
    if i < |docs| - 1 {
      EvaluationsPointwise(services, query, docs[..|docs| - 1], i);
    }
  }

  /** The calls judging the documents make: the binary verdict, then the score, for each document. */
  function EvaluationCalls(query: string, docs: seq<Document>): (calls: seq<Call>)
    ensures |calls| == 2 * |docs|
    ensures forall c :: c in calls ==> c.RelevanceJudgement? || c.RelevanceScoring?
    ensures forall i :: 0 <= i < |docs| ==>
      calls[2 * i] == RelevanceJudgement(query, docs[i].content) &&
      calls[2 * i + 1] == RelevanceScoring(query, docs[i].content)
  {
    if docs == [] then []
    else
      var last := docs[|docs| - 1];
      EvaluationCalls(query, docs[..|docs| - 1]) +
      [RelevanceJudgement(query, last.content), RelevanceScoring(query, last.content)]
  }

  /** One more document extends the judgements and the calls by its own. */
  lemma EvaluationStep(services: Services, query: string, docs: seq<Document>, i: nat)
    requires i < |docs|
    ensures Evaluations(services, query, docs[..i + 1]) ==
            Evaluations(services, query, docs[..i]) + [Judge(services, query, docs[i])]
    ensures EvaluationCalls(query, docs[..i + 1]) ==
            EvaluationCalls(query, docs[..i]) +
            [RelevanceJudgement(query, docs[i].content), RelevanceScoring(query, docs[i].content)]
  {
    assert docs[..i + 1][..i] == docs[..i];
  }

  /** `evaluate_relevance`: both judgements for every document, in document order. */
  method EvaluateRelevance(services: Services, query: string, documents: seq<Document>)
    returns (results: seq<RelevanceScore>, calls: seq<Call>)
    ensures results == Evaluations(services, query, documents)
    ensures calls == EvaluationCalls(query, documents)
  {
    results, calls := [], [];
    var i := 0;
    while i < |documents|
      invariant 0 <= i <= |documents|
      invariant results == Evaluations(services, query, documents[..i])
      invariant calls == EvaluationCalls(query, documents[..i])
    {
      var doc := documents[i];
      var binary := services.judgeRelevance(query, doc.content);
      var isRelevant := IsRelevantReply(binary);
      var numericalScore := services.scoreRelevance(query, doc.content);
      results := results + [RelevanceScore(numericalScore, isRelevant)];
      calls := calls + [RelevanceJudgement(query, doc.content), RelevanceScoring(query, doc.content)];
      EvaluationStep(services, query, documents, i);
      i := i + 1;
    }
    assert documents[..|documents|] == documents;
  }

  /**
   * `evaluate_support`: the support verdict stripped and lower-cased; it reads
   * "fully supported" exactly when the reply says so in any letter case.
   */
  function EvaluateSupport(services: Services, response: string, context: string): (r: string)
    ensures IsNormalised(r)
    ensures |r| == |Strip(services.judgeSupport(response, context))|
    ensures r == "fully supported" <==>
            EqualsIgnoringCase(Strip(services.judgeSupport(response, context)), "fully supported")
    ensures EqualsIgnoringCase(Strip(services.judgeSupport(response, context)), r)
  {
    var reply := services.judgeSupport(response, context);
    NormaliseIsNormalised(reply);
    NormaliseFoldsCase(reply);
    VerdictWordsAreLower();
    NormaliseMatchesWord(reply, "fully supported");
    Normalise(reply)
  }

  /** `[score.score for score in scores]`. */
  function ScoreValues(scores: seq<RelevanceScore>): (xs: seq<real>)
    ensures |xs| == |scores|
    ensures forall i :: 0 <= i < |scores| ==> xs[i] == scores[i].score
  {
    seq(|scores|, i requires 0 <= i < |scores| => scores[i].score)
  }

  /** Some score reaches the threshold `t`. */
  predicate Reaches(scores: seq<RelevanceScore>, t: real)
  {
    exists i :: 0 <= i < |scores| && scores[i].score >= t
  }

  /**
   * `determine_retrieval_strategy`: web only when no score reaches the lower
   * threshold (in particular for no scores), knowledge base only when some score
   * reaches both thresholds, hybrid when some score reaches the lower threshold
   * but none the upper one.
   */
  function DetermineStrategy(agent: Agent, scores: seq<RelevanceScore>): (s: Strategy)
    ensures s == WebOnly <==> !Reaches(scores, agent.lower)
    ensures s == KbOnly <==> Reaches(scores, agent.lower) && Reaches(scores, agent.upper)
    ensures s == Hybrid <==> Reaches(scores, agent.lower) && !Reaches(scores, agent.upper)
  {
    if scores == [] then WebOnly
    else
      var values := ScoreValues(scores);
      var best := MaxScore(values);
      assert exists i :: 0 <= i < |scores| && scores[i].score == best;
      if best < agent.lower then WebOnly
      else if best >= agent.upper then KbOnly
      else Hybrid
  }

  lemma ReachesPermutation(a: seq<RelevanceScore>, b: seq<RelevanceScore>, t: real)
    requires multiset(a) == multiset(b)
    ensures Reaches(a, t) <==> Reaches(b, t)
  {
    if Reaches(a, t) {
      var i :| 0 <= i < |a| && a[i].score >= t;
      assert a[i] in multiset(b);
      var j :| 0 <= j < |b| && b[j] == a[i];
    }
    if Reaches(b, t) {
      var j :| 0 <= j < |b| && b[j].score >= t;
      assert b[j] in multiset(a);
      var i :| 0 <= i < |a| && a[i] == b[j];
    }
  }

  /** The strategy depends only on which scores occur, not on their order. */
  lemma DetermineStrategyPermutation(agent: Agent, a: seq<RelevanceScore>, b: seq<RelevanceScore>)
    requires multiset(a) == multiset(b)
    ensures DetermineStrategy(agent, a) == DetermineStrategy(agent, b)
  {
    ReachesPermutation(a, b, agent.lower);
    ReachesPermutation(a, b, agent.upper);
  }

  /**
   * `run`: the judgements of every document, and the strategy computed from
   * exactly those judgements.
   */
  method Run(agent: Agent, services: Services, query: string, documents: seq<Document>)
    returns (scores: seq<RelevanceScore>, strategy: Strategy, calls: seq<Call>)
    ensures scores == Evaluations(services, query, documents)
    ensures strategy == DetermineStrategy(agent, scores)
    ensures calls == EvaluationCalls(query, documents)
  {
    scores, calls := EvaluateRelevance(services, query, documents);
    strategy := DetermineStrategy(agent, scores);
  }
}
