/** The AI service of backend/ai_service.py without its models: sentiment
    label normalisation, the truncating summary, the health report, and the
    search index bookkeeping of the service object. The outputs of the
    Hugging Face pipelines and of the TF-IDF similarity computation are
    parameters. */
module AiService {
  import opened Common
  import opened Text
  import Database

  // ---------------------------------------------------------------------------
  // Sentiment
  // ---------------------------------------------------------------------------

  const Labels: seq<string> := ["positive", "negative", "neutral"]

  predicate PositiveWord(raw: string) {
    Contains(raw, "positive") || Contains(raw, "joy") || Contains(raw, "love")
  }

  predicate NegativeWord(raw: string) {
    Contains(raw, "negative") || Contains(raw, "sad") || Contains(raw, "anger")
  }

  /** Map a (lower-cased) model label onto the three labels the service
      reports; positive words take precedence over negative ones. */
  function NormalizeLabel(raw: string): (r: string)
    ensures r in Labels
    ensures r == "positive" <==> PositiveWord(raw)
    ensures r == "negative" <==> !PositiveWord(raw) && NegativeWord(raw)
    ensures r == "neutral" <==> !PositiveWord(raw) && !NegativeWord(raw)
  {
    if PositiveWord(raw) then "positive"
    else if NegativeWord(raw) then "negative"
    else "neutral"
  }

  lemma PositiveFixed()
    ensures NormalizeLabel("positive") == "positive"
  {
    ContainsSlice("positive", 0, 8);
    assert "positive"[0..8] == "positive";
  }

  lemma NegativeFixed()
    ensures NormalizeLabel("negative") == "negative"
  {
    NegativeNotPositive();
    ContainsSlice("negative", 0, 8);
    assert "negative"[0..8] == "negative";
  }

  lemma NegativeNotPositive()
    ensures !PositiveWord("negative")
  {
    MissingCharNotContained("negative", "positive", 0);
    MissingCharNotContained("negative", "joy", 0);
    MissingCharNotContained("negative", "love", 0);
  }

  lemma NeutralFixed()
    ensures NormalizeLabel("neutral") == "neutral"
  {
    NeutralNotPositive();
    NeutralNotNegative();
  }

  lemma NeutralNotPositive()
    ensures !PositiveWord("neutral")
  {
    MissingCharNotContained("neutral", "positive", 0);
    MissingCharNotContained("neutral", "joy", 0);
    MissingCharNotContained("neutral", "love", 1);
  }

  lemma NeutralNotNegative()
    ensures !NegativeWord("neutral")
  {
    MissingCharNotContained("neutral", "negative", 2);
    MissingCharNotContained("neutral", "sad", 0);
    MissingCharNotContained("neutral", "anger", 2);
  }

  /** The three reported labels are fixed points of the normalisation, so
      normalising twice is normalising once. */
  lemma NormalizeLabelIdempotent(raw: string)
    ensures NormalizeLabel(NormalizeLabel(raw)) == NormalizeLabel(raw)
  {
    PositiveFixed();
    NegativeFixed();
    NeutralFixed();
  }

  /** One prediction of the sentiment pipeline. */
  datatype Prediction = Prediction(name: string, score: real)

  /** What the sentiment pipeline gave for a text. */
  datatype PipelineOutput =
    | NotLoaded                      // no pipeline was loaded
    | Raised                         // the pipeline call raised
    | NoResult                       // not a list, or an empty list
    | AllScores(scores: seq<Prediction>)  // a list whose first element is a list
    | Single(prediction: Prediction)      // a list whose first element is a prediction

  datatype SentimentResult = SentimentResult(sentiment: string, score: real, confidence: string)

  /** The answer when there is no pipeline or it fails. */
  const NeutralFallback: SentimentResult := SentimentResult("neutral", 0.5, "low")

  /** Index of the first prediction with the highest score (Python's `max`). */
  function BestPrediction(ps: seq<Prediction>): (b: nat)
    requires ps != []
    ensures b < |ps|
    ensures forall j :: 0 <= j < |ps| ==> ps[j].score <= ps[b].score
    ensures forall j :: 0 <= j < b ==> ps[j].score < ps[b].score
  {
    if |ps| == 1 then 0
    else
      var b := BestPrediction(ps[..|ps| - 1]);
      if ps[|ps| - 1].score > ps[b].score then |ps| - 1 else b
  }

  /** Confidence level of a score. */
  function ConfidenceLevel(score: real): (level: string)
    ensures level in ["high", "medium", "low"]
    ensures level == "high" <==> score > 0.8
    ensures level == "low" <==> score <= 0.6
  {
    if score > 0.8 then "high" else if score > 0.6 then "medium" else "low"
  }

  /** `analyze_sentiment`: the label and score of the best prediction, the
      label normalised. An empty score list makes `max` raise, which the
      handler catches like any other failure. */
  function AnalyzeSentiment(output: PipelineOutput): (r: SentimentResult)
    ensures r.sentiment in Labels
    ensures output.NotLoaded? || output.Raised? ==> r == NeutralFallback
    ensures output.AllScores? && output.scores == [] ==> r == NeutralFallback
    ensures output.NoResult? ==> r == SentimentResult("neutral", 0.5, "low")
    ensures output.AllScores? && output.scores != [] ==>
      var b := BestPrediction(output.scores);
      r.sentiment == NormalizeLabel(Lower(output.scores[b].name)) && r.score == output.scores[b].score
    ensures output.Single? ==>
      r.sentiment == NormalizeLabel(Lower(output.prediction.name)) && r.score == output.prediction.score
    ensures r.confidence == ConfidenceLevel(r.score)
  {
    match output
    case NotLoaded => NeutralFallback
    case Raised => NeutralFallback
    case NoResult => NeutralFixed(); Finish("neutral", 0.5)
    case AllScores(scores) =>
      if scores == [] then NeutralFallback
      else
        var best := scores[BestPrediction(scores)];
        Finish(Lower(best.name), best.score)
    case Single(p) => Finish(Lower(p.name), p.score)
  }

  function Finish(raw: string, confidence: real): (r: SentimentResult)
    ensures r.sentiment == NormalizeLabel(raw) && r.score == confidence
    ensures r.confidence == ConfidenceLevel(confidence)
  {
    SentimentResult(NormalizeLabel(raw), confidence, ConfidenceLevel(confidence))
  }

  // ---------------------------------------------------------------------------
  // Summary
  // ---------------------------------------------------------------------------

  const SummaryLimit: nat := 100

  /** `_summarize_fallback`: short texts are their own summary, longer ones
      are cut to their first 100 characters followed by "...". */
  function SummarizeFallback(text: string): (r: string)
    ensures |r| <= SummaryLimit + 3
    ensures |text| <= SummaryLimit ==> r == text
    ensures |text| > SummaryLimit ==> |r| == SummaryLimit + 3 && r[..SummaryLimit] <= text && r[SummaryLimit..] == "..."
  {
    if |text| <= SummaryLimit then text else text[..SummaryLimit] + "..."
  }

  /** Summarising a summary of a long text does not shorten it again: its
      length is 103, so it is cut to its first 100 characters, which are the
      original's. */
  lemma SummarizeTwice(text: string)
    requires |text| > SummaryLimit
    ensures SummarizeFallback(SummarizeFallback(text)) == SummarizeFallback(text)[..SummaryLimit] + "..."
    ensures SummarizeFallback(SummarizeFallback(text))[..SummaryLimit] == text[..SummaryLimit]
  {
    var s := SummarizeFallback(text);
    assert s[..SummaryLimit] == text[..SummaryLimit];
  }

  // ---------------------------------------------------------------------------
  // Health
  // ---------------------------------------------------------------------------

  /** Which of the four pipelines are loaded. */
  datatype ModelsLoaded = ModelsLoaded(sentiment: bool, summarization: bool, textGeneration: bool, topicClassification: bool)

  predicate AnyLoaded(m: ModelsLoaded) {
    m.sentiment || m.summarization || m.textGeneration || m.topicClassification
  }

  datatype AiHealth = AiHealth(status: string, modelsLoaded: ModelsLoaded, message: Option<string>)

  /** The AI service's health: degraded, with a message, exactly when no
      pipeline is loaded. */
  function HealthCheck(m: ModelsLoaded): (h: AiHealth)
    ensures h.modelsLoaded == m
    ensures h.status in ["healthy", "degraded"]
    ensures h.status == "degraded" <==> !AnyLoaded(m)
    ensures h.message.Some? <==> !AnyLoaded(m)
    ensures h.message.Some? ==> h.message.value == "No AI models loaded"
  {
    if AnyLoaded(m) then AiHealth("healthy", m, None)
    else AiHealth("degraded", m, Some("No AI models loaded"))
  }

  // ---------------------------------------------------------------------------
  // Search ranking
  // ---------------------------------------------------------------------------

  /** `order` is what `argsort` returns for `sims`: every index once, in
      ascending order of similarity. Ties may come in any order. */
  predicate IsArgsort(order: seq<nat>, sims: seq<real>) {
    && |order| == |sims|
    && (forall i :: 0 <= i < |order| ==> order[i] < |sims|)
    && (forall i, j :: 0 <= i < j < |order| ==> order[i] != order[j])
    && (forall i, j :: 0 <= i < j < |order| ==> sims[order[i]] <= sims[order[j]])
  }

  /** Where the Python slice `a[-k:]` starts in a list of length `n`. */
  function SliceStart(n: nat, k: int): (start: nat)
    ensures start <= n
  {
    var s := -k;
    if s < 0 then (if n + s < 0 then 0 else n + s)
    else if s > n then n else s
  }

  function Reverse<T>(s: seq<T>): (r: seq<T>)
    ensures |r| == |s|
    ensures forall i :: 0 <= i < |s| ==> r[i] == s[|s| - 1 - i]
  {
    if s == [] then [] else [s[|s| - 1]] + Reverse(s[..|s| - 1])
  }

  /** `argsort()[-k:][::-1]`: the indices of the k highest similarities,
      highest first. For k = 0 the slice `[-0:]` is the whole list. */
  function TopIndices(order: seq<nat>, k: int): (top: seq<nat>)
    ensures k > 0 ==> |top| == if k < |order| then k else |order|
    ensures k == 0 ==> |top| == |order|
    ensures |top| <= |order|
    ensures forall i :: 0 <= i < |top| ==> top[i] == order[|order| - 1 - i]
  {
    Reverse(order[SliceStart(|order|, k)..])
  }

  /** The top indices come highest similarity first. */
  lemma TopIndicesDescending(order: seq<nat>, sims: seq<real>, k: int)
    requires IsArgsort(order, sims)
    ensures var top := TopIndices(order, k);
      forall i, j :: 0 <= i < j < |top| ==> top[i] < |sims| && top[j] < |sims| && sims[top[i]] >= sims[top[j]]
  {
  }

  /** One search result. */
  datatype SearchHit = SearchHit(id: Option<int>, similarity: real, text: string)

  /** The results for the ranked indices: indices past the id list are
      skipped, the others give their id, similarity and text. */
  function Hits(top: seq<nat>, ids: seq<Option<int>>, texts: seq<string>, sims: seq<real>): (hits: seq<SearchHit>)
    requires |texts| == |ids|
    requires forall i :: 0 <= i < |top| ==> top[i] < |sims|
    ensures |hits| <= |top|
  {
    if top == [] then []
    else
      var idx := top[|top| - 1];
      Hits(top[..|top| - 1], ids, texts, sims) + (if idx < |ids| then [HitAt(idx, ids, texts, sims)] else [])
  }

  /** Collecting hits over a concatenated ranking collects over each part. */
  lemma {:induction false} HitsAppend(a: seq<nat>, b: seq<nat>, ids: seq<Option<int>>, texts: seq<string>, sims: seq<real>)
    requires |texts| == |ids|
    requires forall i :: 0 <= i < |a| ==> a[i] < |sims|
    requires forall i :: 0 <= i < |b| ==> b[i] < |sims|
    ensures forall i :: 0 <= i < |a + b| ==> (a + b)[i] < |sims|
    ensures Hits(a + b, ids, texts, sims) == Hits(a, ids, texts, sims) + Hits(b, ids, texts, sims)
  {
    assert forall i :: 0 <= i < |a + b| ==> (a + b)[i] < |sims| by {
      forall i | 0 <= i < |a + b| ensures (a + b)[i] < |sims| {
        if i >= |a| {
          assert (a + b)[i] == b[i - |a|];
        }
      }
    }
    if b != [] {
      var front := b[..|b| - 1];
      assert (a + b)[..|a + b| - 1] == a + front;
      assert (a + b)[|a + b| - 1] == b[|b| - 1];
      HitsAppend(a, front, ids, texts, sims);
    } else {
      assert a + b == a;
    }
  }

  /** When every ranked index lies inside the id list, each of them gives
      its hit, in ranking order. */
  lemma {:induction false} HitsAllInRange(top: seq<nat>, ids: seq<Option<int>>, texts: seq<string>, sims: seq<real>)
    requires |texts| == |ids|
    requires forall i :: 0 <= i < |top| ==> top[i] < |sims| && top[i] < |ids|
    ensures var hits := Hits(top, ids, texts, sims);
      |hits| == |top| && forall j :: 0 <= j < |top| ==> hits[j] == HitAt(top[j], ids, texts, sims)
  {
    if top != [] {
      var front := top[..|top| - 1];
      HitsAllInRange(front, ids, texts, sims);
      var hits := Hits(top, ids, texts, sims);
      assert hits == Hits(front, ids, texts, sims) + [HitAt(top[|top| - 1], ids, texts, sims)];
      forall j | 0 <= j < |top| ensures hits[j] == HitAt(top[j], ids, texts, sims) {
        if j < |top| - 1 {
          assert top[j] == front[j];
        }
      }
    }
  }

  /** Every result is the hit of some ranked index inside the id list. */
  predicate FromRanking(hits: seq<SearchHit>, top: seq<nat>, ids: seq<Option<int>>, texts: seq<string>, sims: seq<real>)
    requires |texts| == |ids|
    requires forall i :: 0 <= i < |top| ==> top[i] < |sims|
  {
    forall j :: 0 <= j < |hits| ==>
      exists i :: 0 <= i < |top| && top[i] < |ids| && hits[j] == HitAt(top[i], ids, texts, sims)
  }

  lemma {:induction false} HitsFromRanking(top: seq<nat>, ids: seq<Option<int>>, texts: seq<string>, sims: seq<real>)
    requires |texts| == |ids|
    requires forall i :: 0 <= i < |top| ==> top[i] < |sims|
    ensures FromRanking(Hits(top, ids, texts, sims), top, ids, texts, sims)
  {
    if top != [] {
      var p := top[..|top| - 1];
      HitsFromRanking(p, ids, texts, sims);
      var hp := Hits(p, ids, texts, sims);
      var hits := Hits(top, ids, texts, sims);
      forall j | 0 <= j < |hits|
        ensures exists i :: 0 <= i < |top| && top[i] < |ids| && hits[j] == HitAt(top[i], ids, texts, sims)
      {
        assert hits == hp + (if top[|top| - 1] < |ids| then [HitAt(top[|top| - 1], ids, texts, sims)] else []);
        if j < |hp| {
          assert hits[j] == hp[j];
          assert FromRanking(hp, p, ids, texts, sims);
          var i :| 0 <= i < |p| && p[i] < |ids| && hp[j] == HitAt(p[i], ids, texts, sims);
          assert top[i] == p[i];
        } else {
          assert hits[j] == HitAt(top[|top| - 1], ids, texts, sims);
        }
      }
    }
  }

  /** The result for one index of the id list. */
  function HitAt(idx: nat, ids: seq<Option<int>>, texts: seq<string>, sims: seq<real>): (h: SearchHit)
    requires idx < |ids| == |texts| && idx < |sims|
    ensures h.id == ids[idx] && h.similarity == sims[idx] && h.text == texts[idx]
  {
    SearchHit(ids[idx], sims[idx], texts[idx])
  }

  /** A lower bound on the similarity of every ranked index bounds every hit. */
  lemma {:induction false} HitsAtLeast(top: seq<nat>, ids: seq<Option<int>>, texts: seq<string>, sims: seq<real>, lo: real)
    requires |texts| == |ids|
    requires forall i :: 0 <= i < |top| ==> top[i] < |sims| && sims[top[i]] >= lo
    ensures forall j :: 0 <= j < |Hits(top, ids, texts, sims)| ==> Hits(top, ids, texts, sims)[j].similarity >= lo
  {
    if top != [] {
      HitsAtLeast(top[..|top| - 1], ids, texts, sims, lo);
    }
  }

  /** Results in non-increasing order of similarity. */
  predicate Descending(hits: seq<SearchHit>) {
    forall i, j :: 0 <= i < j < |hits| ==> hits[i].similarity >= hits[j].similarity
  }

  /** Hits of a ranking in non-increasing similarity keep that order. */
  lemma {:induction false} HitsDescending(top: seq<nat>, ids: seq<Option<int>>, texts: seq<string>, sims: seq<real>)
    requires |texts| == |ids|
    requires forall i :: 0 <= i < |top| ==> top[i] < |sims|
    requires forall i, j :: 0 <= i < j < |top| ==> sims[top[i]] >= sims[top[j]]
    ensures Descending(Hits(top, ids, texts, sims))
  {
    if top != [] {
      var p := top[..|top| - 1];
      var last := top[|top| - 1];
      HitsDescending(p, ids, texts, sims);
      assert forall i :: 0 <= i < |p| ==> p[i] == top[i];
      assert Descending(Hits(p, ids, texts, sims));
      HitsAtLeast(p, ids, texts, sims, sims[last]);
      var hp := Hits(p, ids, texts, sims);
      assert Hits(top, ids, texts, sims) == hp + (if last < |ids| then [HitAt(last, ids, texts, sims)] else []);
      var hits := Hits(top, ids, texts, sims);
      forall i, j | 0 <= i < j < |hits| ensures hits[i].similarity >= hits[j].similarity {
        if j < |hp| {
          assert hits[i] == hp[i] && hits[j] == hp[j];
          assert hp[i].similarity >= hp[j].similarity;
        } else {
          assert hits[i] == hp[i] && hits[j].similarity == sims[last];
          assert hp[i].similarity >= sims[last];
        }
      }
    }
  }

  /** With a true argsort, the results come in non-increasing similarity,
      and for k >= 1 there are at most k of them. */
  lemma SearchResultsRanked(order: seq<nat>, sims: seq<real>, k: int, ids: seq<Option<int>>, texts: seq<string>)
    requires IsArgsort(order, sims) && |texts| == |ids|
    ensures var top := TopIndices(order, k);
      var hits := Hits(top, ids, texts, sims);
      && (k >= 1 ==> |hits| <= k)
      && Descending(hits)
  {
    var top := TopIndices(order, k);
    TopIndicesDescending(order, sims, k);
    HitsDescending(top, ids, texts, sims);
  }

  // ---------------------------------------------------------------------------
  // The service object
  // ---------------------------------------------------------------------------

  /** The TF-IDF vectorizer field: never set, set but not fitted (the fit
      raised after the assignment), or fitted. */
  datatype Vectorizer = NoVectorizer | Unfitted | Fitted

  /** A document handed to the index: the dict may lack its id or text. */
  datatype IndexDoc = IndexDoc(id: Option<int>, text: Option<string>)

  /** The four timing lists of the performance metrics. */
  const MetricKeys: set<string> :=
    {"sentiment_analysis_time", "summarization_time", "reply_generation_time", "search_time"}

  function TextsOf(docs: seq<IndexDoc>): (texts: seq<string>)
    ensures |texts| == |docs|
    ensures forall i :: 0 <= i < |docs| ==> texts[i] == docs[i].text.GetOr("")
  {
    seq(|docs|, i requires 0 <= i < |docs| => docs[i].text.GetOr(""))
  }

  function IdsOf(docs: seq<IndexDoc>): (ids: seq<Option<int>>)
    ensures |ids| == |docs|
    ensures forall i :: 0 <= i < |docs| ==> ids[i] == docs[i].id
  {
    seq(|docs|, i requires 0 <= i < |docs| => docs[i].id)
  }

  /** The documents the index is rebuilt from: one per row of a table scan. */
  function DocsOf(scan: seq<Database.ReviewRow>): (docs: seq<IndexDoc>)
    ensures |docs| == |scan|
    ensures forall i :: 0 <= i < |scan| ==> docs[i] == IndexDoc(Some(scan[i].id), Some(scan[i].text))
  {
    seq(|scan|, i requires 0 <= i < |scan| => IndexDoc(Some(scan[i].id), Some(scan[i].text)))
  }

  /** The result loop of the search: one hit per ranked index that lies
      inside the id list, in ranking order. */
  method CollectHits(topIndices: seq<nat>, ids: seq<Option<int>>, texts: seq<string>, sims: seq<real>)
    returns (results: seq<SearchHit>)
    requires |texts| == |ids|
    requires forall i :: 0 <= i < |topIndices| ==> topIndices[i] < |sims|
    ensures results == Hits(topIndices, ids, texts, sims)
  {
    results := [];
    for i := 0 to |topIndices|
      invariant results == Hits(topIndices[..i], ids, texts, sims)
    {
      var idx := topIndices[i];
      assert topIndices[..i + 1][..i] == topIndices[..i];
      if idx < |ids| {
        results := results + [HitAt(idx, ids, texts, sims)];
      }
    }
    assert topIndices[..|topIndices|] == topIndices;
  }

  class AIService {
    var reviewTexts: seq<string>
    var reviewIds: seq<Option<int>>
    var vectorizer: Vectorizer
    /** Number of rows of the TF-IDF matrix, when there is one. */
    var matrixRows: Option<nat>
    var performanceMetrics: map<string, seq<real>>
    var modelCache: map<string, string>

    ghost predicate Valid()
      reads this
    {
      && |reviewTexts| == |reviewIds|
      && performanceMetrics.Keys == MetricKeys
      && (vectorizer.Fitted? ==> matrixRows.Some?)
    }

    /** The object before its search index is initialised. */
    constructor ()
      ensures Valid()
      ensures reviewTexts == [] && reviewIds == [] && vectorizer == NoVectorizer && matrixRows == None
      ensures modelCache == map[]
      ensures forall key :: key in performanceMetrics ==> performanceMetrics[key] == []
    {
      reviewTexts := [];
      reviewIds := [];
      vectorizer := NoVectorizer;
      matrixRows := None;
      performanceMetrics := map key | key in MetricKeys :: [];
      modelCache := map[];
    }

    /** Replace the indexed texts and ids, then fit a new vectorizer when
        there is any text. `fitFails` says whether fitting raised (for
        instance when every word is a stop word); the error is caught after
        the new, unfitted vectorizer has been stored. */
    method UpdateTfidfMatrix(docs: seq<IndexDoc>, fitFails: bool)
      requires Valid()
      modifies this
      ensures Valid()
      ensures reviewTexts == TextsOf(docs) && reviewIds == IdsOf(docs)
      ensures docs == [] ==> vectorizer == old(vectorizer) && matrixRows == old(matrixRows)
      ensures docs != [] && fitFails ==> vectorizer == Unfitted && matrixRows == old(matrixRows)
      ensures docs != [] && !fitFails ==> vectorizer == Fitted && matrixRows == Some(|docs|)
      ensures performanceMetrics == old(performanceMetrics) && modelCache == old(modelCache)
    {
      var texts := TextsOf(docs);
      reviewTexts := texts;
      reviewIds := IdsOf(docs);
      if texts != [] {
        vectorizer := Unfitted;
        if !fitFails {
          vectorizer := Fitted;
          matrixRows := Some(|texts|);
        }
      }
    }

    /** Rebuild the index from a scan of the reviews table. `queryFails`
        says whether the query raised; the error is logged and ignored. An
        empty table leaves the index as it was. */
    method RefreshSearchIndex(scan: seq<Database.ReviewRow>, queryFails: bool, fitFails: bool)
      requires Valid()
      modifies this
      ensures Valid()
      ensures queryFails || scan == [] ==>
        reviewTexts == old(reviewTexts) && reviewIds == old(reviewIds)
        && vectorizer == old(vectorizer) && matrixRows == old(matrixRows)
      ensures !queryFails && scan != [] ==>
        reviewIds == IdsOf(DocsOf(scan)) && reviewTexts == TextsOf(DocsOf(scan))
        && vectorizer == (if fitFails then Unfitted else Fitted)
        && (!fitFails ==> matrixRows == Some(|scan|))
      ensures performanceMetrics == old(performanceMetrics) && modelCache == old(modelCache)
    {
      if queryFails || scan == [] {
        return;
      }
      UpdateTfidfMatrix(DocsOf(scan), fitFails);
    }

    /** Search the index. `sims` are the cosine similarities of the query to
        the matrix rows and `order` their argsort, both computed outside this
        model; `elapsed` is the measured time. Without an index the result is
        empty; an unfitted vectorizer raises on the query, which gives empty
        results as well. */
    method SearchSimilarReviews(k: int, sims: seq<real>, order: seq<nat>, elapsed: real)
      returns (results: seq<SearchHit>)
      requires Valid()
      requires matrixRows.Some? ==> |sims| == matrixRows.value && IsArgsort(order, sims)
      modifies this
      ensures Valid()
      ensures reviewTexts == old(reviewTexts) && reviewIds == old(reviewIds)
      ensures vectorizer == old(vectorizer) && matrixRows == old(matrixRows) && modelCache == old(modelCache)
      ensures vectorizer != Fitted || matrixRows.None? ==> results == [] && performanceMetrics == old(performanceMetrics)
      ensures vectorizer == Fitted && matrixRows.Some? ==>
        results == Hits(TopIndices(order, k), reviewIds, reviewTexts, sims)
        && performanceMetrics == old(performanceMetrics)["search_time" := old(performanceMetrics)["search_time"] + [elapsed]]
    {
      if vectorizer == NoVectorizer || matrixRows.None? {
        return [];
      }
      if vectorizer == Unfitted {
        return [];
      }
      var topIndices := TopIndices(order, k);
      results := CollectHits(topIndices, reviewIds, reviewTexts, sims);
      performanceMetrics := performanceMetrics["search_time" := performanceMetrics["search_time"] + [elapsed]];
    }

    /** Clear every timing list (keeping the keys), the model cache and the
        search index. */
    method CleanupCache()
      requires Valid()
      modifies this
      ensures Valid()
      ensures performanceMetrics.Keys == old(performanceMetrics).Keys
      ensures forall key :: key in performanceMetrics ==> performanceMetrics[key] == []
      ensures modelCache == map[]
      ensures vectorizer == NoVectorizer && matrixRows == None
      ensures reviewTexts == [] && reviewIds == []
    {
      performanceMetrics := map key | key in performanceMetrics :: [];
      modelCache := map[];
      vectorizer := NoVectorizer;
      matrixRows := None;
      reviewTexts := [];
      reviewIds := [];
    }
  }
}
