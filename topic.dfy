/** Keyword-based topic extraction (`_extract_topic_fallback` in
    backend/ai_service.py): every topic scores the number of its keywords found
    in the lower-cased text, and the best-scoring topic wins. */
module Topic {
  import opened Text

  /** The topics, in the order the keyword dict lists them. */
  const Topics: seq<string> := ["food", "service", "atmosphere", "price", "location", "cleanliness"]

  const PriceTopic: nat := 3

  /** The keyword list of each topic, at the topic's position. Duplicates are
      kept: "expensive" appears twice under price. */
  const Keywords: seq<seq<string>> := [
    ["food", "meal", "dish", "taste", "flavor", "delicious", "tasty", "cooking", "chef", "menu",
     "recipe", "eat", "dining", "restaurant", "cuisine", "ingredients", "cooked", "fresh", "quality"],
    ["service", "staff", "waiter", "waitress", "server", "friendly", "helpful", "attentive",
     "professional", "served", "serving", "assistance", "help", "care", "attention"],
    ["atmosphere", "ambiance", "decor", "music", "lighting", "cozy", "romantic", "loud", "quiet",
     "environment", "setting", "mood", "vibe", "place", "space"],
    ["price", "cost", "expensive", "cheap", "affordable", "value", "money", "bill", "payment",
     "worth", "budget", "expensive", "overpriced", "reasonable"],
    ["location", "parking", "convenient", "accessible", "address", "nearby", "distance", "place",
     "area", "neighborhood", "street"],
    ["clean", "dirty", "hygiene", "sanitary", "tidy", "messy", "spotless", "fresh", "maintenance",
     "condition"]
  ]

  /** The topic every text without a keyword falls back to. */
  const DefaultTopic: string := "service"

  /** Number of keyword positions whose keyword occurs in `lowered`; a keyword
      listed twice counts twice. */
  function KeywordScore(lowered: string, keywords: seq<string>): (score: nat)
    ensures score <= |keywords|
    ensures score == |keywords| <== forall k :: 0 <= k < |keywords| ==> Contains(lowered, keywords[k])
    ensures score == 0 <== forall k :: 0 <= k < |keywords| ==> !Contains(lowered, keywords[k])
  {
    if keywords == [] then 0
    else
      KeywordScore(lowered, keywords[..|keywords| - 1])
      + (if Contains(lowered, keywords[|keywords| - 1]) then 1 else 0)
  }

  /** The score of topic number `t` for a text, matched case-insensitively. */
  function Score(text: string, t: nat): nat
    requires t < |Topics|
  {
    KeywordScore(Lower(text), Keywords[t])
  }

  /** Index of the first topic with the highest score among the first `n`:
      Python's `max` over the dict keeps the first maximal key. */
  function BestIndex(text: string, n: nat): (b: nat)
    requires 1 <= n <= |Topics|
    ensures b < n
    ensures forall j :: 0 <= j < n ==> Score(text, j) <= Score(text, b)
    ensures forall j :: 0 <= j < b ==> Score(text, j) < Score(text, b)
  {
    if n == 1 then 0
    else
      var b := BestIndex(text, n - 1);
      if Score(text, n - 1) > Score(text, b) then n - 1 else b
  }

  /** The topic of a text: the first best-scoring topic when it scores at
      all, otherwise the default. (The source's further tests on words such as
      "great" or "bad" also return the default, so they are folded in here.) */
  function PickTopic(text: string): (topic: string)
    ensures topic in Topics
    ensures (forall j :: 0 <= j < |Topics| ==> Score(text, j) == 0) ==> topic == DefaultTopic
    ensures (exists j :: 0 <= j < |Topics| && Score(text, j) > 0) ==>
              exists b :: 0 <= b < |Topics| && topic == Topics[b] && Score(text, b) > 0
                && (forall j :: 0 <= j < |Topics| ==> Score(text, j) <= Score(text, b))
                && (forall j :: 0 <= j < b ==> Score(text, j) < Score(text, b))
  {
    var b := BestIndex(text, |Topics|);
    if Score(text, b) > 0 then Topics[b] else DefaultTopic
  }

  /** The extraction as the source performs it: a loop fills the score dict
      topic by topic, a second pass takes the first maximal key. */
  method ExtractTopicFallback(text: string) returns (topic: string)
    ensures topic == PickTopic(text)
  {
    var textLower := Lower(text);
    var topicScores: map<string, nat> := map[];
    for t := 0 to |Topics|
      invariant forall j :: 0 <= j < t ==> Topics[j] in topicScores && topicScores[Topics[j]] == Score(text, j)
    {
      var score := CountKeywords(textLower, Keywords[t]);
      topicScores := topicScores[Topics[t] := score];
    }
    var best := 0;
    for t := 1 to |Topics|
      invariant best == BestIndex(text, t)
    {
      if topicScores[Topics[t]] > topicScores[Topics[best]] {
        best := t;
      }
    }
    if topicScores[Topics[best]] > 0 {
      return Topics[best];
    }
    return DefaultTopic;
  }

  /** The inner loop: one point per keyword found in the lower-cased text. */
  method CountKeywords(textLower: string, keywords: seq<string>) returns (score: nat)
    ensures score == KeywordScore(textLower, keywords)
  {
    score := 0;
    for w := 0 to |keywords|
      invariant score == KeywordScore(textLower, keywords[..w])
    {
      assert keywords[..w + 1][..w] == keywords[..w];
      if Contains(textLower, keywords[w]) {
        score := score + 1;
      }
    }
    assert keywords[..|keywords|] == keywords;
  }

  /** A topic scores exactly when one of its keywords occurs in the text. */
  lemma {:induction false} KeywordScorePositive(lowered: string, keywords: seq<string>)
    ensures KeywordScore(lowered, keywords) > 0 <==> exists i :: 0 <= i < |keywords| && Contains(lowered, keywords[i])
  {
    if keywords != [] {
      var p := keywords[..|keywords| - 1];
      KeywordScorePositive(lowered, p);
      if exists i :: 0 <= i < |p| && Contains(lowered, p[i]) {
        var i :| 0 <= i < |p| && Contains(lowered, p[i]);
        assert keywords[i] == p[i];
      }
      if i :| 0 <= i < |keywords| - 1 && Contains(lowered, keywords[i]) {
        assert p[i] == keywords[i];
      }
    }
  }

  /** When no keyword of any topic occurs in the lower-cased text, the
      default topic is returned. */
  lemma DefaultWhenNoKeyword(text: string)
    requires forall t, i :: 0 <= t < |Topics| && 0 <= i < |Keywords[t]| ==> !Contains(Lower(text), Keywords[t][i])
    ensures PickTopic(text) == DefaultTopic
  {
    forall t | 0 <= t < |Topics| ensures Score(text, t) == 0 {
      KeywordScorePositive(Lower(text), Keywords[t]);
    }
  }

  /** A keyword occurring in the text makes the chosen topic one that scores. */
  lemma KeywordMakesTopicScore(text: string, t: nat, i: nat)
    requires t < |Topics| && i < |Keywords[t]|
    requires Contains(Lower(text), Keywords[t][i])
    ensures exists b :: 0 <= b < |Topics| && PickTopic(text) == Topics[b] && Score(text, b) >= Score(text, t) > 0
  {
    KeywordScorePositive(Lower(text), Keywords[t]);
    var b := BestIndex(text, |Topics|);
    assert Score(text, b) >= Score(text, t) > 0;
    assert PickTopic(text) == Topics[b];
  }

  /** Dropping keywords from the end never raises the score. */
  lemma {:induction false} KeywordScorePrefix(lowered: string, keywords: seq<string>, n: nat)
    requires n <= |keywords|
    ensures KeywordScore(lowered, keywords[..n]) <= KeywordScore(lowered, keywords)
    decreases |keywords|
  {
    if n < |keywords| {
      var p := keywords[..|keywords| - 1];
      assert p[..n] == keywords[..n];
      KeywordScorePrefix(lowered, p, n);
    } else {
      assert keywords[..n] == keywords;
    }
  }

  /** "expensive" is listed twice under price, so a text mentioning it gives
      price a score of at least two. */
  lemma ExpensiveCountsTwice(text: string)
    requires Contains(Lower(text), "expensive")
    ensures Score(text, PriceTopic) >= 2
  {
    var kws := Keywords[PriceTopic];
    var lowered := Lower(text);
    assert kws[2] == "expensive" && kws[11] == "expensive";
    assert kws[..3][..2] == kws[..2];
    assert KeywordScore(lowered, kws[..3]) == KeywordScore(lowered, kws[..2]) + 1;
    assert kws[..12][..11] == kws[..11];
    assert KeywordScore(lowered, kws[..12]) == KeywordScore(lowered, kws[..11]) + 1;
    KeywordScorePrefix(lowered, kws[..11], 3);
    assert kws[..11][..3] == kws[..3];
    KeywordScorePrefix(lowered, kws, 12);
  }
}
