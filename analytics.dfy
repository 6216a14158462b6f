/** The analytics summary of the reviews table (`get_analytics_data` in
    backend/database.py): four `GROUP BY ... COUNT(*)` results over one scan
    of the table. */
module Analytics {
  import opened Common
  import opened Database

  // ---------------------------------------------------------------------------
  // Group counts
  // ---------------------------------------------------------------------------

  /** Number of occurrences of `k` in `xs`. */
  function CountOf<T(==,!new)>(xs: seq<T>, k: T): nat {
    if xs == [] then 0
    else CountOf(xs[..|xs| - 1], k) + (if xs[|xs| - 1] == k then 1 else 0)
  }

  lemma {:induction false} CountOfPositive<T(!new)>(xs: seq<T>, k: T)
    ensures CountOf(xs, k) > 0 <==> k in xs
    ensures CountOf(xs, k) <= |xs|
  {
    if xs != [] {
      CountOfPositive(xs[..|xs| - 1], k);
      assert xs == xs[..|xs| - 1] + [xs[|xs| - 1]];
    }
  }

  /** The values of `xs`, each once, in order of first appearance. */
  function Distinct<T(==,!new)>(xs: seq<T>): (ks: seq<T>)
    ensures forall k :: k in ks <==> k in xs
    ensures NoDuplicates(ks)
  {
    if xs == [] then []
    else
      var p := Distinct(xs[..|xs| - 1]);
      var x := xs[|xs| - 1];
      assert forall k :: k in xs <==> k in xs[..|xs| - 1] || k == x by {
        assert xs == xs[..|xs| - 1] + [x];
      }
      if x in p then p else p + [x]
  }

  predicate NoDuplicates<T(==,!new)>(ks: seq<T>) {
    forall i, j :: 0 <= i < j < |ks| ==> ks[i] != ks[j]
  }

  /** The result of `SELECT v, COUNT(*) ... GROUP BY v` turned into a dict:
      every value that occurs, mapped to its number of occurrences. */
  function GroupCounts<T(==,!new)>(xs: seq<T>): (m: map<T, nat>)
    ensures forall k :: k in m <==> k in xs
  {
    map k | k in xs :: CountOf(xs, k)
  }

  /** Sum of the counts of the listed keys. */
  function SumOver<T(!new)>(m: map<T, nat>, keys: seq<T>): nat
    requires forall k :: k in keys ==> k in m
  {
    if keys == [] then 0
    else SumOver(m, keys[..|keys| - 1]) + m[keys[|keys| - 1]]
  }

  /** Sums over maps that agree on the keys are equal. */
  lemma {:induction false} SumOverAgree<T(!new)>(m1: map<T, nat>, m2: map<T, nat>, keys: seq<T>)
    requires forall k :: k in keys ==> k in m1 && k in m2 && m1[k] == m2[k]
    ensures SumOver(m1, keys) == SumOver(m2, keys)
  {
    if keys != [] {
      SumOverAgree(m1, m2, keys[..|keys| - 1]);
    }
  }

  /** Raising the count of one key that is listed once raises the sum by one. */
  lemma {:induction false} SumOverBump<T(!new)>(m1: map<T, nat>, m2: map<T, nat>, keys: seq<T>, x: T)
    requires NoDuplicates(keys) && x in keys
    requires forall k :: k in keys ==> k in m1 && k in m2
    requires forall k :: k in keys && k != x ==> m2[k] == m1[k]
    requires m2[x] == m1[x] + 1
    ensures SumOver(m2, keys) == SumOver(m1, keys) + 1
  {
    var p := keys[..|keys| - 1];
    var last := keys[|keys| - 1];
    assert forall k :: k in p ==> k in keys;
    if last == x {
      assert x !in p;
      SumOverAgree(m1, m2, p);
    } else {
      assert x in p by {
        var i :| 0 <= i < |keys| && keys[i] == x;
        assert p[i] == x;
      }
      SumOverBump(m1, m2, p, x);
    }
  }

  /** The group counts add up to the number of values counted. */
  lemma {:induction false} GroupCountsTotal<T(!new)>(xs: seq<T>)
    ensures SumOver(GroupCounts(xs), Distinct(xs)) == |xs|
  {
    if xs != [] {
      var p := xs[..|xs| - 1];
      var x := xs[|xs| - 1];
      GroupCountsTotal(p);
      var mp, mx := GroupCounts(p), GroupCounts(xs);
      assert forall k :: k in xs ==> mx[k] == (if k in mp then mp[k] else 0) + (if k == x then 1 else 0) by {
        forall k | k in xs ensures mx[k] == (if k in mp then mp[k] else 0) + (if k == x then 1 else 0) {
          CountOfPositive(p, k);
        }
      }
      var dp := Distinct(p);
      if x in p {
        SumOverBump(mp, mx, dp, x);
      } else {
        SumOverAgree(mp, mx, dp);
      }
    }
  }

  // ---------------------------------------------------------------------------
  // The analytics data
  // ---------------------------------------------------------------------------

  /** The four group counts; the rating keys are still integers here. */
  datatype AnalyticsData = AnalyticsData(
    sentimentCounts: map<string, nat>,
    topicCounts: map<string, nat>,
    locationCounts: map<string, nat>,
    ratingDistribution: map<int, nat>)

  /** The present values of an optional column (`WHERE col IS NOT NULL`). */
  function Present(xs: seq<Option<string>>): (ys: seq<string>)
    ensures |ys| <= |xs|
    ensures forall v :: v in ys <==> Some(v) in xs
  {
    if xs == [] then []
    else
      var p := Present(xs[..|xs| - 1]);
      assert xs == xs[..|xs| - 1] + [xs[|xs| - 1]];
      match xs[|xs| - 1]
      case None => p
      case Some(v) => p + [v]
  }

  function Sentiments(scan: seq<ReviewRow>): seq<Option<string>> {
    seq(|scan|, i requires 0 <= i < |scan| => scan[i].sentiment)
  }

  function Topics(scan: seq<ReviewRow>): seq<Option<string>> {
    seq(|scan|, i requires 0 <= i < |scan| => scan[i].topic)
  }

  function Locations(scan: seq<ReviewRow>): seq<string> {
    seq(|scan|, i requires 0 <= i < |scan| => scan[i].location)
  }

  function Ratings(scan: seq<ReviewRow>): seq<int> {
    seq(|scan|, i requires 0 <= i < |scan| => scan[i].rating)
  }

  lemma SentimentsIn(scan: seq<ReviewRow>)
    ensures forall s :: Some(s) in Sentiments(scan) <==> exists i :: 0 <= i < |scan| && scan[i].sentiment == Some(s)
  {
    forall i | 0 <= i < |scan| ensures scan[i].sentiment in Sentiments(scan) {
      assert Sentiments(scan)[i] == scan[i].sentiment;
    }
  }

  lemma TopicsIn(scan: seq<ReviewRow>)
    ensures forall t :: Some(t) in Topics(scan) <==> exists i :: 0 <= i < |scan| && scan[i].topic == Some(t)
  {
    forall i | 0 <= i < |scan| ensures scan[i].topic in Topics(scan) {
      assert Topics(scan)[i] == scan[i].topic;
    }
  }

  lemma LocationsIn(scan: seq<ReviewRow>)
    ensures forall l :: l in Locations(scan) <==> exists i :: 0 <= i < |scan| && scan[i].location == l
  {
    forall i | 0 <= i < |scan| ensures scan[i].location in Locations(scan) {
      assert Locations(scan)[i] == scan[i].location;
    }
  }

  lemma RatingsIn(scan: seq<ReviewRow>)
    ensures forall r :: r in Ratings(scan) <==> exists i :: 0 <= i < |scan| && scan[i].rating == r
  {
    forall i | 0 <= i < |scan| ensures scan[i].rating in Ratings(scan) {
      assert Ratings(scan)[i] == scan[i].rating;
    }
  }

  /** The analytics of one scan of the table. Sentiment and topic count only
      rows where the column is not NULL; location and rating count every row. */
  function ComputeAnalytics(scan: seq<ReviewRow>): (a: AnalyticsData)
    ensures forall s :: s in a.sentimentCounts <==> exists i :: 0 <= i < |scan| && scan[i].sentiment == Some(s)
    ensures forall t :: t in a.topicCounts <==> exists i :: 0 <= i < |scan| && scan[i].topic == Some(t)
    ensures forall l :: l in a.locationCounts <==> exists i :: 0 <= i < |scan| && scan[i].location == l
    ensures forall r :: r in a.ratingDistribution <==> exists i :: 0 <= i < |scan| && scan[i].rating == r
    ensures forall l :: l in a.locationCounts ==> 1 <= a.locationCounts[l] <= |scan|
  {
    var a := AnalyticsData(
      GroupCounts(Present(Sentiments(scan))),
      GroupCounts(Present(Topics(scan))),
      GroupCounts(Locations(scan)),
      GroupCounts(Ratings(scan)));
    SentimentsIn(scan);
    TopicsIn(scan);
    LocationsIn(scan);
    RatingsIn(scan);
    forall l | l in a.locationCounts ensures 1 <= a.locationCounts[l] <= |scan| {
      CountOfPositive(Locations(scan), l);
    }
    a
  }

  /** The location counts add up to the number of rows scanned; the sentiment
      and topic counts add up to the number of rows whose column is set. */
  lemma AnalyticsTotals(scan: seq<ReviewRow>)
    ensures var a := ComputeAnalytics(scan);
      && SumOver(a.locationCounts, Distinct(Locations(scan))) == |scan|
      && SumOver(a.ratingDistribution, Distinct(Ratings(scan))) == |scan|
      && SumOver(a.sentimentCounts, Distinct(Present(Sentiments(scan)))) == |Present(Sentiments(scan))| <= |scan|
      && SumOver(a.topicCounts, Distinct(Present(Topics(scan)))) == |Present(Topics(scan))| <= |scan|
  {
    GroupCountsTotal(Locations(scan));
    GroupCountsTotal(Ratings(scan));
    GroupCountsTotal(Present(Sentiments(scan)));
    GroupCountsTotal(Present(Topics(scan)));
  }
}
