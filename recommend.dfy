/**
 * The scoring half of `sort_by_recommended`: every candidate gets the weighted
 * sum of its similarity to each reference item, divided by one plus its play
 * count and by the number of references, and the candidates are then sorted on
 * that score, best first, and cut to the widget limit. Also the two playlist
 * widgets that rank one playlist against another.
 */
module Recommend {
  import opened Items
  import opened Sorting
  import opened Similarity
  import opened ReferenceSet

  /**
   * The scorer for one reference/candidate pair: the movie scorer when both
   * records are movies, the mixed scorer when exactly one is, the tv-show
   * scorer when neither is.
   */
  function PairScore(sc: Scorers, ref: Item, item: Item): (r: real)
    requires IsRootTable(sc.root)
    ensures ref.isMovie && item.isMovie ==> r == sc.movie(ref, item)
    ensures !ref.isMovie && !item.isMovie ==> r == sc.tvshow(ref, item)
    ensures ref.isMovie != item.isMovie ==> r == MixedScore(sc.root, ref, item) && 0.0 <= r <= 0.625
  {
    if ref.isMovie && item.isMovie then sc.movie(ref, item)
    else if ref.isMovie || item.isMovie then MixedScore(sc.root, ref, item)
    else sc.tvshow(ref, item)
  }

  /** Every reference title has a weight, so `weights[title]` never fails. */
  predicate WeightsCover(refs: seq<Item>, weights: map<string, real>) {
    forall k :: 0 <= k < |refs| ==> refs[k].title in weights
  }

  /** Σ weights[ref.title] · score(ref, item) over the references, in order. */
  function WeightedSum(sc: Scorers, refs: seq<Item>, weights: map<string, real>, item: Item): real
    requires IsRootTable(sc.root) && WeightsCover(refs, weights)
  {
    if refs == [] then 0.0
    else
      var p, ref := refs[..|refs| - 1], refs[|refs| - 1];
      assert WeightsCover(p, weights) by {
        forall k | 0 <= k < |p| ensures p[k].title in weights {
          assert p[k] == refs[k];
        }
      }
      WeightedSum(sc, p, weights, item) + weights[ref.title] * PairScore(sc, ref, item)
  }

  /**
   * The average weighted score, scaled down by the play count: multiplied back
   * by one plus the play count and by the number of references, it gives the
   * weighted sum.
   */
  function RecommendedScoreOf(sc: Scorers, refs: seq<Item>, weights: map<string, real>, item: Item): (r: real)
    requires IsRootTable(sc.root) && WeightsCover(refs, weights) && refs != []
    ensures r * (1 + item.playcount) as real * |refs| as real == WeightedSum(sc, refs, weights, item)
    ensures 0.0 <= WeightedSum(sc, refs, weights, item) ==> 0.0 <= r
  {
    var s, a, n := WeightedSum(sc, refs, weights, item), (1 + item.playcount) as real, |refs| as real;
    var q := s / a;
    assert q * a == s;
    var r := q / n;
    assert r * n == q;
    assert r * a * n == (r * n) * a;
    assert 0.0 <= s ==> 0.0 <= q;
    r
  }

  /** The candidate with `recommendedscore` written into it. */
  function Rescored(sc: Scorers, refs: seq<Item>, weights: map<string, real>, item: Item): (r: Item)
    requires IsRootTable(sc.root) && WeightsCover(refs, weights) && refs != []
    ensures r.recommendedScore == RecommendedScoreOf(sc, refs, weights, item)
    ensures r.(recommendedScore := item.recommendedScore) == item
  {
    item.(recommendedScore := RecommendedScoreOf(sc, refs, weights, item))
  }

  /** Every candidate rescored, in the original order. */
  function Scored(sc: Scorers, refs: seq<Item>, weights: map<string, real>, items: seq<Item>): (r: seq<Item>)
    requires IsRootTable(sc.root) && WeightsCover(refs, weights)
    requires items == [] || refs != []
    ensures |r| == |items|
    ensures forall k :: 0 <= k < |items| ==> r[k] == Rescored(sc, refs, weights, items[k])
  {
    seq(|items|, k requires 0 <= k < |items| => Rescored(sc, refs, weights, items[k]))
  }

  /** Caller-supplied references all weigh 1. */
  function FlatWeights(refs: seq<Item>): (r: map<string, real>)
    ensures WeightsCover(refs, r)
    ensures forall t :: t in r <==> t in TitleSet(refs)
    ensures forall t :: t in r ==> r[t] == 1.0
  {
    assert forall k :: 0 <= k < |refs| ==> refs[k].title in TitleSet(refs) by {
      forall k | 0 <= k < |refs| ensures refs[k].title in TitleSet(refs) {
        assert refs[k] in refs;
      }
    }
    map t | t in TitleSet(refs) :: 1.0
  }

  /**
   * The references and weights: the weighted play history when the caller
   * gives no references, else the given ones with weight 1 each.
   */
  function ChooseReferences(givenRefs: seq<Item>, watchedMovies: seq<Item>, watchedShows: seq<Item>, n: int): (rs: RefSet)
    ensures WeightsCover(rs.refs, rs.weights)
    ensures rs.refs == [] <==> givenRefs == [] && watchedMovies + watchedShows == []
  {
    if givenRefs == [] then
      var items := SortBy(LastPlayed, true, watchedMovies + watchedShows);
      ReferenceSetWeights(items, n);
      ReferenceSetNonEmpty(items, n);
      assert items == [] ==> |watchedMovies + watchedShows| == 0;
      ReferenceSetOf(items, n)
    else RefSet(givenRefs, FlatWeights(givenRefs))
  }

  /** The weights loop of the caller-supplied branch. */
  method FlatWeightsLoop(refs: seq<Item>) returns (weights: map<string, real>)
    ensures weights == FlatWeights(refs)
  {
    weights := map[];
    var k := 0;
    while k < |refs|
      invariant 0 <= k <= |refs|
      invariant weights == FlatWeights(refs[..k])
    {
      assert refs[..k + 1] == refs[..k] + [refs[k]];
      Extend(refs[..k], refs[k]);
      weights := weights[refs[k].title := 1.0];
      k := k + 1;
    }
    assert refs[..k] == refs;
  }

  /** The inner loop of the scoring: the weighted sum for one candidate. */
  method WeightedSumLoop(sc: Scorers, refs: seq<Item>, weights: map<string, real>, item: Item) returns (similarScore: real)
    requires IsRootTable(sc.root) && WeightsCover(refs, weights)
    ensures similarScore == WeightedSum(sc, refs, weights, item)
  {
    similarScore := 0.0;
    var j := 0;
    while j < |refs|
      invariant 0 <= j <= |refs|
      invariant WeightsCover(refs[..j], weights)
      invariant similarScore == WeightedSum(sc, refs[..j], weights, item)
    {
      assert refs[..j + 1][..j] == refs[..j];
      similarScore := similarScore + weights[refs[j].title] * PairScore(sc, refs[j], item);
      j := j + 1;
    }
    assert refs[..j] == refs;
  }

  /** The first half of `sort_by_recommended`: the references and their weights. */
  method References(givenRefs: seq<Item>, watchedMovies: seq<Item>, watchedShows: seq<Item>, numRecentSimilar: int)
    returns (refs: seq<Item>, weights: map<string, real>)
    ensures RefSet(refs, weights) == ChooseReferences(givenRefs, watchedMovies, watchedShows, numRecentSimilar)
  {
    if givenRefs == [] {
      var weightSum;
      refs, weights, weightSum := BuildReferenceSet(watchedMovies, watchedShows, numRecentSimilar);
    } else {
      refs := givenRefs;
      weights := FlatWeightsLoop(refs);
    }
  }

  /** The scoring loop: `recommendedscore` written into every candidate in turn. */
  method ScoreAll(sc: Scorers, refs: seq<Item>, weights: map<string, real>, allItems: seq<Item>) returns (scored: seq<Item>)
    requires IsRootTable(sc.root) && WeightsCover(refs, weights)
    requires allItems == [] || refs != []
    ensures scored == Scored(sc, refs, weights, allItems)
  {
    scored := allItems;
    var i := 0;
    while i < |allItems|
      invariant 0 <= i <= |allItems| && |scored| == |allItems|
      invariant forall k :: 0 <= k < i ==> scored[k] == Rescored(sc, refs, weights, allItems[k])
      invariant forall k :: i <= k < |allItems| ==> scored[k] == allItems[k]
    {
      var item := scored[i];
      var similarScore := WeightedSumLoop(sc, refs, weights, item);
      scored := scored[i := item.(recommendedScore := similarScore / (1 + item.playcount) as real / |refs| as real)];
      i := i + 1;
    }
  }

  /**
   * `sort_by_recommended(all_items, ref_items)`: choose the references, score
   * every candidate and return the candidates sorted on that score, best first,
   * cut to `limit`. The history is given as the watched movies and the tv shows
   * of the watched episodes. With no reference at all, a non-empty candidate
   * list divides by zero, so some reference must exist then.
   */
  method SortByRecommended(sc: Scorers, allItems: seq<Item>, givenRefs: seq<Item>,
                           watchedMovies: seq<Item>, watchedShows: seq<Item>, numRecentSimilar: int, limit: int)
    returns (r: seq<Item>)
    requires IsRootTable(sc.root)
    requires allItems == [] || givenRefs != [] || watchedMovies + watchedShows != []
    ensures var rs := ChooseReferences(givenRefs, watchedMovies, watchedShows, numRecentSimilar);
      r == SortAndTruncate(RecommendedScore, true, Scored(sc, rs.refs, rs.weights, allItems), limit)
  {
    var refs, weights := References(givenRefs, watchedMovies, watchedShows, numRecentSimilar);
    var scored := ScoreAll(sc, refs, weights, allItems);
    r := SortAndTruncate(RecommendedScore, true, scored, limit);
  }

  /** Dividing a non-negative sum by a larger divisor never gives more; a positive one gives strictly less. */
  lemma DivideByLarger(s: real, a: real, b: real)
    requires 0.0 <= s && 0.0 < a <= b
    ensures s / b <= s / a
    ensures 0.0 < s && a < b ==> s / b < s / a
  {
    var u, v := s / a, s / b;
    assert u * a == s && v * b == s;
    assert v * a <= v * b by {
      assert v >= 0.0;
    }
    assert v * a <= u * a;
    if 0.0 < s && a < b {
      assert v > 0.0;
      assert v * a < v * b;
      assert v * a < u * a;
    }
  }

  lemma DivideOrder(x: real, y: real, n: real)
    requires 0.0 < n
    ensures x <= y ==> x / n <= y / n
    ensures x < y ==> x / n < y / n
  {
    assert x / n * n == x && y / n * n == y;
  }

  /** The damping `s / (1 + playcount) / n` of a non-negative sum falls as the play count rises. */
  lemma Damping(s: real, p: nat, q: nat, n: nat)
    requires 0.0 <= s && p <= q && 0 < n
    ensures s / (1 + q) as real / n as real <= s / (1 + p) as real / n as real
    ensures 0.0 < s && p < q ==> s / (1 + q) as real / n as real < s / (1 + p) as real / n as real
  {
    DivideByLarger(s, (1 + p) as real, (1 + q) as real);
    DivideOrder(s / (1 + q) as real, s / (1 + p) as real, n as real);
  }

  /**
   * For the same weighted sum, a candidate watched more often never scores
   * higher, and scores strictly lower when the sum is positive.
   */
  lemma PlaycountNeverRaises(sc: Scorers, refs: seq<Item>, weights: map<string, real>, x: Item, y: Item)
    requires IsRootTable(sc.root) && WeightsCover(refs, weights) && refs != []
    requires WeightedSum(sc, refs, weights, x) == WeightedSum(sc, refs, weights, y) >= 0.0
    requires x.playcount <= y.playcount
    ensures RecommendedScoreOf(sc, refs, weights, y) <= RecommendedScoreOf(sc, refs, weights, x)
    ensures WeightedSum(sc, refs, weights, x) > 0.0 && x.playcount < y.playcount ==>
      RecommendedScoreOf(sc, refs, weights, y) < RecommendedScoreOf(sc, refs, weights, x)
  {
    Damping(WeightedSum(sc, refs, weights, x), x.playcount, y.playcount, |refs|);
  }

  /** The weighted sum when every pair scores within [0, c] and every weight is 1. */
  lemma {:induction false} FlatSumBound(sc: Scorers, refs: seq<Item>, weights: map<string, real>, item: Item, c: real)
    requires IsRootTable(sc.root) && WeightsCover(refs, weights)
    requires forall k :: 0 <= k < |refs| ==> weights[refs[k].title] == 1.0
    requires forall k :: 0 <= k < |refs| ==> 0.0 <= PairScore(sc, refs[k], item) <= c
    ensures 0.0 <= WeightedSum(sc, refs, weights, item) <= c * |refs| as real
  {
    if refs != [] {
      var p := refs[..|refs| - 1];
      assert WeightsCover(p, weights) by {
        forall k | 0 <= k < |p| ensures p[k].title in weights {
          assert p[k] == refs[k];
        }
      }
      forall k | 0 <= k < |p| ensures weights[p[k].title] == 1.0 && 0.0 <= PairScore(sc, p[k], item) <= c {
        assert p[k] == refs[k];
      }
      FlatSumBound(sc, p, weights, item, c);
      assert c * |refs| as real == c * |p| as real + c;
    }
  }

  /**
   * With caller-supplied references the score is a true average: when every
   * pair scores within [0, c], the candidate scores within [0, c / (1 + playcount)].
   */
  lemma GivenReferencesAverage(sc: Scorers, refs: seq<Item>, item: Item, c: real)
    requires IsRootTable(sc.root) && refs != []
    requires forall k :: 0 <= k < |refs| ==> 0.0 <= PairScore(sc, refs[k], item) <= c
    ensures 0.0 <= RecommendedScoreOf(sc, refs, FlatWeights(refs), item) <= c / (1 + item.playcount) as real
  {
    var w := FlatWeights(refs);
    forall k | 0 <= k < |refs| ensures w[refs[k].title] == 1.0 {
    }
    FlatSumBound(sc, refs, w, item, c);
    AverageBound(WeightedSum(sc, refs, w, item), c, item.playcount, |refs|);
  }

  lemma AverageBound(s: real, c: real, p: nat, n: nat)
    requires 0 < n && 0.0 <= s <= c * n as real
    ensures 0.0 <= s / (1 + p) as real / n as real <= c / (1 + p) as real
  {
    var d := (1 + p) as real;
    DivideOrder(s, c * n as real, d);
    DivideOrder(0.0, s, d);
    DivideOrder(s / d, c * n as real / d, n as real);
    DivideOrder(0.0, s / d, n as real);
    var g := c / d;
    assert g * d == c;
    assert c * n as real == g * n as real * d;
    assert c * n as real / d == g * n as real;
    assert g * n as real / n as real == g;
  }

  /**
   * `playlist()`: the candidates of two playlists ranked against the play
   * history, then sorted and cut again on the same score.
   */
  method Playlist(sc: Scorers, movies: seq<Item>, tvshows: seq<Item>,
                  watchedMovies: seq<Item>, watchedShows: seq<Item>, numRecentSimilar: int, limit: int)
    returns (r: seq<Item>)
    requires IsRootTable(sc.root)
    requires movies + tvshows == [] || watchedMovies + watchedShows != []
    ensures var rs := ChooseReferences([], watchedMovies, watchedShows, numRecentSimilar);
      var once := SortAndTruncate(RecommendedScore, true, Scored(sc, rs.refs, rs.weights, movies + tvshows), limit);
      && r == SortAndTruncate(RecommendedScore, true, once, limit)
      && (0 <= limit ==> r == once)
  {
    var ranked := SortByRecommended(sc, movies + tvshows, [], watchedMovies, watchedShows, numRecentSimilar, limit);
    r := SortAndTruncate(RecommendedScore, true, ranked, limit);
    if 0 <= limit {
      var rs := ChooseReferences([], watchedMovies, watchedShows, numRecentSimilar);
      ResortIsIdentity(RecommendedScore, true, Scored(sc, rs.refs, rs.weights, movies + tvshows), limit);
    }
  }

  /**
   * `refplaylist()`: the candidates outside two playlists ranked against the
   * items inside them, each weighing 1 (the play history when both playlists
   * are empty), then sorted and cut again on the same score.
   */
  method RefPlaylist(sc: Scorers, refMovies: seq<Item>, refTvshows: seq<Item>, movies: seq<Item>, tvshows: seq<Item>,
                     watchedMovies: seq<Item>, watchedShows: seq<Item>, numRecentSimilar: int, limit: int)
    returns (r: seq<Item>)
    requires IsRootTable(sc.root)
    requires movies + tvshows == [] || refMovies + refTvshows != [] || watchedMovies + watchedShows != []
    ensures var rs := ChooseReferences(refMovies + refTvshows, watchedMovies, watchedShows, numRecentSimilar);
      var once := SortAndTruncate(RecommendedScore, true, Scored(sc, rs.refs, rs.weights, movies + tvshows), limit);
      && r == SortAndTruncate(RecommendedScore, true, once, limit)
      && (0 <= limit ==> r == once)
  {
    var ranked := SortByRecommended(sc, movies + tvshows, refMovies + refTvshows, watchedMovies, watchedShows, numRecentSimilar, limit);
    r := SortAndTruncate(RecommendedScore, true, ranked, limit);
    if 0 <= limit {
      var rs := ChooseReferences(refMovies + refTvshows, watchedMovies, watchedShows, numRecentSimilar);
      ResortIsIdentity(RecommendedScore, true, Scored(sc, rs.refs, rs.weights, movies + tvshows), limit);
    }
  }
}
