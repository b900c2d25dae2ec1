/**
 * The `similar` widget with the experimental ranking switched on: every
 * candidate is scored against one reference item, tagged with the reference's
 * title and its own path, and the candidates are returned best first, cut to
 * the widget limit.
 */
module Similar {
  import opened Items
  import opened Sorting
  import opened Similarity
  import opened Recommend

  /**
   * The score of one candidate: the reference itself (same kind, title and
   * year) scores 0, another item of the same kind is scored by that kind's
   * scorer, an item of the other kind by the mixed scorer.
   */
  function CandidateScore(sc: Scorers, ref: Item, item: Item): (r: real)
    requires IsRootTable(sc.root)
    ensures ref.isMovie == item.isMovie && item.title == ref.title && item.year == ref.year ==> r == 0.0
    ensures !(ref.isMovie == item.isMovie && item.title == ref.title && item.year == ref.year) ==>
      r == PairScore(sc, ref, item)
    ensures ref.isMovie != item.isMovie ==> 0.0 <= r <= 0.625
  {
    if ref.isMovie == item.isMovie then
      if item.title == ref.title && item.year == ref.year then 0.0
      else if ref.isMovie then sc.movie(ref, item)
      else sc.tvshow(ref, item)
    else MixedScore(sc.root, ref, item)
  }

  /** The candidate with `similarscore` and `extraproperties` written into it. */
  function Annotate(sc: Scorers, ref: Item, item: Item): (r: Item)
    requires IsRootTable(sc.root)
    ensures r.similarScore == CandidateScore(sc, ref, item)
    ensures r.extra == Some(Extra(ref.title, item.file))
    ensures r.(similarScore := item.similarScore, extra := item.extra) == item
  {
    item.(similarScore := CandidateScore(sc, ref, item), extra := Some(Extra(ref.title, item.file)))
  }

  /** Every candidate annotated, in the original order. */
  function Annotated(sc: Scorers, ref: Item, items: seq<Item>): (r: seq<Item>)
    requires IsRootTable(sc.root)
    ensures |r| == |items|
    ensures forall k :: 0 <= k < |items| ==> r[k] == Annotate(sc, ref, items[k])
  {
    seq(|items|, k requires 0 <= k < |items| => Annotate(sc, ref, items[k]))
  }

  /**
   * The experimental branch of `similar()`: no reference gives no list;
   * otherwise every candidate is annotated in turn and the list is sorted on
   * `similarscore`, best first, and cut to `limit`.
   */
  method SimilarItems(sc: Scorers, ref: Option<Item>, allItems: seq<Item>, limit: int) returns (r: Option<seq<Item>>)
    requires IsRootTable(sc.root)
    ensures ref.None? ==> r.None?
    ensures ref.Some? ==> r == Some(SortAndTruncate(SimilarScore, true, Annotated(sc, ref.value, allItems), limit))
  {
    if ref.None? {
      return None;
    }
    var refItem := ref.value;
    var items := allItems;
    var i := 0;
    while i < |items|
      invariant 0 <= i <= |items| == |allItems|
      invariant forall k :: 0 <= k < i ==> items[k] == Annotate(sc, refItem, allItems[k])
      invariant forall k :: i <= k < |items| ==> items[k] == allItems[k]
    {
      var item := items[i];
      var similarScore: real;
      if refItem.isMovie == item.isMovie {
        if item.title == refItem.title && item.year == refItem.year {
          similarScore := 0.0;
        } else if refItem.isMovie {
          similarScore := sc.movie(refItem, item);
        } else {
          similarScore := sc.tvshow(refItem, item);
        }
      } else {
        similarScore := MixedScore(sc.root, refItem, item);
      }
      items := items[i := item.(similarScore := similarScore, extra := Some(Extra(refItem.title, item.file)))];
      i := i + 1;
    }
    assert items == Annotated(sc, refItem, allItems);
    return Some(SortAndTruncate(SimilarScore, true, items, limit));
  }

  /**
   * Every item the widget returns is a candidate annotated with the reference's
   * title and its own path.
   */
  lemma SimilarResultAnnotated(sc: Scorers, ref: Item, allItems: seq<Item>, limit: int)
    requires IsRootTable(sc.root)
    ensures var r := SortAndTruncate(SimilarScore, true, Annotated(sc, ref, allItems), limit);
      && (forall k :: 0 <= k < |r| ==> exists j :: 0 <= j < |allItems| && r[k] == Annotate(sc, ref, allItems[j]))
      && (forall k :: 0 <= k < |r| ==> r[k].extra.Some? && r[k].extra.value.similarTitle == ref.title)
  {
    var a := Annotated(sc, ref, allItems);
    var r := SortAndTruncate(SimilarScore, true, a, limit);
    forall k | 0 <= k < |r|
      ensures exists j :: 0 <= j < |allItems| && r[k] == Annotate(sc, ref, allItems[j])
    {
      assert r[k] in multiset(r);
      assert r[k] in multiset(a);
      var j :| 0 <= j < |a| && a[j] == r[k];
      assert r[k] == Annotate(sc, ref, allItems[j]);
    }
  }

  /** The list the widget returns is ordered on `similarscore`, best first, and holds at most `limit` items. */
  lemma SimilarResultOrdered(sc: Scorers, ref: Item, allItems: seq<Item>, limit: int)
    requires IsRootTable(sc.root)
    ensures var r := SortAndTruncate(SimilarScore, true, Annotated(sc, ref, allItems), limit);
      && (forall i, j :: 0 <= i < j < |r| ==> r[j].similarScore <= r[i].similarScore)
      && (0 <= limit ==> |r| <= limit)
  {
    var r := SortAndTruncate(SimilarScore, true, Annotated(sc, ref, allItems), limit);
    DescendingScores(r);
  }

  lemma DescendingScores(r: seq<Item>)
    requires SortedBy(SimilarScore, true, r)
    ensures forall i, j :: 0 <= i < j < |r| ==> r[j].similarScore <= r[i].similarScore
  {
    forall i, j | 0 <= i < j < |r| ensures r[j].similarScore <= r[i].similarScore {
      assert Before(SimilarScore, true, r[i], r[j]);
    }
  }
}
