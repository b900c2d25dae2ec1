/**
 * The weighted reference set `sort_by_recommended` builds from the play
 * history: the recently watched movies and tv shows, newest first, walked
 * until the running weight reaches `num_recent_similar`. A title's first
 * occurrence joins the set with weight 1, each repeat adds 0.5.
 */
module ReferenceSet {
  import opened Items
  import opened Sorting

  function TitleSet(s: seq<Item>): set<string> {
    set x | x in s :: x.title
  }

  predicate DistinctTitles(s: seq<Item>) {
    forall i, j :: 0 <= i < j < |s| ==> s[i].title != s[j].title
  }

  /** The first item of each title, in the order the titles are first seen. */
  function FirstOccurrences(s: seq<Item>): seq<Item> {
    if s == [] then []
    else
      var p := s[..|s| - 1];
      if s[|s| - 1].title in TitleSet(p) then FirstOccurrences(p)
      else FirstOccurrences(p) + [s[|s| - 1]]
  }

  /** How often title `t` occurs in `s`. */
  function Count(s: seq<Item>, t: string): nat {
    if s == [] then 0
    else Count(s[..|s| - 1], t) + (if s[|s| - 1].title == t then 1 else 0)
  }

  /** A title's weight: 1 for its first occurrence and 0.5 for each repeat. */
  function Weight(s: seq<Item>, t: string): real {
    if Count(s, t) == 0 then 0.0 else 1.0 + 0.5 * (Count(s, t) - 1) as real
  }

  function WeightsOf(s: seq<Item>): map<string, real> {
    map t | t in TitleSet(s) :: Weight(s, t)
  }

  /** The running weight sum after walking all of `s`. */
  function TotalWeight(s: seq<Item>): real {
    if s == [] then 0.0
    else
      var p := s[..|s| - 1];
      TotalWeight(p) + (if s[|s| - 1].title in TitleSet(p) then 0.5 else 1.0)
  }

  function StopFrom(s: seq<Item>, n: int, j: nat): nat
    requires j <= |s|
    decreases |s| - j
  {
    if j == |s| then j
    else if TotalWeight(s[..j + 1]) >= n as real then j + 1
    else StopFrom(s, n, j + 1)
  }

  /** How many items the walk consumes before it stops. */
  function StopIndex(s: seq<Item>, n: int): (m: nat)
    ensures m <= |s|
  {
    StopFromSpec(s, n, 0);
    StopFrom(s, n, 0)
  }

  /** The reference items and the weight of each reference title. */
  datatype RefSet = RefSet(refs: seq<Item>, weights: map<string, real>)

  function ReferenceSetOf(items: seq<Item>, n: int): RefSet {
    var m := StopIndex(items, n);
    RefSet(FirstOccurrences(items[..m]), WeightsOf(items[..m]))
  }

  /** The sum of the weights of the reference titles. */
  function SumWeights(refs: seq<Item>, s: seq<Item>): real {
    if refs == [] then 0.0
    else SumWeights(refs[..|refs| - 1], s) + Weight(s, refs[|refs| - 1].title)
  }

  /** The first index in `s` that holds title `t`. */
  function FirstIndex(s: seq<Item>, t: string): (r: nat)
    requires t in TitleSet(s)
    ensures r < |s| && s[r].title == t
    ensures forall j :: 0 <= j < r ==> s[j].title != t
  {
    var p := s[..|s| - 1];
    assert s == p + [s[|s| - 1]];
    if t in TitleSet(p) then FirstIndex(p, t) else |s| - 1
  }

  /** How each of the functions above changes when one more item is walked. */
  lemma Extend(p: seq<Item>, x: Item)
    ensures (p + [x])[..|p|] == p
    ensures TitleSet(p + [x]) == TitleSet(p) + {x.title}
    ensures FirstOccurrences(p + [x]) ==
      if x.title in TitleSet(p) then FirstOccurrences(p) else FirstOccurrences(p) + [x]
    ensures TotalWeight(p + [x]) == TotalWeight(p) + if x.title in TitleSet(p) then 0.5 else 1.0
  {
    assert (p + [x])[..|p|] == p;
  }

  lemma FirstOccurrencesExtend(p: seq<Item>, x: Item)
    ensures FirstOccurrences(p + [x]) ==
      if x.title in TitleSet(p) then FirstOccurrences(p) else FirstOccurrences(p) + [x]
  {
    assert (p + [x])[..|p|] == p;
  }

  lemma TitleSetExtend(p: seq<Item>, x: Item)
    ensures TitleSet(p + [x]) == TitleSet(p) + {x.title}
  {
  }

  lemma CountExtend(p: seq<Item>, x: Item, t: string)
    ensures Count(p + [x], t) == Count(p, t) + if x.title == t then 1 else 0
  {
    assert (p + [x])[..|p|] == p;
  }

  /** A walked item adds 0.5 to the weight of a title already seen and 1 to a new one. */
  lemma WeightStep(p: seq<Item>, x: Item)
    ensures Weight(p + [x], x.title) == Weight(p, x.title) + if x.title in TitleSet(p) then 0.5 else 1.0
  {
    CountExtend(p, x, x.title);
    CountPositive(p, x.title);
  }

  /** The weight table after one more item: a repeat adds 0.5, a new title gets 1. */
  lemma WeightsExtend(p: seq<Item>, x: Item)
    ensures WeightsOf(p + [x]) == WeightsOf(p)[x.title :=
      if x.title in TitleSet(p) then WeightsOf(p)[x.title] + 0.5 else 1.0]
  {
    TitleSetExtend(p, x);
    var m1 := WeightsOf(p + [x]);
    var m2 := WeightsOf(p)[x.title := if x.title in TitleSet(p) then WeightsOf(p)[x.title] + 0.5 else 1.0];
    assert m1.Keys == m2.Keys;
    forall t | t in m1.Keys ensures m1[t] == m2[t] {
      if t == x.title {
        WeightStep(p, x);
      } else {
        CountExtend(p, x, t);
      }
    }
  }

  lemma {:induction false} CountPositive(s: seq<Item>, t: string)
    ensures Count(s, t) > 0 <==> t in TitleSet(s)
  {
    if s != [] {
      var p, x := s[..|s| - 1], s[|s| - 1];
      assert s == p + [x];
      Extend(p, x);
      CountExtend(p, x, t);
      CountPositive(p, t);
    }
  }

  lemma WeightsAtLeastOne(s: seq<Item>)
    ensures forall t :: t in WeightsOf(s) ==> WeightsOf(s)[t] >= 1.0
  {
    forall t | t in WeightsOf(s) ensures WeightsOf(s)[t] >= 1.0 {
      CountPositive(s, t);
    }
  }

  lemma FirstIndexExtend(p: seq<Item>, x: Item, t: string)
    requires t in TitleSet(p)
    ensures t in TitleSet(p + [x]) && FirstIndex(p + [x], t) == FirstIndex(p, t)
  {
    Extend(p, x);
  }

  lemma {:induction false} FirstOccurrencesTitles(s: seq<Item>)
    ensures DistinctTitles(FirstOccurrences(s))
    ensures TitleSet(FirstOccurrences(s)) == TitleSet(s)
  {
    if s != [] {
      var p, x := s[..|s| - 1], s[|s| - 1];
      assert s == p + [x];
      Extend(p, x);
      FirstOccurrencesTitles(p);
      var fo := FirstOccurrences(p);
      if x.title !in TitleSet(p) {
        assert TitleSet(fo + [x]) == TitleSet(fo) + {x.title} by {
          Extend(fo, x);
        }
        forall i | 0 <= i < |fo| ensures fo[i].title != x.title {
          assert fo[i] in fo;
        }
      }
    }
  }

  /** Every reference title is a walked title. */
  lemma FirstOccurrenceTitlesWalked(s: seq<Item>)
    ensures forall k :: 0 <= k < |FirstOccurrences(s)| ==> FirstOccurrences(s)[k].title in TitleSet(s)
  {
    FirstOccurrencesTitles(s);
    var fo := FirstOccurrences(s);
    forall k | 0 <= k < |fo| ensures fo[k].title in TitleSet(s) {
      assert fo[k] in fo;
    }
  }

  /** Each reference item is the first walked item of its title. */
  lemma {:induction false} FirstOccurrencesAreFirst(s: seq<Item>)
    ensures forall k :: 0 <= k < |FirstOccurrences(s)| ==> FirstOccurrences(s)[k].title in TitleSet(s)
    ensures forall k :: 0 <= k < |FirstOccurrences(s)| ==>
      FirstOccurrences(s)[k] == s[FirstIndex(s, FirstOccurrences(s)[k].title)]
  {
    FirstOccurrenceTitlesWalked(s);
    if s != [] {
      var p, x := s[..|s| - 1], s[|s| - 1];
      assert s == p + [x];
      TitleSetExtend(p, x);
      FirstOccurrencesExtend(p, x);
      FirstOccurrencesAreFirst(p);
      FirstOccurrenceTitlesWalked(p);
      var fo := FirstOccurrences(p);
      forall k | 0 <= k < |fo| ensures FirstIndex(s, fo[k].title) == FirstIndex(p, fo[k].title) {
        FirstIndexExtend(p, x, fo[k].title);
      }
      if x.title !in TitleSet(p) {
        assert FirstIndex(s, x.title) == |p|;
      }
    }
  }

  /** The reference items stand in the order their titles were first walked. */
  lemma {:induction false} FirstOccurrencesInOrder(s: seq<Item>)
    ensures forall k :: 0 <= k < |FirstOccurrences(s)| ==> FirstOccurrences(s)[k].title in TitleSet(s)
    ensures forall i, j :: 0 <= i < j < |FirstOccurrences(s)| ==>
      FirstIndex(s, FirstOccurrences(s)[i].title) < FirstIndex(s, FirstOccurrences(s)[j].title)
  {
    FirstOccurrenceTitlesWalked(s);
    if s != [] {
      var p, x := s[..|s| - 1], s[|s| - 1];
      assert s == p + [x];
      TitleSetExtend(p, x);
      FirstOccurrencesExtend(p, x);
      FirstOccurrencesInOrder(p);
      FirstOccurrenceTitlesWalked(p);
      var fo := FirstOccurrences(p);
      forall k | 0 <= k < |fo| ensures FirstIndex(s, fo[k].title) == FirstIndex(p, fo[k].title) < |p| {
        FirstIndexExtend(p, x, fo[k].title);
      }
      if x.title !in TitleSet(p) {
        assert FirstIndex(s, x.title) == |p|;
      }
    }
  }

  lemma {:induction false} SumWeightsExtend(refs: seq<Item>, p: seq<Item>, x: Item)
    requires DistinctTitles(refs)
    ensures SumWeights(refs, p + [x]) == SumWeights(refs, p) +
      if x.title in TitleSet(refs) then Weight(p + [x], x.title) - Weight(p, x.title) else 0.0
  {
    Extend(p, x);
    if refs != [] {
      var q, r := refs[..|refs| - 1], refs[|refs| - 1];
      assert refs == q + [r];
      Extend(q, r);
      SumWeightsExtend(q, p, x);
      CountExtend(p, x, r.title);
      if r.title == x.title {
        forall i | 0 <= i < |q| ensures q[i].title != x.title {
          assert refs[i] == q[i];
        }
        assert x.title !in TitleSet(q);
      }
    }
  }

  lemma SumWeightsLast(refs: seq<Item>, x: Item, s: seq<Item>)
    ensures SumWeights(refs + [x], s) == SumWeights(refs, s) + Weight(s, x.title)
  {
    assert (refs + [x])[..|refs|] == refs;
  }

  /** The running weight sum equals the sum of the weights of the reference titles. */
  lemma {:induction false} TotalWeightIsSum(s: seq<Item>)
    ensures SumWeights(FirstOccurrences(s), s) == TotalWeight(s)
  {
    if s != [] {
      var p, x := s[..|s| - 1], s[|s| - 1];
      assert s == p + [x];
      TotalWeightIsSum(p);
      FirstOccurrencesTitles(p);
      var fo := FirstOccurrences(p);
      SumWeightsExtend(fo, p, x);
      WeightStep(p, x);
      Extend(p, x);
      if x.title !in TitleSet(p) {
        CountPositive(p, x.title);
        assert Weight(p, x.title) == 0.0;
        SumWeightsLast(fo, x, s);
      }
    }
  }

  lemma {:induction false} StopFromSpec(s: seq<Item>, n: int, j: nat)
    requires j <= |s|
    ensures j <= StopFrom(s, n, j) <= |s|
    ensures forall i :: j < i < StopFrom(s, n, j) ==> TotalWeight(s[..i]) < n as real
    ensures StopFrom(s, n, j) < |s| ==> j < StopFrom(s, n, j) && TotalWeight(s[..StopFrom(s, n, j)]) >= n as real
    decreases |s| - j
  {
    if j < |s| && TotalWeight(s[..j + 1]) < n as real {
      StopFromSpec(s, n, j + 1);
    }
  }

  /**
   * The walk stops right after the first item that brings the running weight
   * to `n` or more, and consumes everything when no prefix gets there.
   */
  lemma StopIndexSpec(s: seq<Item>, n: int)
    ensures StopIndex(s, n) <= |s|
    ensures s != [] ==> StopIndex(s, n) >= 1
    ensures forall i :: 0 < i < StopIndex(s, n) ==> TotalWeight(s[..i]) < n as real
    ensures StopIndex(s, n) < |s| ==> TotalWeight(s[..StopIndex(s, n)]) >= n as real
  {
    StopFromSpec(s, n, 0);
  }

  /** A reference set is empty only when there is no history at all. */
  lemma ReferenceSetNonEmpty(s: seq<Item>, n: int)
    ensures ReferenceSetOf(s, n).refs == [] <==> s == []
  {
    StopIndexSpec(s, n);
    var m := StopIndex(s, n);
    if s != [] {
      var p := s[..m];
      assert p == p[..m - 1] + [p[m - 1]];
      Extend(p[..m - 1], p[m - 1]);
      FirstOccurrencesTitles(p);
      assert p[m - 1].title in TitleSet(p);
    }
  }

  /** Every reference title has a weight, and every weight is at least 1. */
  lemma ReferenceSetWeights(s: seq<Item>, n: int)
    ensures forall k :: 0 <= k < |ReferenceSetOf(s, n).refs| ==>
      ReferenceSetOf(s, n).refs[k].title in ReferenceSetOf(s, n).weights
    ensures forall t :: t in ReferenceSetOf(s, n).weights ==> ReferenceSetOf(s, n).weights[t] >= 1.0
  {
    StopIndexSpec(s, n);
    var p := s[..StopIndex(s, n)];
    FirstOccurrencesTitles(p);
    WeightsAtLeastOne(p);
    var fo := FirstOccurrences(p);
    forall k | 0 <= k < |fo| ensures fo[k].title in WeightsOf(p) {
      assert fo[k] in fo;
    }
  }

  /** Titles A, B, A, C with `num_recent_similar` 2: the walk stops after B, so A keeps weight 1. */
  lemma ReferenceSetExample(a: Item, b: Item, a2: Item, c: Item)
    requires a.title == "A" && b.title == "B" && a2.title == "A" && c.title == "C"
    ensures ReferenceSetOf([a, b, a2, c], 2) == RefSet([a, b], map["A" := 1.0, "B" := 1.0])
  {
    var s := [a, b, a2, c];
    assert s[..1] == [] + [a];
    assert s[..2] == [a] + [b];
    WalkStep([], a);
    WalkStep([a], b);
    assert TitleSet([]) == {};
    assert WeightsOf([]) == map[];
    assert StopFrom(s, 2, 1) == 2;
    assert StopIndex(s, 2) == 2;
  }

  /** The four running values after one more walked item. */
  lemma WalkStep(p: seq<Item>, x: Item)
    ensures TitleSet(p + [x]) == TitleSet(p) + {x.title}
    ensures FirstOccurrences(p + [x]) ==
      if x.title in TitleSet(p) then FirstOccurrences(p) else FirstOccurrences(p) + [x]
    ensures TotalWeight(p + [x]) == TotalWeight(p) + if x.title in TitleSet(p) then 0.5 else 1.0
    ensures x.title in TitleSet(p) ==> x.title in WeightsOf(p)
    ensures WeightsOf(p + [x]) == WeightsOf(p)[x.title :=
      if x.title in TitleSet(p) then WeightsOf(p)[x.title] + 0.5 else 1.0]
  {
    Extend(p, x);
    WeightsExtend(p, x);
  }

  /** One pass of the loop body: the running values after one more item. */
  method Visit(ghost walked: seq<Item>, titles: set<string>, refs: seq<Item>, weights: map<string, real>,
               weightSum: real, item: Item)
    returns (titles': set<string>, refs': seq<Item>, weights': map<string, real>, weightSum': real)
    requires titles == TitleSet(walked) && refs == FirstOccurrences(walked)
    requires weights == WeightsOf(walked) && weightSum == TotalWeight(walked)
    ensures titles' == TitleSet(walked + [item]) && refs' == FirstOccurrences(walked + [item])
    ensures weights' == WeightsOf(walked + [item]) && weightSum' == TotalWeight(walked + [item])
  {
    WalkStep(walked, item);
    titles', refs', weights', weightSum' := titles, refs, weights, weightSum;
    if item.title in titles {
      weights' := weights[item.title := weights[item.title] + 0.5];
      weightSum' := weightSum + 0.5;
    } else {
      refs' := refs + [item];
      titles' := titles + {item.title};
      weights' := weights[item.title := 1.0];
      weightSum' := weightSum + 1.0;
    }
  }

  /**
   * The loop of `sort_by_recommended` over the history, newest first: `titles`,
   * `ref_items`, `weights` and `weight_sum` are updated per item and the loop
   * breaks once `weight_sum` reaches `num_recent_similar`.
   */
  method Walk(items: seq<Item>, n: int) returns (refs: seq<Item>, weights: map<string, real>, weightSum: real)
    ensures RefSet(refs, weights) == ReferenceSetOf(items, n)
    ensures weightSum == TotalWeight(items[..StopIndex(items, n)])
  {
    var titles: set<string> := {};
    refs, weights, weightSum := [], map[], 0.0;
    var i := 0;
    ghost var walked: seq<Item> := [];
    while i < |items|
      invariant 0 <= i <= |items| && walked == items[..i]
      invariant StopFrom(items, n, i) == StopIndex(items, n)
      invariant titles == TitleSet(walked) && refs == FirstOccurrences(walked)
      invariant weights == WeightsOf(walked) && weightSum == TotalWeight(walked)
    {
      var item := items[i];
      titles, refs, weights, weightSum := Visit(walked, titles, refs, weights, weightSum, item);
      walked := walked + [item];
      i := i + 1;
      assert walked == items[..i];
      if weightSum >= n as real {
        assert StopFrom(items, n, i - 1) == i;
        break;
      }
    }
  }

  /** The history sorted newest first, then walked. */
  method BuildReferenceSet(watchedMovies: seq<Item>, watchedShows: seq<Item>, numRecentSimilar: int)
    returns (refs: seq<Item>, weights: map<string, real>, weightSum: real)
    ensures var items := SortBy(LastPlayed, true, watchedMovies + watchedShows);
      && RefSet(refs, weights) == ReferenceSetOf(items, numRecentSimilar)
      && weightSum == TotalWeight(items[..StopIndex(items, numRecentSimilar)])
  {
    var items := SortBy(LastPlayed, true, watchedMovies + watchedShows);
    refs, weights, weightSum := Walk(items, numRecentSimilar);
  }
}
