/**
 * The `sorted(items, key=..., reverse=...)[:limit]` idiom every widget ends with:
 * a stable sort on one record field, ascending or descending, and Python's
 * slice `[:limit]`.
 */
module Sorting {
  import opened Items

  /** `a` may stand before `b` in a list sorted on `f` (descending when `desc`). */
  predicate Before(f: SortField, desc: bool, a: Item, b: Item) {
    if desc then KeyLe(KeyOf(f, b), KeyOf(f, a)) else KeyLe(KeyOf(f, a), KeyOf(f, b))
  }

  predicate SortedBy(f: SortField, desc: bool, s: seq<Item>) {
    forall i, j :: 0 <= i < j < |s| ==> Before(f, desc, s[i], s[j])
  }

  lemma BeforeSameKey(f: SortField, desc: bool, a: Item, b: Item)
    requires KeyOf(f, a) == KeyOf(f, b)
    ensures Before(f, desc, a, b)
  {
    KeyLeRefl(KeyOf(f, a));
  }

  lemma BeforeTotal(f: SortField, desc: bool, a: Item, b: Item)
    ensures Before(f, desc, a, b) || Before(f, desc, b, a)
  {
    KeyLeTotal(KeyOf(f, a), KeyOf(f, b));
  }

  lemma BeforeTrans(f: SortField, desc: bool, a: Item, b: Item, c: Item)
    requires Before(f, desc, a, b) && Before(f, desc, b, c)
    ensures Before(f, desc, a, c)
  {
    if desc {
      KeyLeTrans(KeyOf(f, c), KeyOf(f, b), KeyOf(f, a));
    } else {
      KeyLeTrans(KeyOf(f, a), KeyOf(f, b), KeyOf(f, c));
    }
  }

  /** Places `x` after every element of the sorted `s` that may stand before it. */
  function Insert(f: SortField, desc: bool, x: Item, s: seq<Item>): (r: seq<Item>)
    ensures multiset(r) == multiset(s) + multiset{x}
    ensures |r| == |s| + 1
  {
    if s == [] then [x]
    else if Before(f, desc, s[0], x) then
      assert s == [s[0]] + s[1..];
      [s[0]] + Insert(f, desc, x, s[1..])
    else [x] + s
  }

  /** The stable sort: the input's elements are inserted one by one, in input order. */
  function SortBy(f: SortField, desc: bool, s: seq<Item>): (r: seq<Item>)
    ensures multiset(r) == multiset(s)
    ensures |r| == |s|
  {
    if s == [] then []
    else
      assert s == s[..|s| - 1] + [s[|s| - 1]];
      Insert(f, desc, s[|s| - 1], SortBy(f, desc, s[..|s| - 1]))
  }

  /** Python's `s[:n]`: a negative `n` drops elements from the end. */
  function Take(s: seq<Item>, n: int): (r: seq<Item>)
    ensures |r| <= |s| && r == s[..|r|]
    ensures 0 <= n ==> |r| == if n < |s| then n else |s|
    ensures n < 0 ==> |r| == if |s| + n < 0 then 0 else |s| + n
  {
    if 0 <= n then (if n < |s| then s[..n] else s)
    else if |s| + n < 0 then []
    else s[..|s| + n]
  }

  /** The elements of `s` whose key on `f` is `k`, in order. */
  function WithKey(f: SortField, k: Key, s: seq<Item>): seq<Item> {
    if s == [] then []
    else (if KeyOf(f, s[0]) == k then [s[0]] else []) + WithKey(f, k, s[1..])
  }

  lemma {:induction false} WithKeyAppend(f: SortField, k: Key, a: seq<Item>, b: seq<Item>)
    ensures WithKey(f, k, a + b) == WithKey(f, k, a) + WithKey(f, k, b)
  {
    if a == [] {
      assert a + b == b;
    } else {
      var c, h := a + b, if KeyOf(f, a[0]) == k then [a[0]] else [];
      assert c[0] == a[0] && c[1..] == a[1..] + b;
      WithKeyAppend(f, k, a[1..], b);
      assert WithKey(f, k, c) == h + WithKey(f, k, a[1..] + b);
      assert WithKey(f, k, a) == h + WithKey(f, k, a[1..]);
    }
  }

  lemma {:induction false} WithKeyAbsent(f: SortField, k: Key, s: seq<Item>)
    requires forall y :: y in s ==> KeyOf(f, y) != k
    ensures WithKey(f, k, s) == []
  {
    if s != [] {
      WithKeyAbsent(f, k, s[1..]);
    }
  }

  lemma SortedTail(f: SortField, desc: bool, s: seq<Item>)
    requires SortedBy(f, desc, s) && s != []
    ensures SortedBy(f, desc, s[1..])
    ensures forall y :: y in s[1..] ==> Before(f, desc, s[0], y)
  {
    forall y | y in s[1..] ensures Before(f, desc, s[0], y) {
      var j :| 0 <= j < |s[1..]| && s[1..][j] == y;
      assert s[j + 1] == y;
    }
  }

  lemma SortedCons(f: SortField, desc: bool, a: Item, t: seq<Item>)
    requires SortedBy(f, desc, t)
    requires forall y :: y in t ==> Before(f, desc, a, y)
    ensures SortedBy(f, desc, [a] + t)
  {
    var s := [a] + t;
    forall i, j | 0 <= i < j < |s| ensures Before(f, desc, s[i], s[j]) {
      if i == 0 {
        assert s[j] == t[j - 1];
        assert s[j] in t;
      } else {
        assert s[i] == t[i - 1] && s[j] == t[j - 1];
      }
    }
  }

  /** Elements of the sorted `s` that `x` may not stand after: none has `x`'s key. */
  lemma InsertFrontFacts(f: SortField, desc: bool, x: Item, s: seq<Item>)
    requires SortedBy(f, desc, s) && s != [] && !Before(f, desc, s[0], x)
    ensures forall y :: y in s ==> Before(f, desc, x, y) && KeyOf(f, y) != KeyOf(f, x)
  {
    BeforeTotal(f, desc, s[0], x);
    forall y | y in s ensures Before(f, desc, x, y) && KeyOf(f, y) != KeyOf(f, x) {
      var j :| 0 <= j < |s| && s[j] == y;
      if j > 0 {
        BeforeTrans(f, desc, x, s[0], y);
      }
      if KeyOf(f, y) == KeyOf(f, x) {
        BeforeSameKey(f, desc, y, x);
        if j > 0 {
          BeforeTrans(f, desc, s[0], y, x);
        }
        assert false;
      }
    }
  }

  lemma {:induction false} InsertSorted(f: SortField, desc: bool, x: Item, s: seq<Item>)
    requires SortedBy(f, desc, s)
    ensures SortedBy(f, desc, Insert(f, desc, x, s))
  {
    if s != [] {
      if Before(f, desc, s[0], x) {
        SortedTail(f, desc, s);
        InsertSorted(f, desc, x, s[1..]);
        var t := Insert(f, desc, x, s[1..]);
        forall y | y in t ensures Before(f, desc, s[0], y) {
          assert y in multiset(t);
          if y != x {
            assert y in multiset(s[1..]);
          }
        }
        SortedCons(f, desc, s[0], t);
      } else {
        InsertFrontFacts(f, desc, x, s);
        SortedCons(f, desc, x, s);
      }
    }
  }

  lemma ConsKeepsSplit(f: SortField, k: Key, a: Item, t: seq<Item>, u: seq<Item>, x: Item)
    requires WithKey(f, k, u) == WithKey(f, k, t) + WithKey(f, k, [x])
    ensures WithKey(f, k, [a] + u) == WithKey(f, k, [a] + t) + WithKey(f, k, [x])
  {
    WithKeyAppend(f, k, [a], u);
    WithKeyAppend(f, k, [a], t);
  }

  lemma {:induction false} InsertStable(f: SortField, desc: bool, k: Key, x: Item, s: seq<Item>)
    requires SortedBy(f, desc, s)
    ensures WithKey(f, k, Insert(f, desc, x, s)) == WithKey(f, k, s) + WithKey(f, k, [x])
  {
    if s == [] {
      assert Insert(f, desc, x, s) == [x];
    } else if Before(f, desc, s[0], x) {
      var t := s[1..];
      SortedTail(f, desc, s);
      InsertStable(f, desc, k, x, t);
      ConsKeepsSplit(f, k, s[0], t, Insert(f, desc, x, t), x);
      assert [s[0]] + t == s;
    } else {
      InsertFrontStable(f, desc, k, x, s);
    }
  }

  /** Inserted at the front, `x` has a key no element of `s` has. */
  lemma InsertFrontStable(f: SortField, desc: bool, k: Key, x: Item, s: seq<Item>)
    requires SortedBy(f, desc, s) && s != [] && !Before(f, desc, s[0], x)
    ensures WithKey(f, k, Insert(f, desc, x, s)) == WithKey(f, k, s) + WithKey(f, k, [x])
  {
    assert Insert(f, desc, x, s) == [x] + s;
    InsertFrontFacts(f, desc, x, s);
    WithKeyAppend(f, k, [x], s);
    if KeyOf(f, x) == k {
      WithKeyAbsent(f, k, s);
    }
  }

  lemma {:induction false} SortBySorted(f: SortField, desc: bool, s: seq<Item>)
    ensures SortedBy(f, desc, SortBy(f, desc, s))
  {
    if s != [] {
      SortBySorted(f, desc, s[..|s| - 1]);
      InsertSorted(f, desc, s[|s| - 1], SortBy(f, desc, s[..|s| - 1]));
    }
  }

  /**
   * Stability: the elements sharing any one key keep their input order,
   * as Python's `sorted` promises, with or without `reverse=True`.
   */
  lemma {:induction false} SortByStable(f: SortField, desc: bool, k: Key, s: seq<Item>)
    ensures WithKey(f, k, SortBy(f, desc, s)) == WithKey(f, k, s)
  {
    if s != [] {
      var p, x := s[..|s| - 1], s[|s| - 1];
      SortByStable(f, desc, k, p);
      SortBySorted(f, desc, p);
      InsertStable(f, desc, k, x, SortBy(f, desc, p));
      WithKeyAppend(f, k, p, [x]);
      assert p + [x] == s;
    }
  }

  lemma {:induction false} InsertLast(f: SortField, desc: bool, x: Item, s: seq<Item>)
    requires forall y :: y in s ==> Before(f, desc, y, x)
    ensures Insert(f, desc, x, s) == s + [x]
  {
    if s != [] {
      InsertLast(f, desc, x, s[1..]);
      assert [s[0]] + (s[1..] + [x]) == s + [x];
    }
  }

  lemma SortedInit(f: SortField, desc: bool, p: seq<Item>, x: Item)
    requires SortedBy(f, desc, p + [x])
    ensures SortedBy(f, desc, p)
    ensures forall y :: y in p ==> Before(f, desc, y, x)
  {
    var s := p + [x];
    assert forall i :: 0 <= i < |p| ==> s[i] == p[i];
    forall y | y in p ensures Before(f, desc, y, x) {
      var j :| 0 <= j < |p| && p[j] == y;
      assert s[j] == y && s[|p|] == x;
    }
  }

  /** Sorting a list that is already sorted leaves it as it is. */
  lemma {:induction false} SortByIdempotent(f: SortField, desc: bool, s: seq<Item>)
    requires SortedBy(f, desc, s)
    ensures SortBy(f, desc, s) == s
  {
    if s != [] {
      var p, x := s[..|s| - 1], s[|s| - 1];
      assert p + [x] == s;
      SortedInit(f, desc, p, x);
      SortByIdempotent(f, desc, p);
      InsertLast(f, desc, x, p);
    }
  }

  /**
   * `r` is `items` ranked on `f` (descending when `desc`) and cut to `limit`:
   * sorted, drawn from `items`, as long as Python's `[:limit]` makes it for a
   * non-negative limit, and no item left out should come before an item kept.
   */
  predicate Ranked(f: SortField, desc: bool, items: seq<Item>, limit: int, r: seq<Item>) {
    && SortedBy(f, desc, r)
    && multiset(r) <= multiset(items)
    && (0 <= limit ==> |r| == if limit < |items| then limit else |items|)
    && (forall x, y :: x in r && y in multiset(items) - multiset(r) ==> Before(f, desc, x, y))
  }

  /**
   * `sorted(items, key=f, reverse=desc)[:limit]`: the result is ranked, and a
   * negative limit drops that many items from the end.
   */
  function SortAndTruncate(f: SortField, desc: bool, items: seq<Item>, limit: int): (r: seq<Item>)
    ensures Ranked(f, desc, items, limit, r)
    ensures limit < 0 ==> |r| == if |items| + limit < 0 then 0 else |items| + limit
  {
    var sorted := SortBy(f, desc, items);
    SortBySorted(f, desc, items);
    var r := Take(sorted, limit);
    assert sorted == r + sorted[|r|..];
    assert multiset(sorted) == multiset(r) + multiset(sorted[|r|..]);
    forall x, y | x in r && y in multiset(items) - multiset(r) ensures Before(f, desc, x, y) {
      var i :| 0 <= i < |r| && r[i] == x;
      assert y in sorted[|r|..];
      var j :| 0 <= j < |sorted[|r|..]| && sorted[|r|..][j] == y;
      assert sorted[|r| + j] == y;
    }
    r
  }

  /** Re-sorting a sorted, truncated list on the same key and limit changes nothing. */
  lemma ResortIsIdentity(f: SortField, desc: bool, items: seq<Item>, limit: int)
    requires 0 <= limit
    ensures SortAndTruncate(f, desc, SortAndTruncate(f, desc, items, limit), limit)
         == SortAndTruncate(f, desc, items, limit)
  {
    var r := SortAndTruncate(f, desc, items, limit);
    SortByIdempotent(f, desc, r);
    assert Take(r, limit) == r;
  }

  /**
   * Ties keep their input order through the sort and the cut: the kept items
   * sharing a key are the first ones of that key in the input, in input order.
   */
  lemma TruncatedStable(f: SortField, desc: bool, k: Key, items: seq<Item>, limit: int)
    ensures var r := WithKey(f, k, SortAndTruncate(f, desc, items, limit));
      |r| <= |WithKey(f, k, items)| && r == WithKey(f, k, items)[..|r|]
  {
    var sorted := SortBy(f, desc, items);
    var t := Take(sorted, limit);
    assert sorted == t + sorted[|t|..];
    WithKeyAppend(f, k, t, sorted[|t|..]);
    SortByStable(f, desc, k, items);
  }
}
