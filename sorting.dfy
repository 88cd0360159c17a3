/**
 * The array pipeline pieces the views are built from: `filter`, a stable
 * `sort` with a numeric comparator, and `slice(0, n)`.
 *
 * JavaScript's `Array.prototype.sort` is stable, so `sort((a, b) => key(b) - key(a))`
 * has exactly one possible result: the elements ordered by descending key,
 * equal keys keeping their input order. `SortDesc` is that result; an
 * ascending sort is `SortDesc` on the negated key.
 */
module Sorting {
  import opened Wrappers

  /** `s.filter(p)`. */
  function Filter<T>(s: seq<T>, p: T -> bool): seq<T>
  {
    if s == [] then [] else Filter(s[..|s| - 1], p) + (if p(s[|s| - 1]) then [s[|s| - 1]] else [])
  }

  lemma {:induction false} FilterMembers<T>(s: seq<T>, p: T -> bool)
    ensures forall x :: x in Filter(s, p) <==> x in s && p(x)
    ensures multiset(Filter(s, p)) <= multiset(s)
    ensures |Filter(s, p)| <= |s|
  {
    if s != [] {
      FilterMembers(s[..|s| - 1], p);
      assert s == s[..|s| - 1] + [s[|s| - 1]];
    }
  }

  /** Filtering a sequence extended by one element. */
  lemma FilterSnoc<T>(s: seq<T>, x: T, p: T -> bool)
    ensures Filter(s + [x], p) == Filter(s, p) + (if p(x) then [x] else [])
  {
    assert (s + [x])[..|s + [x]| - 1] == s;
  }

  /** The conjunction of two element tests. */
  function Both<T>(p: T -> bool, q: T -> bool): T -> bool
  {
    x => p(x) && q(x)
  }

  /** Filtering by `p` and then by `q` keeps what satisfies both. */
  lemma {:induction false} FilterFilter<T>(s: seq<T>, p: T -> bool, q: T -> bool)
    ensures Filter(Filter(s, p), q) == Filter(s, Both(p, q))
  {
    if s != [] {
      var init, last := s[..|s| - 1], s[|s| - 1];
      FilterFilter(init, p, q);
      assert s[..|s| - 1] == init;
      assert Filter(s, p) == Filter(init, p) + (if p(last) then [last] else []);
      assert Filter(s, Both(p, q)) == Filter(init, Both(p, q)) + (if p(last) && q(last) then [last] else []);
      if p(last) {
        FilterSnoc(Filter(init, p), last, q);
      } else {
        assert Filter(s, p) == Filter(init, p);
      }
    }
  }

  /** A filter that keeps no element leaves nothing. */
  lemma {:induction false} FilterNone<T>(s: seq<T>, p: T -> bool)
    requires forall x :: x in s ==> !p(x)
    ensures Filter(s, p) == []
  {
    if s != [] {
      FilterNone(s[..|s| - 1], p);
    }
  }

  /** A filter that keeps every element changes nothing. */
  lemma {:induction false} FilterAll<T>(s: seq<T>, p: T -> bool)
    requires forall x :: x in s ==> p(x)
    ensures Filter(s, p) == s
  {
    if s != [] {
      FilterAll(s[..|s| - 1], p);
      assert s == s[..|s| - 1] + [s[|s| - 1]];
    }
  }

  /** Two tests that agree on every element filter alike. */
  lemma {:induction false} FilterAgree<T>(s: seq<T>, p: T -> bool, q: T -> bool)
    requires forall x :: x in s ==> p(x) == q(x)
    ensures Filter(s, p) == Filter(s, q)
  {
    if s != [] {
      FilterAgree(s[..|s| - 1], p, q);
    }
  }

  /** `s.findIndex(p)`: the first index whose element passes `p`, or -1. */
  function FindIndex<T>(s: seq<T>, p: T -> bool): (r: int)
    ensures -1 <= r < |s|
    ensures r >= 0 ==> p(s[r]) && forall j :: 0 <= j < r ==> !p(s[j])
    ensures r == -1 <==> forall j :: 0 <= j < |s| ==> !p(s[j])
  {
    if s == [] then -1
    else if p(s[0]) then 0
    else
      var r := FindIndex(s[1..], p);
      assert forall j :: 0 < j < |s| ==> s[j] == s[1..][j - 1];
      if r == -1 then -1 else r + 1
  }

  /** `s.find(p)`: the first element that passes `p`, or nothing. */
  function Find<T>(s: seq<T>, p: T -> bool): (r: Option<T>)
    ensures r.Some? <==> exists j :: 0 <= j < |s| && p(s[j])
    ensures r.Some? ==> var i := FindIndex(s, p); i >= 0 && r.value == s[i]
  {
    var i := FindIndex(s, p);
    if i >= 0 then Some(s[i]) else None
  }

  /** Keys in descending order, the order `sort((a, b) => key(b) - key(a))` produces. */
  ghost predicate SortedDesc<T>(s: seq<T>, key: T -> real)
  {
    forall i, j :: 0 <= i < j < |s| ==> key(s[i]) >= key(s[j])
  }

  /** The elements of `s` whose key is `k`, in order: sorting stably must keep this the same. */
  ghost function SameKey<T>(s: seq<T>, key: T -> real, k: real): seq<T>
  {
    if s == [] then [] else (if key(s[0]) == k then [s[0]] else []) + SameKey(s[1..], key, k)
  }

  /** Puts `x` in front of the first element whose key is not larger than its own. */
  function InsertDesc<T>(x: T, s: seq<T>, key: T -> real): seq<T>
  {
    if s == [] || key(s[0]) <= key(x) then [x] + s
    else [s[0]] + InsertDesc(x, s[1..], key)
  }

  /** The stable descending sort of `s` by `key`. */
  function SortDesc<T>(s: seq<T>, key: T -> real): seq<T>
  {
    if s == [] then [] else InsertDesc(s[0], SortDesc(s[1..], key), key)
  }

  lemma {:induction false} InsertDescPerm<T>(x: T, s: seq<T>, key: T -> real)
    ensures multiset(InsertDesc(x, s, key)) == multiset(s) + multiset{x}
    ensures |InsertDesc(x, s, key)| == |s| + 1
  {
    if s != [] && key(s[0]) > key(x) {
      InsertDescPerm(x, s[1..], key);
      assert s == [s[0]] + s[1..];
    }
  }

  lemma {:induction false} InsertDescSorted<T>(x: T, s: seq<T>, key: T -> real)
    requires SortedDesc(s, key)
    ensures SortedDesc(InsertDesc(x, s, key), key)
  {
    if s == [] {
      ConsSorted(x, s, key);
    } else if key(s[0]) <= key(x) {
      HeadLargest(s, key);
      ConsSorted(x, s, key);
    } else {
      var t := InsertDesc(x, s[1..], key);
      InsertDescSorted(x, s[1..], key);
      InsertDescPerm(x, s[1..], key);
      HeadLargest(s, key);
      forall y | y in t
        ensures key(s[0]) >= key(y)
      {
        assert y in multiset(s[1..]) + multiset{x};
        if y != x {
          assert y in s[1..];
          assert y in s;
        }
      }
      ConsSorted(s[0], t, key);
    }
  }

  /** The head of a sorted list has the largest key. */
  lemma HeadLargest<T>(s: seq<T>, key: T -> real)
    requires s != [] && SortedDesc(s, key)
    ensures forall y :: y in s ==> key(s[0]) >= key(y)
  {
    forall y | y in s
      ensures key(s[0]) >= key(y)
    {
      var j :| 0 <= j < |s| && s[j] == y;
    }
  }

  /** A sorted list stays sorted behind an element whose key is at least each of its keys. */
  lemma ConsSorted<T>(h: T, t: seq<T>, key: T -> real)
    requires SortedDesc(t, key) && forall y :: y in t ==> key(h) >= key(y)
    ensures SortedDesc([h] + t, key)
  {
    var r := [h] + t;
    forall i, j | 0 <= i < j < |r|
      ensures key(r[i]) >= key(r[j])
    {
      assert r[j] == t[j - 1];
      if i > 0 {
        assert r[i] == t[i - 1];
      }
    }
  }

  lemma {:induction false} InsertDescStable<T>(x: T, s: seq<T>, key: T -> real, k: real)
    ensures SameKey(InsertDesc(x, s, key), key, k) == (if key(x) == k then [x] else []) + SameKey(s, key, k)
  {
    if s == [] || key(s[0]) <= key(x) {
      SameKeyCons(x, s, key, k);
    } else {
      var t := InsertDesc(x, s[1..], key);
      InsertDescStable(x, s[1..], key, k);
      assert InsertDesc(x, s, key) == [s[0]] + t;
      SameKeyCons(s[0], t, key, k);
      SameKeyCons(s[0], s[1..], key, k);
      assert [s[0]] + s[1..] == s;
      var rest := SameKey(s[1..], key, k);
      if key(x) == k {
        assert key(s[0]) != k;
        assert SameKey(t, key, k) == [x] + rest;
      } else {
        assert SameKey(t, key, k) == rest;
      }
    }
  }

  /** The elements with key `k` of a list with `h` in front. */
  lemma SameKeyCons<T>(h: T, t: seq<T>, key: T -> real, k: real)
    ensures SameKey([h] + t, key, k) == (if key(h) == k then [h] else []) + SameKey(t, key, k)
  {
    assert ([h] + t)[1..] == t;
  }

  /** `SortDesc` orders by descending key, is a permutation, and is stable. */
  lemma {:induction false} SortDescProps<T>(s: seq<T>, key: T -> real)
    ensures SortedDesc(SortDesc(s, key), key)
    ensures multiset(SortDesc(s, key)) == multiset(s)
    ensures |SortDesc(s, key)| == |s|
    ensures forall k :: SameKey(SortDesc(s, key), key, k) == SameKey(s, key, k)
  {
    SortDescOrdered(s, key);
    forall k
      ensures SameKey(SortDesc(s, key), key, k) == SameKey(s, key, k)
    {
      SortDescStable(s, key, k);
    }
  }

  /** A list is its head and its tail. */
  lemma ConsMultiset<T>(s: seq<T>)
    requires s != []
    ensures multiset(s) == multiset(s[1..]) + multiset{s[0]}
  {
    assert s == [s[0]] + s[1..];
  }

  /** `SortDesc` orders by descending key and is a permutation. */
  lemma {:induction false} SortDescOrdered<T>(s: seq<T>, key: T -> real)
    ensures SortedDesc(SortDesc(s, key), key)
    ensures multiset(SortDesc(s, key)) == multiset(s)
    ensures |SortDesc(s, key)| == |s|
  {
    if s != [] {
      var t := SortDesc(s[1..], key);
      SortDescOrdered(s[1..], key);
      assert SortDesc(s, key) == InsertDesc(s[0], t, key);
      InsertDescSorted(s[0], t, key);
      InsertDescPerm(s[0], t, key);
      ConsMultiset(s);
    }
  }

  /** Sorting neither adds nor drops an element. */
  lemma SortDescMembers<T>(s: seq<T>, key: T -> real)
    ensures forall x :: x in SortDesc(s, key) <==> x in s
  {
    SortDescProps(s, key);
    forall x
      ensures x in SortDesc(s, key) <==> x in s
    {
      assert x in SortDesc(s, key) <==> x in multiset(SortDesc(s, key));
      assert x in s <==> x in multiset(s);
    }
  }

  /** The elements with key `k` come out of the sort in the order they went in. */
  lemma {:induction false} SortDescStable<T>(s: seq<T>, key: T -> real, k: real)
    ensures SameKey(SortDesc(s, key), key, k) == SameKey(s, key, k)
  {
    if s != [] {
      SortDescStable(s[1..], key, k);
      InsertDescStable(s[0], SortDesc(s[1..], key), key, k);
      SameKeyCons(s[0], s[1..], key, k);
      assert [s[0]] + s[1..] == s;
    }
  }

  /** In a descending list, everything before position `n` has a key at least that of everything after. */
  lemma SplitSorted<T>(s: seq<T>, n: nat, key: T -> real)
    requires n <= |s| && SortedDesc(s, key)
    ensures forall x, y :: x in s[..n] && y in s[n..] ==> key(x) >= key(y)
  {
    forall x, y | x in s[..n] && y in s[n..]
      ensures key(x) >= key(y)
    {
      var i :| 0 <= i < n && s[..n][i] == x;
      var j :| 0 <= j < |s| - n && s[n..][j] == y;
      assert s[i] == x && s[n + j] == y;
    }
  }

  /** `slice(0, end)`: a negative end counts back from the length. */
  function SlicePrefix<T>(s: seq<T>, end: int): (r: seq<T>)
    ensures |r| == if end >= 0 then (if end < |s| then end else |s|)
                   else (if |s| + end > 0 then |s| + end else 0)
    ensures r <= s
  {
    if end >= 0 then (if end < |s| then s[..end] else s)
    else if |s| + end > 0 then s[..|s| + end] else []
  }

  /** The elements of a prefix with a given key are a prefix of those of the whole. */
  lemma {:induction false} SameKeyPrefix<T>(s: seq<T>, n: nat, key: T -> real, k: real)
    requires n <= |s|
    ensures SameKey(s[..n], key, k) <= SameKey(s, key, k)
    decreases n
  {
    if n > 0 {
      assert s[..n][1..] == s[1..][..n - 1];
      SameKeyPrefix(s[1..], n - 1, key, k);
    }
  }

  /**
   * `[...s].sort(byKeyDesc).slice(0, n)`: the first `min(n, |s|)` elements
   * in descending order; with the ones left out they make up `s`; none has
   * a smaller key than one left out; equal keys keep their input order.
   */
  lemma TopSpec<T>(s: seq<T>, n: nat, key: T -> real)
    ensures var sorted := SortDesc(s, key);
      var r := SlicePrefix(sorted, n);
      && |r| == (if n < |s| then n else |s|)
      && multiset(r) + multiset(sorted[|r|..]) == multiset(s)
      && SortedDesc(r, key)
      && (forall x, y :: x in r && y in sorted[|r|..] ==> key(x) >= key(y))
      && (forall k :: SameKey(r, key, k) <= SameKey(s, key, k))
  {
    var sorted := SortDesc(s, key);
    SortDescProps(s, key);
    var m := if n < |s| then n else |s|;
    assert SlicePrefix(sorted, n) == sorted[..m];
    PrefixSplit(sorted, m, key);
  }

  /** A prefix of a descending list and the rest: together the whole, the prefix descending and first. */
  lemma PrefixSplit<T>(s: seq<T>, n: nat, key: T -> real)
    requires n <= |s| && SortedDesc(s, key)
    ensures multiset(s[..n]) + multiset(s[n..]) == multiset(s)
    ensures SortedDesc(s[..n], key)
    ensures forall x, y :: x in s[..n] && y in s[n..] ==> key(x) >= key(y)
    ensures forall k :: SameKey(s[..n], key, k) <= SameKey(s, key, k)
  {
    assert s == s[..n] + s[n..];
    SplitSorted(s, n, key);
    forall k
      ensures SameKey(s[..n], key, k) <= SameKey(s, key, k)
    {
      SameKeyPrefix(s, n, key, k);
    }
  }

  /**
   * The first `n` of the descending order come from `s`, and no element of
   * `s` left out has a larger key than one kept.
   */
  lemma TopLeftOut<T>(s: seq<T>, n: nat, key: T -> real)
    ensures var r := SlicePrefix(SortDesc(s, key), n);
      && (forall x :: x in r ==> x in s)
      && (forall x, y :: x in r && y in s && y !in r ==> key(x) >= key(y))
  {
    var sorted := SortDesc(s, key);
    var r := SlicePrefix(sorted, n);
    TopSpec(s, n, key);
    forall x | x in r
      ensures x in s
    {
      assert x in multiset(r) + multiset(sorted[|r|..]);
    }
    forall x, y | x in r && y in s && y !in r
      ensures key(x) >= key(y)
    {
      assert y in multiset(s);
      assert y in sorted[|r|..] by {
        assert y in multiset(r) + multiset(sorted[|r|..]);
      }
    }
  }

  /** Filtering keeps the relative order of what it keeps, so a descending list stays descending. */
  lemma {:induction false} FilterSorted<T>(s: seq<T>, p: T -> bool, key: T -> real)
    requires SortedDesc(s, key)
    ensures SortedDesc(Filter(s, p), key)
  {
    if s != [] {
      var init, last := s[..|s| - 1], s[|s| - 1];
      assert SortedDesc(init, key);
      FilterSorted(init, p, key);
      var f := Filter(init, p);
      assert Filter(s, p) == f + (if p(last) then [last] else []);
      if p(last) {
        forall x | x in init
          ensures key(x) >= key(last)
        {
          var h :| 0 <= h < |init| && init[h] == x;
          assert s[h] == x;
        }
        FilterBound(init, p, key, key(last));
        SortedSnoc(f, last, key);
      }
    }
  }

  /** A bound on every key of a list bounds the keys of what a filter keeps. */
  lemma FilterBound<T>(s: seq<T>, p: T -> bool, key: T -> real, b: real)
    requires forall x :: x in s ==> key(x) >= b
    ensures forall x :: x in Filter(s, p) ==> key(x) >= b
  {
    FilterMembers(s, p);
  }

  /** Appending an element no larger than any present keeps a list descending. */
  lemma SortedSnoc<T>(f: seq<T>, y: T, key: T -> real)
    requires SortedDesc(f, key)
    requires forall x :: x in f ==> key(x) >= key(y)
    ensures SortedDesc(f + [y], key)
  {
    var g := f + [y];
    forall i, j | 0 <= i < j < |g|
      ensures key(g[i]) >= key(g[j])
    {
      assert g[i] == f[i];
      if j < |f| {
        assert g[j] == f[j];
      }
    }
  }

  /** The stable sort leaves a list that is already in descending order as it is. */
  lemma {:induction false} SortDescSorted<T>(s: seq<T>, key: T -> real)
    requires SortedDesc(s, key)
    ensures SortDesc(s, key) == s
  {
    if s != [] {
      assert SortedDesc(s[1..], key) by {
        forall i, j | 0 <= i < j < |s[1..]|
          ensures key(s[1..][i]) >= key(s[1..][j])
        {
          assert s[1..][i] == s[i + 1] && s[1..][j] == s[j + 1];
        }
      }
      SortDescSorted(s[1..], key);
      if |s| > 1 {
        assert key(s[1..][0]) <= key(s[0]);
      }
      assert [s[0]] + s[1..] == s;
    }
  }

  /** An element occurs in the filtered list as often as in the list when it passes, else never. */
  lemma {:induction false} FilterCount<T>(s: seq<T>, p: T -> bool, x: T)
    ensures multiset(Filter(s, p))[x] == if p(x) then multiset(s)[x] else 0
  {
    if s != [] {
      var init, last := s[..|s| - 1], s[|s| - 1];
      FilterCount(init, p, x);
      assert s == init + [last];
      assert multiset(s) == multiset(init) + multiset{last};
      assert Filter(s, p) == Filter(init, p) + (if p(last) then [last] else []);
    }
  }
}
