/** Sequence operations that the mock backend reaches through JavaScript's
    built-in Array methods: `filter`, `slice`, `reduce` and `sort`. */
module Seqs {

  datatype Option<T> = None | Some(value: T)

  function Min(a: int, b: int): int { if a <= b then a else b }

  // ---------------------------------------------------------------------------
  // filter
  // ---------------------------------------------------------------------------

  /** `xs.filter(p)`: the elements of xs that satisfy p, in their original order. */
  function Filter<T>(xs: seq<T>, p: T -> bool): (r: seq<T>)
    ensures |r| <= |xs|
    ensures forall i :: 0 <= i < |r| ==> p(r[i])
  {
    if xs == [] then []
    else if p(xs[0]) then [xs[0]] + Filter(xs[1..], p)
    else Filter(xs[1..], p)
  }

  /** a can be obtained from b by deleting elements. */
  predicate IsSubsequence<T(==)>(a: seq<T>, b: seq<T>)
  {
    if a == [] then true
    else if b == [] then false
    else (a[0] == b[0] && IsSubsequence(a[1..], b[1..])) || IsSubsequence(a, b[1..])
  }

  /** Filtering keeps the relative order of the survivors. */
  lemma {:induction false} FilterIsSubsequence<T>(xs: seq<T>, p: T -> bool)
    ensures IsSubsequence(Filter(xs, p), xs)
  {
    if xs != [] {
      FilterIsSubsequence(xs[1..], p);
      if p(xs[0]) {
        assert ([xs[0]] + Filter(xs[1..], p))[1..] == Filter(xs[1..], p);
      }
    }
  }

  /** A subsequence stays one when the longer sequence grows at the end. */
  lemma {:induction false} SubsequenceSnoc<T>(a: seq<T>, b: seq<T>, x: T)
    requires IsSubsequence(a, b)
    ensures IsSubsequence(a, b + [x])
  {
    if a != [] {
      assert (b + [x])[1..] == b[1..] + [x];
      if a[0] == b[0] && IsSubsequence(a[1..], b[1..]) {
        SubsequenceSnoc(a[1..], b[1..], x);
      } else {
        SubsequenceSnoc(a, b[1..], x);
      }
    }
  }

  lemma {:induction false} LastIsSubsequence<T>(b: seq<T>, x: T)
    ensures IsSubsequence([x], b + [x])
  {
    if b != [] {
      assert (b + [x])[1..] == b[1..] + [x];
      LastIsSubsequence(b[1..], x);
    } else {
      assert [x][1..] == [];
    }
  }

  /** Both sequences growing by the same element keeps a subsequence one. */
  lemma {:induction false} SubsequenceAppend<T>(a: seq<T>, b: seq<T>, x: T)
    requires IsSubsequence(a, b)
    ensures IsSubsequence(a + [x], b + [x])
  {
    if a == [] {
      assert a + [x] == [x];
      LastIsSubsequence(b, x);
    } else {
      assert (a + [x])[1..] == a[1..] + [x];
      assert (b + [x])[1..] == b[1..] + [x];
      if a[0] == b[0] && IsSubsequence(a[1..], b[1..]) {
        SubsequenceAppend(a[1..], b[1..], x);
      } else {
        SubsequenceAppend(a, b[1..], x);
      }
    }
  }

  /** Filtering is exact: every occurrence of an element satisfying p is kept
      and every other occurrence is dropped. */
  lemma {:induction false} FilterMultiplicity<T>(xs: seq<T>, p: T -> bool)
    ensures forall x :: multiset(Filter(xs, p))[x] == if p(x) then multiset(xs)[x] else 0
  {
    if xs != [] {
      FilterMultiplicity(xs[1..], p);
      assert xs == [xs[0]] + xs[1..];
    }
  }

  /** A filter whose predicate holds of every element changes nothing. */
  lemma {:induction false} FilterKeepsAll<T>(xs: seq<T>, p: T -> bool)
    requires forall i :: 0 <= i < |xs| ==> p(xs[i])
    ensures Filter(xs, p) == xs
  {
    if xs != [] {
      FilterKeepsAll(xs[1..], p);
    }
  }

  /** Two successive filters are one filter by the conjunction. */
  lemma {:induction false} FilterTwice<T>(xs: seq<T>, p: T -> bool, q: T -> bool, pq: T -> bool)
    requires forall x :: pq(x) == (p(x) && q(x))
    ensures Filter(Filter(xs, p), q) == Filter(xs, pq)
  {
    if xs != [] {
      FilterTwice(xs[1..], p, q, pq);
    }
  }

  /** Filtering distributes over concatenation. */
  lemma {:induction false} FilterAppend<T>(a: seq<T>, b: seq<T>, p: T -> bool)
    ensures Filter(a + b, p) == Filter(a, p) + Filter(b, p)
  {
    if a == [] {
      assert a + b == b;
    } else {
      assert (a + b)[1..] == a[1..] + b;
      FilterAppend(a[1..], b, p);
    }
  }

  /** Filtering one more element at the end. */
  lemma FilterSnoc<T>(xs: seq<T>, x: T, p: T -> bool)
    ensures Filter(xs + [x], p) == Filter(xs, p) + (if p(x) then [x] else [])
  {
    FilterAppend(xs, [x], p);
    assert Filter([x], p) == (if p(x) then [x] else []) + Filter([x][1..], p);
  }

  /** Nothing survives a filter that no element passes. */
  lemma {:induction false} FilterNone<T>(xs: seq<T>, p: T -> bool)
    requires forall i :: 0 <= i < |xs| ==> !p(xs[i])
    ensures Filter(xs, p) == []
  {
    if xs != [] {
      FilterNone(xs[1..], p);
    }
  }

  /** Filters by tests that agree on every element give the same result. */
  lemma {:induction false} FilterExt<T>(xs: seq<T>, p: T -> bool, q: T -> bool)
    requires forall x :: p(x) == q(x)
    ensures Filter(xs, p) == Filter(xs, q)
  {
    if xs != [] {
      FilterExt(xs[1..], p, q);
    }
  }

  // ---------------------------------------------------------------------------
  // slice
  // ---------------------------------------------------------------------------

  /** `xs.slice(start, end)` for non-negative bounds: both are clipped to the length. */
  function Slice<T>(xs: seq<T>, start: nat, end: nat): (r: seq<T>)
    ensures |r| == if Min(start, |xs|) <= Min(end, |xs|) then Min(end, |xs|) - Min(start, |xs|) else 0
    ensures |r| <= |xs| && (start <= end ==> |r| <= end - start)
    ensures start >= |xs| ==> r == []
    ensures forall i :: 0 <= i < |r| ==> start + i < |xs| && r[i] == xs[start + i]
  {
    var lo := Min(start, |xs|);
    var hi := Min(end, |xs|);
    if lo <= hi then xs[lo..hi] else []
  }

  /** Every element of a slice of a filtered sequence satisfies the filter. */
  lemma SliceOfFilter<T>(xs: seq<T>, p: T -> bool, start: nat, end: nat)
    ensures forall i :: 0 <= i < |Slice(Filter(xs, p), start, end)| ==> p(Slice(Filter(xs, p), start, end)[i])
  {
    var f := Filter(xs, p);
    forall i | 0 <= i < |Slice(f, start, end)| ensures p(Slice(f, start, end)[i]) {
      assert Slice(f, start, end)[i] == f[start + i];
    }
  }

  // ---------------------------------------------------------------------------
  // reduce
  // ---------------------------------------------------------------------------

  /** `xs.reduce((s, x) => s + f(x), 0)`. */
  function SumOf<T>(xs: seq<T>, f: T -> int): int
  {
    if xs == [] then 0 else f(xs[0]) + SumOf(xs[1..], f)
  }

  lemma {:induction false} SumOfAppend<T>(a: seq<T>, b: seq<T>, f: T -> int)
    ensures SumOf(a + b, f) == SumOf(a, f) + SumOf(b, f)
  {
    if a == [] {
      assert a + b == b;
    } else {
      assert (a + b)[1..] == a[1..] + b;
      SumOfAppend(a[1..], b, f);
    }
  }

  /** Replacing one element changes the sum by the difference of the two values. */
  lemma {:induction false} SumOfUpdate<T>(xs: seq<T>, k: nat, y: T, f: T -> int)
    requires k < |xs|
    ensures SumOf(xs[k := y], f) == SumOf(xs, f) - f(xs[k]) + f(y)
  {
    if k > 0 {
      assert xs[k := y][1..] == xs[1..][k - 1 := y];
      SumOfUpdate(xs[1..], k - 1, y, f);
    }
  }

  // ---------------------------------------------------------------------------
  // sort
  // ---------------------------------------------------------------------------

  /** The relation a comparator induces: `before(a, b)` when the comparator
      lets a stay in front of b. */
  ghost predicate Connex<T(!new)>(before: (T, T) -> bool)
  {
    forall a, b :: before(a, b) || before(b, a)
  }

  ghost predicate Transitive<T(!new)>(before: (T, T) -> bool)
  {
    forall a, b, c :: before(a, b) && before(b, c) ==> before(a, c)
  }

  ghost predicate Sorted<T>(xs: seq<T>, before: (T, T) -> bool)
  {
    forall i, j :: 0 <= i < j < |xs| ==> before(xs[i], xs[j])
  }

  /** Puts x in front of the first element it may precede. */
  function Insert<T>(x: T, xs: seq<T>, before: (T, T) -> bool): seq<T>
  {
    if xs == [] then [x]
    else if before(x, xs[0]) then [x] + xs
    else [xs[0]] + Insert(x, xs[1..], before)
  }

  /** `Array.prototype.sort`, which is stable: an insertion sort that inserts
      each element in front of the (already sorted) later ones it may precede,
      so elements the comparator ties keep their relative order. */
  function SortBy<T>(xs: seq<T>, before: (T, T) -> bool): seq<T>
  {
    if xs == [] then [] else Insert(xs[0], SortBy(xs[1..], before), before)
  }

  lemma {:induction false} InsertMultiset<T>(x: T, xs: seq<T>, before: (T, T) -> bool)
    ensures multiset(Insert(x, xs, before)) == multiset{x} + multiset(xs)
    ensures |Insert(x, xs, before)| == |xs| + 1
  {
    if xs != [] && !before(x, xs[0]) {
      InsertMultiset(x, xs[1..], before);
      assert xs == [xs[0]] + xs[1..];
    }
  }

  /** Sorting is a permutation. */
  lemma {:induction false} SortMultiset<T>(xs: seq<T>, before: (T, T) -> bool)
    ensures multiset(SortBy(xs, before)) == multiset(xs)
    ensures |SortBy(xs, before)| == |xs|
  {
    if xs != [] {
      SortMultiset(xs[1..], before);
      InsertMultiset(xs[0], SortBy(xs[1..], before), before);
      assert xs == [xs[0]] + xs[1..];
    }
  }

  lemma {:induction false} InsertSorted<T(!new)>(x: T, xs: seq<T>, before: (T, T) -> bool)
    requires Connex(before) && Transitive(before) && Sorted(xs, before)
    ensures Sorted(Insert(x, xs, before), before)
  {
    if xs != [] && !before(x, xs[0]) {
      var tail := Insert(x, xs[1..], before);
      InsertSorted(x, xs[1..], before);
      InsertMultiset(x, xs[1..], before);
      assert before(xs[0], x);
      forall j | 0 <= j < |tail| ensures before(xs[0], tail[j]) {
        assert tail[j] in multiset(tail);
        assert tail[j] == x || tail[j] in xs[1..];
      }
    }
  }

  /** Sorting with a total, transitive comparator relation yields a sorted sequence. */
  lemma {:induction false} SortSorted<T(!new)>(xs: seq<T>, before: (T, T) -> bool)
    requires Connex(before) && Transitive(before)
    ensures Sorted(SortBy(xs, before), before)
  {
    if xs != [] {
      SortSorted(xs[1..], before);
      InsertSorted(xs[0], SortBy(xs[1..], before), before);
    }
  }

  /** Sorting preserves any sum over the elements. */
  lemma {:induction false} SortKeepsSum<T>(xs: seq<T>, before: (T, T) -> bool, f: T -> int)
    ensures SumOf(SortBy(xs, before), f) == SumOf(xs, f)
  {
    if xs != [] {
      SortKeepsSum(xs[1..], before, f);
      InsertKeepsSum(xs[0], SortBy(xs[1..], before), before, f);
    }
  }

  lemma {:induction false} InsertKeepsSum<T>(x: T, xs: seq<T>, before: (T, T) -> bool, f: T -> int)
    ensures SumOf(Insert(x, xs, before), f) == f(x) + SumOf(xs, f)
  {
    if xs != [] && !before(x, xs[0]) {
      InsertKeepsSum(x, xs[1..], before, f);
    }
  }

  /** No two elements share a key. */
  ghost predicate DistinctKeys<T, K>(xs: seq<T>, key: T -> K)
  {
    forall i, j :: 0 <= i < j < |xs| ==> key(xs[i]) != key(xs[j])
  }

  lemma {:induction false} InsertKeepsDistinct<T, K>(x: T, xs: seq<T>, before: (T, T) -> bool, key: T -> K)
    requires DistinctKeys(xs, key)
    requires forall i :: 0 <= i < |xs| ==> key(xs[i]) != key(x)
    ensures DistinctKeys(Insert(x, xs, before), key)
  {
    if xs != [] && !before(x, xs[0]) {
      var tail := Insert(x, xs[1..], before);
      InsertKeepsDistinct(x, xs[1..], before, key);
      InsertMultiset(x, xs[1..], before);
      forall j | 0 <= j < |tail| ensures key(xs[0]) != key(tail[j]) {
        assert tail[j] in multiset(tail);
        assert tail[j] == x || tail[j] in xs[1..];
      }
      assert Insert(x, xs, before) == [xs[0]] + tail;
      forall i, j | 0 <= i < j < |tail| + 1
        ensures key(([xs[0]] + tail)[i]) != key(([xs[0]] + tail)[j])
      {
        if i > 0 {
          assert ([xs[0]] + tail)[i] == tail[i - 1];
        }
      }
    }
  }

  /** Sorting keeps keys distinct. */
  lemma {:induction false} SortKeepsDistinct<T, K>(xs: seq<T>, before: (T, T) -> bool, key: T -> K)
    requires DistinctKeys(xs, key)
    ensures DistinctKeys(SortBy(xs, before), key)
  {
    if xs != [] {
      var rest := SortBy(xs[1..], before);
      SortKeepsDistinct(xs[1..], before, key);
      SortMultiset(xs[1..], before);
      forall i | 0 <= i < |rest| ensures key(rest[i]) != key(xs[0]) {
        assert rest[i] in multiset(xs[1..]);
        var m :| 0 <= m < |xs[1..]| && xs[1..][m] == rest[i];
        assert xs[m + 1] == rest[i];
      }
      InsertKeepsDistinct(xs[0], rest, before, key);
    }
  }

  /** The first position at which x occurs in xs. */
  function Position<T(==)>(x: T, xs: seq<T>): (i: nat)
    requires x in xs
    ensures i < |xs| && xs[i] == x
    ensures forall j :: 0 <= j < i ==> xs[j] != x
  {
    if xs[0] == x then 0 else 1 + Position(x, xs[1..])
  }

  /** The first n elements (`xs.slice(0, n)`). */
  function Take<T>(xs: seq<T>, n: nat): (r: seq<T>)
    ensures |r| == Min(n, |xs|)
    ensures r == xs[..|r|]
  {
    if |xs| <= n then xs else xs[..n]
  }

  /** The first position whose key is k, or |xs| when there is none: `map.has`
      and `map.get` over entries kept in insertion order. */
  function FirstIndex<T, K(==)>(xs: seq<T>, key: T -> K, k: K): (i: nat)
    ensures i <= |xs|
    ensures i < |xs| ==> key(xs[i]) == k
    ensures forall j :: 0 <= j < i ==> key(xs[j]) != k
  {
    if xs == [] then 0 else if key(xs[0]) == k then 0 else 1 + FirstIndex(xs[1..], key, k)
  }
}
