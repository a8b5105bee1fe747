/**
 * Sequence operations behind the derived views of the model: `filter`, `slice(0, n)`,
 * de-duplication through a `Set` and sorting by a numeric key.
 */
module Seqs {

  /** The elements of `s` that satisfy `p`, in their original order (`Array.prototype.filter`). */
  function Filter<T(==)>(s: seq<T>, p: T -> bool): (r: seq<T>)
    ensures |r| <= |s|
    ensures forall i :: 0 <= i < |r| ==> p(r[i]) && r[i] in s
    ensures forall i :: 0 <= i < |s| && p(s[i]) ==> s[i] in r
  {
    if s == [] then []
    else if p(s[0]) then [s[0]] + Filter(s[1..], p)
    else Filter(s[1..], p)
  }

  /** `r` can be obtained from `s` by deleting elements: the relative order of `r` is that of `s`. */
  predicate IsSubseq<T(==)>(r: seq<T>, s: seq<T>)
    decreases |s|
  {
    r == [] || (s != [] && ((r[0] == s[0] && IsSubseq(r[1..], s[1..])) || IsSubseq(r, s[1..])))
  }

  /** Filtering keeps the input order: its result is a subsequence of its input. */
  lemma {:induction false} FilterIsSubseq<T>(s: seq<T>, p: T -> bool)
    ensures IsSubseq(Filter(s, p), s)
  {
    if s != [] {
      FilterIsSubseq(s[1..], p);
      var r := Filter(s, p);
      if p(s[0]) {
        assert r[0] == s[0] && r[1..] == Filter(s[1..], p);
      }
    }
  }

  /** A filter whose predicate holds of no element returns nothing. */
  lemma {:induction false} FilterKeepsNone<T>(s: seq<T>, p: T -> bool)
    requires forall i :: 0 <= i < |s| ==> !p(s[i])
    ensures Filter(s, p) == []
  {
    if s != [] {
      FilterKeepsNone(s[1..], p);
    }
  }

  /** A filter whose predicate holds of every element returns its input unchanged. */
  lemma {:induction false} FilterKeepsAll<T>(s: seq<T>, p: T -> bool)
    requires forall i :: 0 <= i < |s| ==> p(s[i])
    ensures Filter(s, p) == s
  {
    if s != [] {
      FilterKeepsAll(s[1..], p);
    }
  }

  /** Two predicates that agree on every element of `s` filter it the same way. */
  lemma {:induction false} FilterAgree<T>(s: seq<T>, p: T -> bool, q: T -> bool)
    requires forall i :: 0 <= i < |s| ==> p(s[i]) == q(s[i])
    ensures Filter(s, p) == Filter(s, q)
  {
    if s != [] {
      FilterAgree(s[1..], p, q);
    }
  }

  /** Filtering twice is filtering once by the conjunction of the two predicates. */
  lemma {:induction false} FilterTwice<T>(s: seq<T>, p: T -> bool, q: T -> bool)
    ensures Filter(Filter(s, p), q) == Filter(s, x => p(x) && q(x))
  {
    if s != [] {
      FilterTwice(s[1..], p, q);
      if p(s[0]) {
        assert Filter(s, p) == [s[0]] + Filter(s[1..], p);
        assert Filter(s, p)[1..] == Filter(s[1..], p);
      }
    }
  }

  /** Removing one element leaves a subsequence. */
  lemma {:induction false} RemoveIsSubseq<T>(s: seq<T>, k: nat)
    requires k < |s|
    ensures IsSubseq(s[..k] + s[k+1..], s)
  {
    var r := s[..k] + s[k+1..];
    if k == 0 {
      assert r == s[1..];
      SubseqRefl(s[1..]);
    } else {
      RemoveIsSubseq(s[1..], k - 1);
      assert r[0] == s[0];
      assert r[1..] == s[1..][..k-1] + s[1..][k..];
    }
  }

  lemma {:induction false} SubseqRefl<T>(s: seq<T>)
    ensures IsSubseq(s, s)
  {
    if s != [] {
      SubseqRefl(s[1..]);
    }
  }

  /** Filtering distributes over concatenation. */
  lemma {:induction false} FilterAppend<T>(a: seq<T>, b: seq<T>, p: T -> bool)
    ensures Filter(a + b, p) == Filter(a, p) + Filter(b, p)
  {
    if a != [] {
      assert (a + b)[1..] == a[1..] + b;
      FilterAppend(a[1..], b, p);
    } else {
      assert a + b == b;
    }
  }

  /** The positions of `s` whose element satisfies `p`. */
  function Positions<T>(s: seq<T>, p: T -> bool): set<int> {
    set i | 0 <= i < |s| && p(s[i])
  }

  /** A filter keeps exactly as many elements as there are positions whose element satisfies `p`. */
  lemma {:induction false} FilterCount<T>(s: seq<T>, p: T -> bool)
    ensures |Filter(s, p)| == |Positions(s, p)|
    decreases |s|
  {
    if s != [] {
      var n := |s| - 1;
      var init := s[..n];
      FilterCount(init, p);
      assert s == init + [s[n]];
      FilterAppend(init, [s[n]], p);
      var before := Positions(init, p);
      var after := Positions(s, p);
      if p(s[n]) {
        assert after == before + {n};
        assert n !in before;
      } else {
        assert after == before;
      }
    }
  }

  /** The first `n` elements of `s`, or all of them when there are fewer (`slice(0, n)`). */
  function Take<T>(s: seq<T>, n: nat): (r: seq<T>)
    ensures |r| == if n < |s| then n else |s|
    ensures r == s[..|r|]
  {
    if n < |s| then s[..n] else s
  }

  /**
   * The first `n` elements satisfying `p` all satisfy it and come from `s`;
   * when `s` has at most `n` elements, every element satisfying `p` is among them.
   */
  lemma TakeFilter<T>(s: seq<T>, p: T -> bool, n: nat)
    ensures forall i :: 0 <= i < |Take(Filter(s, p), n)| ==> p(Take(Filter(s, p), n)[i]) && Take(Filter(s, p), n)[i] in s
    ensures |s| <= n ==> forall x :: x in s && p(x) ==> x in Take(Filter(s, p), n)
  {
    var f := Filter(s, p);
    assert forall i :: 0 <= i < |Take(f, n)| ==> Take(f, n)[i] == f[i];
  }

  /** A prefix holds no element more often than the whole sequence. */
  lemma TakeSubMultiset<T>(s: seq<T>, n: nat)
    ensures multiset(Take(s, n)) <= multiset(s)
  {
    var r := Take(s, n);
    assert s == r + s[|r|..];
  }

  predicate NoDuplicates<T(==)>(s: seq<T>) {
    forall i, j :: 0 <= i < j < |s| ==> s[i] != s[j]
  }

  /** A sequence without duplicates has as many elements as its set of elements. */
  lemma {:induction false} NoDuplicatesCard<T>(s: seq<T>)
    requires NoDuplicates(s)
    ensures |set x | x in s| == |s|
  {
    if s != [] {
      var t := s[1..];
      assert forall i :: 0 <= i < |t| ==> t[i] == s[i + 1];
      NoDuplicatesCard(t);
      assert (set x | x in s) == {s[0]} + (set x | x in t);
      assert s[0] !in t;
    }
  }

  /** Index of the first occurrence of `x` in `s`. */
  function FirstIndex<T(==)>(s: seq<T>, x: T): (k: nat)
    requires x in s
    ensures k < |s| && s[k] == x && x !in s[..k]
  {
    if s[0] == x then 0 else 1 + FirstIndex(s[1..], x)
  }

  /** A prefix that already contains `x` also contains its first occurrence. */
  lemma {:induction false} FirstIndexInPrefix<T>(s: seq<T>, n: nat, x: T)
    requires n <= |s| && x in s[..n]
    ensures FirstIndex(s, x) == FirstIndex(s[..n], x)
  {
    if s[0] != x {
      assert s[1..][..n - 1] == s[..n][1..];
      FirstIndexInPrefix(s[1..], n - 1, x);
    }
  }

  /**
   * The distinct elements of `s`, each at the place of its first occurrence
   * (`[...new Set(s)]`: a JavaScript `Set` iterates in insertion order).
   */
  function Distinct<T(==)>(s: seq<T>): (r: seq<T>)
    ensures |r| <= |s|
    ensures NoDuplicates(r)
    ensures forall i :: 0 <= i < |r| ==> r[i] in s
    ensures forall i :: 0 <= i < |s| ==> s[i] in r
    decreases |s|
  {
    if s == [] then []
    else
      var r := Distinct(s[..|s| - 1]);
      assert forall i :: 0 <= i < |s| - 1 ==> s[i] == s[..|s| - 1][i];
      if s[|s| - 1] in r then r else r + [s[|s| - 1]]
  }

  /** `Distinct` lists the elements in the order in which they first occur in the input. */
  lemma {:induction false} DistinctFirstOccurrenceOrder<T>(s: seq<T>)
    ensures forall i, j :: 0 <= i < j < |Distinct(s)| ==>
      FirstIndex(s, Distinct(s)[i]) < FirstIndex(s, Distinct(s)[j])
  {
    if s != [] {
      var init := s[..|s| - 1];
      var last := s[|s| - 1];
      DistinctFirstOccurrenceOrder(init);
      var r0 := Distinct(init);
      var r := Distinct(s);
      assert init == s[..|s| - 1];
      forall x | x in init
        ensures FirstIndex(s, x) == FirstIndex(init, x)
      {
        FirstIndexInPrefix(s, |s| - 1, x);
      }
      forall i, j | 0 <= i < j < |r|
        ensures FirstIndex(s, r[i]) < FirstIndex(s, r[j])
      {
        if j < |r0| {
          assert r[i] == r0[i] && r[j] == r0[j];
        } else {
          assert r[j] == last && last !in init && r[i] == r0[i] && r0[i] in init;
        }
      }
    }
  }

  /** `r` is ordered from the largest key to the smallest. */
  predicate SortedDesc<T>(r: seq<T>, key: T -> int) {
    forall i, j :: 0 <= i < j < |r| ==> key(r[i]) >= key(r[j])
  }

  /** `r` is ordered from the smallest key to the largest. */
  predicate SortedAsc<T>(r: seq<T>, key: T -> int) {
    forall i, j :: 0 <= i < j < |r| ==> key(r[i]) <= key(r[j])
  }

  /** Places `x` in the descending sequence `s` after every element whose key is larger than its own. */
  function InsertDesc<T>(x: T, s: seq<T>, key: T -> int): (r: seq<T>)
    requires SortedDesc(s, key)
    ensures |r| == |s| + 1
    ensures r[0] == x || (s != [] && r[0] == s[0])
    ensures SortedDesc(r, key)
    ensures multiset(r) == multiset(s) + multiset{x}
  {
    if s == [] then [x]
    else if key(x) >= key(s[0]) then
      ConsSortedDesc(x, s, key);
      [x] + s
    else
      var t := InsertDesc(x, s[1..], key);
      assert s == [s[0]] + s[1..];
      ConsSortedDesc(s[0], t, key);
      [s[0]] + t
  }

  /** An element no smaller than the head of a descending sequence can go in front of it. */
  lemma ConsSortedDesc<T>(y: T, t: seq<T>, key: T -> int)
    requires SortedDesc(t, key) && (t != [] ==> key(y) >= key(t[0]))
    ensures SortedDesc([y] + t, key)
  {
    var r := [y] + t;
    forall i, j | 0 <= i < j < |r|
      ensures key(r[i]) >= key(r[j])
    {
      if i == 0 {
        assert r[j] == t[j - 1];
      } else {
        assert r[i] == t[i - 1] && r[j] == t[j - 1];
      }
    }
  }

  /** The elements of `s` reordered from the largest key to the smallest. */
  function SortDesc<T>(s: seq<T>, key: T -> int): (r: seq<T>)
    ensures SortedDesc(r, key)
    ensures multiset(r) == multiset(s)
    ensures |r| == |s|
  {
    if s == [] then []
    else
      assert s == [s[0]] + s[1..];
      InsertDesc(s[0], SortDesc(s[1..], key), key)
  }

  /**
   * `r` is `s` rearranged: `r[k]` is `s[perm[k]]`, no position of `s` is
   * used twice, and elements with equal keys keep their order in `s`
   * (a stable sort's guarantee).
   */
  ghost predicate StableRearrangement<T>(r: seq<T>, s: seq<T>, key: T -> int, perm: seq<int>) {
    |perm| == |r| == |s|
    && (forall k :: 0 <= k < |r| ==> 0 <= perm[k] < |s| && r[k] == s[perm[k]])
    && (forall k, l :: 0 <= k < l < |r| ==> perm[k] != perm[l])
    && (forall k, l :: 0 <= k < l < |r| && key(r[k]) == key(r[l]) ==> perm[k] < perm[l])
  }

  /**
   * Sorts `a` in place from the smallest key to the largest
   * (`list.sort(key=...)`, `Array.prototype.sort` with a numeric comparator).
   * Insertion sort; like both of those it is stable, which `perm` witnesses.
   */
  method SortInPlace<T>(a: array<T>, key: T -> int) returns (ghost perm: seq<int>)
    modifies a
    ensures SortedAsc(a[..], key)
    ensures multiset(a[..]) == multiset(old(a[..]))
    ensures StableRearrangement(a[..], old(a[..]), key, perm)
  {
    ghost var s := a[..];
    perm := seq(a.Length, k => k);
    SortedUpToStart(s, perm, key);
    var i := 0;
    while i < a.Length
      invariant 0 <= i <= a.Length
      invariant SortedUpTo(a[..], perm, s, key, i)
      invariant multiset(a[..]) == multiset(old(a[..]))
    {
      perm := InsertAt(a, i, key, s, perm);
      i := i + 1;
    }
    SortedUpToEnd(a[..], perm, s, key);
  }

  lemma SortedUpToStart<T>(s: seq<T>, perm: seq<int>, key: T -> int)
    requires |perm| == |s| && forall k :: 0 <= k < |s| ==> perm[k] == k
    ensures SortedUpTo(s, perm, s, key, 0)
  {
  }

  lemma SortedUpToEnd<T>(b: seq<T>, perm: seq<int>, s: seq<T>, key: T -> int)
    requires SortedUpTo(b, perm, s, key, |b|)
    ensures SortedAsc(b, key) && StableRearrangement(b, s, key, perm)
  {
  }

  /**
   * The state of the sort after `i` rounds: `b[..i]` is sorted and is a
   * stable rearrangement of `s[..i]` through `perm`; the rest is untouched.
   */
  ghost predicate SortedUpTo<T>(b: seq<T>, perm: seq<int>, s: seq<T>, key: T -> int, i: int) {
    0 <= i <= |b| && |perm| == |b| == |s|
    && (forall p, q :: 0 <= p < q < i ==> key(b[p]) <= key(b[q]))
    && (forall k :: 0 <= k < |b| ==> 0 <= perm[k] < |b| && b[k] == s[perm[k]])
    && (forall k :: 0 <= k < i ==> perm[k] < i)
    && (forall k :: i <= k < |b| ==> perm[k] == k)
    && (forall k, l :: 0 <= k < l < i ==> perm[k] != perm[l])
    && (forall k, l :: 0 <= k < l < i && key(b[k]) == key(b[l]) ==> perm[k] < perm[l])
  }

  /**
   * The state while `s[i]` moves left: it sits at `j`, every element after
   * it up to `i` has a strictly larger key, and the rest of `b[..i+1]` is in
   * order.
   */
  ghost predicate Inserting<T>(b: seq<T>, perm: seq<int>, s: seq<T>, key: T -> int, i: int, j: int) {
    InsertOrder(b, key, i, j) && InsertOrigin(b, perm, s, key, i, j)
  }

  ghost predicate InsertOrder<T>(b: seq<T>, key: T -> int, i: int, j: int) {
    0 <= j <= i < |b|
    && (forall p, q :: 0 <= p < q < j ==> key(b[p]) <= key(b[q]))
    && (forall p, q :: j < p < q <= i ==> key(b[p]) <= key(b[q]))
    && (forall p, q :: 0 <= p < j && j < q <= i ==> key(b[p]) <= key(b[q]))
    && (forall q :: j < q <= i ==> key(b[j]) < key(b[q]))
  }

  /** Where each element came from: the moving one from `i`, the others from before `i`, stably. */
  ghost predicate InsertOrigin<T>(b: seq<T>, perm: seq<int>, s: seq<T>, key: T -> int, i: int, j: int) {
    0 <= j <= i < |b| && |perm| == |b| == |s|
    && (forall k :: 0 <= k < |b| ==> 0 <= perm[k] < |b| && b[k] == s[perm[k]])
    && perm[j] == i
    && (forall k :: 0 <= k <= i && k != j ==> perm[k] < i)
    && (forall k :: i < k < |b| ==> perm[k] == k)
    && (forall k, l :: 0 <= k < l <= i ==> perm[k] != perm[l])
    && (forall k, l :: 0 <= k < l <= i && key(b[k]) == key(b[l]) ==> perm[k] < perm[l])
  }

  lemma InsertingStart<T>(b: seq<T>, perm: seq<int>, s: seq<T>, key: T -> int, i: int)
    requires SortedUpTo(b, perm, s, key, i) && i < |b|
    ensures Inserting(b, perm, s, key, i, i)
  {
  }

  /** Exchanging the moving element with a larger left neighbour keeps the insertion state. */
  lemma InsertingStep<T>(b: seq<T>, perm: seq<int>, s: seq<T>, key: T -> int, i: int, j: int)
    requires Inserting(b, perm, s, key, i, j) && j > 0 && key(b[j - 1]) > key(b[j])
    ensures Inserting(b[j - 1 := b[j]][j := b[j - 1]], perm[j - 1 := perm[j]][j := perm[j - 1]], s, key, i, j - 1)
  {
    InsertOrderStep(b, key, i, j);
    InsertOriginStep(b, perm, s, key, i, j);
  }

  lemma InsertOrderStep<T>(b: seq<T>, key: T -> int, i: int, j: int)
    requires InsertOrder(b, key, i, j) && j > 0 && key(b[j - 1]) > key(b[j])
    ensures InsertOrder(b[j - 1 := b[j]][j := b[j - 1]], key, i, j - 1)
  {
  }

  lemma InsertOriginStep<T>(b: seq<T>, perm: seq<int>, s: seq<T>, key: T -> int, i: int, j: int)
    requires InsertOrder(b, key, i, j) && InsertOrigin(b, perm, s, key, i, j) && j > 0 && key(b[j - 1]) > key(b[j])
    ensures InsertOrigin(b[j - 1 := b[j]][j := b[j - 1]], perm[j - 1 := perm[j]][j := perm[j - 1]], s, key, i, j - 1)
  {
    var b' := b[j - 1 := b[j]][j := b[j - 1]];
    var perm' := perm[j - 1 := perm[j]][j := perm[j - 1]];
    forall k, l | 0 <= k < l <= i && key(b'[k]) == key(b'[l])
      ensures perm'[k] < perm'[l]
    {
      if k == j {
        assert perm'[k] == perm[j - 1] && b'[k] == b[j - 1];
        assert b'[l] == b[l];
      } else if l == j - 1 {
        assert perm'[l] == i;
      } else if l == j {
        assert perm'[l] == perm[j - 1] && b'[l] == b[j - 1];
      }
    }
  }

  /** The moving element has stopped: one more element is in order. */
  lemma InsertingDone<T>(b: seq<T>, perm: seq<int>, s: seq<T>, key: T -> int, i: int, j: int)
    requires Inserting(b, perm, s, key, i, j) && (j == 0 || key(b[j - 1]) <= key(b[j]))
    ensures SortedUpTo(b, perm, s, key, i + 1)
  {
    forall p, q | 0 <= p < q <= i
      ensures key(b[p]) <= key(b[q])
    {
      if p < j && q == j {
        assert key(b[p]) <= key(b[j - 1]);
      }
    }
  }

  /** Moves `a[i]` left past every larger key; it stops at an equal key, so equal keys keep their order. */
  method InsertAt<T>(a: array<T>, i: int, key: T -> int, ghost s: seq<T>, ghost perm: seq<int>)
    returns (ghost perm': seq<int>)
    requires 0 <= i < a.Length
    requires SortedUpTo(a[..], perm, s, key, i)
    modifies a
    ensures SortedUpTo(a[..], perm', s, key, i + 1)
    ensures multiset(a[..]) == multiset(old(a[..]))
  {
    perm' := perm;
    InsertingStart(a[..], perm, s, key, i);
    var j := i;
    while j > 0 && key(a[j - 1]) > key(a[j])
      invariant Inserting(a[..], perm', s, key, i, j)
      invariant multiset(a[..]) == multiset(old(a[..]))
    {
      ghost var b := a[..];
      InsertingStep(b, perm', s, key, i, j);
      Swap(a, j - 1, j);
      assert a[..] == b[j - 1 := b[j]][j := b[j - 1]];
      perm' := perm'[j - 1 := perm'[j]][j := perm'[j - 1]];
      j := j - 1;
    }
    InsertingDone(a[..], perm', s, key, i, j);
  }

  /** Exchanges two elements; the multiset of elements is unchanged. */
  method Swap<T>(a: array<T>, x: int, y: int)
    requires 0 <= x < a.Length && 0 <= y < a.Length
    modifies a
    ensures a[x] == old(a[y]) && a[y] == old(a[x])
    ensures forall k :: 0 <= k < a.Length && k != x && k != y ==> a[k] == old(a[k])
    ensures multiset(a[..]) == multiset(old(a[..]))
  {
    a[x], a[y] := a[y], a[x];
  }
}
