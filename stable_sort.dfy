/** The sort stage of the filter engine: `results.sort(cmp)` reorders an array of
    records in place by a numeric comparator, and `Array.prototype.sort` is stable,
    so records whose comparator difference is 0 keep their relative order. The model
    sorts by insertion, swapping neighbours only when they are strictly out of
    order. */
module StableSort {
  import opened Normalizer
  import opened Criteria
  import opened Seqs

  /** Non-decreasing in rank. */
  predicate SortedBy(s: seq<Doctor>, key: SortKey) {
    forall i, j :: 0 <= i < j < |s| ==> Rank(s[i], key) <= Rank(s[j], key)
  }

  /** For every rank, the records with that rank occur in `t` in the same order, and
      with the same repetitions, as in `s`. */
  ghost predicate KeepsTies(s: seq<Doctor>, t: seq<Doctor>, key: SortKey) {
    forall v :: Filter(t, RankIs(key, v)) == Filter(s, RankIs(key, v))
  }

  /** Exchanging two neighbours of different rank keeps every tie group in order and
      keeps the multiset of records. */
  lemma SwapKeepsTies(s: seq<Doctor>, j: int, key: SortKey)
    requires 0 < j < |s| && Rank(s[j - 1], key) != Rank(s[j], key)
    ensures KeepsTies(s, Swap(s, j), key)
    ensures multiset(Swap(s, j)) == multiset(s)
  {
    var p, x, y, q := s[..j - 1], s[j - 1], s[j], s[j + 1..];
    SwapSplit(s, j);
    forall v ensures Filter(Swap(s, j), RankIs(key, v)) == Filter(s, RankIs(key, v)) {
      FilterBySwap(p, x, y, q, Test(RankIs(key, v)));
    }
  }

  /** `t` is `s` reordered: the same multiset of records, tie groups in order. */
  ghost predicate Rearranged(s: seq<Doctor>, t: seq<Doctor>, key: SortKey) {
    multiset(t) == multiset(s) && KeepsTies(s, t, key)
  }

  lemma RearrangedBySwap(s: seq<Doctor>, t: seq<Doctor>, j: int, key: SortKey)
    requires Rearranged(s, t, key)
    requires 0 < j < |t| && Rank(t[j - 1], key) != Rank(t[j], key)
    ensures Rearranged(s, Swap(t, j), key)
  {
    SwapKeepsTies(t, j, key);
    forall v ensures Filter(Swap(t, j), RankIs(key, v)) == Filter(s, RankIs(key, v)) {
      assert Filter(t, RankIs(key, v)) == Filter(s, RankIs(key, v));
    }
  }

  lemma RearrangedTransitive(s: seq<Doctor>, t: seq<Doctor>, u: seq<Doctor>, key: SortKey)
    requires Rearranged(s, t, key) && Rearranged(t, u, key)
    ensures Rearranged(s, u, key)
  {
    forall v ensures Filter(u, RankIs(key, v)) == Filter(s, RankIs(key, v)) {
      assert Filter(u, RankIs(key, v)) == Filter(t, RankIs(key, v));
    }
  }

  /** The first `n` records are non-decreasing in rank. */
  predicate PrefixSorted(s: seq<Doctor>, n: int, key: SortKey)
    requires 0 <= n <= |s|
  {
    forall p, q :: 0 <= p < q < n ==> Rank(s[p], key) <= Rank(s[q], key)
  }

  /** The first `n` records are non-decreasing in rank once the one at `j` is left out. */
  predicate SortedApartFrom(s: seq<Doctor>, n: int, j: int, key: SortKey)
    requires 0 <= n <= |s|
  {
    forall p, q :: 0 <= p < q < n && p != j && q != j ==> Rank(s[p], key) <= Rank(s[q], key)
  }

  /** The record at `j` ranks strictly below every record after it and before `n`. */
  predicate BelowRest(s: seq<Doctor>, j: int, n: int, key: SortKey)
    requires 0 <= j < n <= |s|
  {
    forall q :: j < q < n ==> Rank(s[j], key) < Rank(s[q], key)
  }

  /** The state of one insertion step on `s0`: the record now at `j` is being
      moved left, the first `n` records are sorted apart from it, and `s` is `s0`
      rearranged. */
  ghost predicate Inserting(s0: seq<Doctor>, s: seq<Doctor>, n: int, j: int, key: SortKey) {
    && 0 <= j < n <= |s|
    && SortedApartFrom(s, n, j, key) && BelowRest(s, j, n, key)
    && Rearranged(s0, s, key)
  }

  /** Moving the record at `j` one place to the left past a record of greater rank
      keeps the insertion invariant. */
  lemma InsertStep(s0: seq<Doctor>, s: seq<Doctor>, n: int, j: int, key: SortKey)
    requires Inserting(s0, s, n, j, key) && 0 < j
    requires Rank(s[j - 1], key) > Rank(s[j], key)
    ensures Inserting(s0, Swap(s, j), n, j - 1, key)
  {
    RearrangedBySwap(s0, s, j, key);
  }

  /** Once the record at `j` stops moving, the first `n` records are sorted. */
  lemma InsertDone(s: seq<Doctor>, n: int, j: int, key: SortKey)
    requires 0 <= j < n <= |s|
    requires SortedApartFrom(s, n, j, key) && BelowRest(s, j, n, key)
    requires j == 0 || Rank(s[j - 1], key) <= Rank(s[j], key)
    ensures PrefixSorted(s, n, key)
  {
    forall p, q | 0 <= p < q < n
      ensures Rank(s[p], key) <= Rank(s[q], key)
    {
      if q == j && p < j - 1 {
        assert Rank(s[p], key) <= Rank(s[j - 1], key);
      }
    }
  }

  /** Sorts `a` in place by rank: the result is sorted, a permutation of the input,
      and every group of equal rank keeps its original order. */
  method SortInPlace(a: array<Doctor>, key: SortKey)
    modifies a
    ensures SortedBy(a[..], key)
    ensures multiset(a[..]) == multiset(old(a[..]))
    ensures KeepsTies(old(a[..]), a[..], key)
  {
    var i := 0;
    while i < a.Length
      invariant 0 <= i <= a.Length
      invariant PrefixSorted(a[..], i, key)
      invariant Rearranged(old(a[..]), a[..], key)
    {
      ghost var before := a[..];
      Insert(a, i, key);
      RearrangedTransitive(old(a[..]), before, a[..], key);
      i := i + 1;
    }
  }

  /** One insertion step: moves `a[i]` left past the records of strictly greater
      rank, so that the sorted prefix grows by one. */
  method Insert(a: array<Doctor>, i: int, key: SortKey)
    requires 0 <= i < a.Length
    requires PrefixSorted(a[..], i, key)
    modifies a
    ensures PrefixSorted(a[..], i + 1, key)
    ensures Rearranged(old(a[..]), a[..], key)
  {
    var j := i;
    while j > 0 && Rank(a[j - 1], key) > Rank(a[j], key)
      invariant Inserting(old(a[..]), a[..], i + 1, j, key)
    {
      ghost var before := a[..];
      a[j - 1], a[j] := a[j], a[j - 1];
      assert a[..] == Swap(before, j);
      InsertStep(old(a[..]), before, i + 1, j, key);
      j := j - 1;
    }
    InsertDone(a[..], i + 1, j, key);
  }
}
