/** `Array.prototype.filter` over sequences, and the subsequence order. */
module Seqs {

  /** `s.filter(p)`: the elements that pass `p`, in their order. */
  function FilterBy<T>(s: seq<T>, p: T -> bool): (r: seq<T>)
    ensures |r| <= |s|
  {
    if s == [] then []
    else (if p(s[0]) then [s[0]] else []) + FilterBy(s[1..], p)
  }

  /** `a` is `b` with some elements left out. */
  predicate IsSubsequence<T(==)>(a: seq<T>, b: seq<T>)
    decreases |b|
  {
    if a == [] then true
    else if b == [] then false
    else (a[0] == b[0] && IsSubsequence(a[1..], b[1..])) || IsSubsequence(a, b[1..])
  }

  lemma {:induction false} FilterByMembers<T>(s: seq<T>, p: T -> bool, x: T)
    ensures x in FilterBy(s, p) <==> x in s && p(x)
  {
    if s != [] {
      FilterByMembers(s[1..], p, x);
      assert s == [s[0]] + s[1..];
    }
  }

  /** Everything the filter keeps comes from the list and passes the test. */
  lemma {:induction false} FilterBySound<T>(s: seq<T>, p: T -> bool)
    ensures forall x :: x in FilterBy(s, p) ==> x in s && p(x)
  {
    if s != [] {
      FilterBySound(s[1..], p);
    }
  }

  lemma {:induction false} FilterByIsSubsequence<T>(s: seq<T>, p: T -> bool)
    ensures IsSubsequence(FilterBy(s, p), s)
  {
    if s != [] {
      FilterByIsSubsequence(s[1..], p);
      var r := FilterBy(s, p);
      if p(s[0]) {
        assert r[0] == s[0] && r[1..] == FilterBy(s[1..], p);
      } else {
        assert r == FilterBy(s[1..], p);
      }
    }
  }

  lemma {:induction false} FilterByConcat<T>(a: seq<T>, b: seq<T>, p: T -> bool)
    ensures FilterBy(a + b, p) == FilterBy(a, p) + FilterBy(b, p)
  {
    if a != [] {
      assert (a + b)[0] == a[0] && (a + b)[1..] == a[1..] + b;
      FilterByConcat(a[1..], b, p);
    } else {
      assert a + b == b;
    }
  }

  /** `s` with positions `j - 1` and `j` exchanged. */
  function Swap<T>(s: seq<T>, j: int): (r: seq<T>)
    requires 0 < j < |s|
    ensures |r| == |s| && r[j - 1] == s[j] && r[j] == s[j - 1]
    ensures forall k :: 0 <= k < |s| && k != j - 1 && k != j ==> r[k] == s[k]
  {
    s[j - 1 := s[j]][j := s[j - 1]]
  }

  /** A swap of neighbours, seen as the same prefix and suffix around the exchanged
      pair; it keeps the multiset of elements. */
  lemma SwapSplit<T>(s: seq<T>, j: int)
    requires 0 < j < |s|
    ensures s == s[..j - 1] + [s[j - 1], s[j]] + s[j + 1..]
    ensures Swap(s, j) == s[..j - 1] + [s[j], s[j - 1]] + s[j + 1..]
    ensures multiset(Swap(s, j)) == multiset(s)
  {
    var p, x, y, q := s[..j - 1], s[j - 1], s[j], s[j + 1..];
    assert s == p + [x, y] + q;
    assert Swap(s, j) == p + [y, x] + q;
  }

  /** Exchanging two neighbours that do not both pass leaves the filtered list as it is. */
  lemma FilterBySwap<T>(p: seq<T>, x: T, y: T, q: seq<T>, f: T -> bool)
    requires !(f(x) && f(y))
    ensures FilterBy(p + [y, x] + q, f) == FilterBy(p + [x, y] + q, f)
  {
    FilterByConcat(p + [x, y], q, f);
    FilterByConcat(p, [x, y], f);
    FilterByConcat(p + [y, x], q, f);
    FilterByConcat(p, [y, x], f);
    assert [x, y][1..] == [y] && [y, x][1..] == [x];
    assert [x][1..] == [] && [y][1..] == [];
  }

  /** Two filters in a row are one filter with both conditions. */
  lemma {:induction false} FilterByTwice<T>(s: seq<T>, p: T -> bool, q: T -> bool, both: T -> bool)
    requires forall x :: both(x) == (p(x) && q(x))
    ensures FilterBy(FilterBy(s, p), q) == FilterBy(s, both)
  {
    if s != [] {
      FilterByTwice(s[1..], p, q, both);
      var once := FilterBy(s, p);
      if p(s[0]) {
        assert once[0] == s[0] && once[1..] == FilterBy(s[1..], p);
      } else {
        assert once == FilterBy(s[1..], p);
      }
    }
  }

  /** Tests that agree on the elements of `s` select the same elements. */
  lemma {:induction false} FilterByAgree<T>(s: seq<T>, p: T -> bool, q: T -> bool)
    requires forall i :: 0 <= i < |s| ==> p(s[i]) == q(s[i])
    ensures FilterBy(s, p) == FilterBy(s, q)
  {
    if s != [] {
      FilterByAgree(s[1..], p, q);
    }
  }

  /** A filter every element passes leaves the list as it is. */
  lemma {:induction false} FilterByKeepsAll<T>(s: seq<T>, p: T -> bool)
    requires forall i :: 0 <= i < |s| ==> p(s[i])
    ensures FilterBy(s, p) == s
  {
    if s != [] {
      FilterByKeepsAll(s[1..], p);
    }
  }
}
