/** The specialty catalogue shown in the filter sidebar: every distinct specialty
    name across the normalized records, gathered into a `Set` by two nested
    `forEach` loops and then listed in sorted order. */
module Catalogue {
  import opened Text
  import opened Normalizer

  /** The specialties that appear in some record. */
  ghost function SpecialtiesOf(doctors: seq<Doctor>): set<string> {
    if doctors == [] then {}
    else SpecialtiesOf(doctors[..|doctors| - 1]) + Elems(doctors[|doctors| - 1].specialties)
  }

  lemma {:induction false} SpecialtiesOfIff(doctors: seq<Doctor>, x: string)
    ensures x in SpecialtiesOf(doctors)
        <==> exists i :: 0 <= i < |doctors| && x in doctors[i].specialties
  {
    if doctors != [] {
      var front := doctors[..|doctors| - 1];
      SpecialtiesOfIff(front, x);
      assert forall i :: 0 <= i < |front| ==> front[i] == doctors[i];
    }
  }

  /** Strictly ascending, hence free of duplicates. */
  predicate StrictlySorted(s: seq<string>) {
    forall i, j :: 0 <= i < j < |s| ==> Less(s[i], s[j])
  }

  /** The least element of a non-empty set of strings. */
  method Least(s: set<string>) returns (m: string)
    requires s != {}
    ensures m in s
    ensures forall y :: y in s && y != m ==> Less(m, y)
  {
    m :| m in s;
    var todo := s - {m};
    while todo != {}
      invariant m in s && todo <= s && m !in todo
      invariant forall y :: y in s - todo && y != m ==> Less(m, y)
      decreases |todo|
    {
      var y :| y in todo;
      if Less(y, m) {
        forall z | z in s - todo && z != m ensures Less(y, z) {
          LessTransitive(y, m, z);
        }
        LessIrreflexive(y);
        m := y;
      } else if y != m {
        LessTotal(m, y);
      }
      todo := todo - {y};
    }
  }

  /** `Array.from(set).sort()`: the elements of `s`, listed in ascending order. */
  method SortedElements(s: set<string>) returns (r: seq<string>)
    ensures StrictlySorted(r)
    ensures Elems(r) == s
  {
    r := [];
    var rest := s;
    while rest != {}
      invariant rest <= s
      invariant StrictlySorted(r)
      invariant Elems(r) + rest == s
      invariant forall i, y :: 0 <= i < |r| && y in rest ==> Less(r[i], y)
      decreases |rest|
    {
      var m := Least(rest);
      r := r + [m];
      rest := rest - {m};
    }
  }

  /** The sidebar's specialty list: strictly sorted, and holding exactly the
      specialties some record lists. */
  method CollectSpecialties(doctors: seq<Doctor>) returns (catalogue: seq<string>)
    ensures StrictlySorted(catalogue)
    ensures forall x ::
      x in catalogue <==> exists i :: 0 <= i < |doctors| && x in doctors[i].specialties
  {
    var seen: set<string> := {};
    var i := 0;
    while i < |doctors|
      invariant 0 <= i <= |doctors|
      invariant seen == SpecialtiesOf(doctors[..i])
    {
      var specs := doctors[i].specialties;
      var j := 0;
      while j < |specs|
        invariant 0 <= j <= |specs|
        invariant seen == SpecialtiesOf(doctors[..i]) + Elems(specs[..j])
      {
        seen := seen + {specs[j]};
        assert specs[..j + 1] == specs[..j] + [specs[j]];
        j := j + 1;
      }
      assert specs[..j] == specs;
      assert doctors[..i + 1][..i] == doctors[..i];
      i := i + 1;
    }
    assert doctors[..i] == doctors;
    catalogue := SortedElements(seen);
    forall x ensures x in catalogue
        <==> exists k :: 0 <= k < |doctors| && x in doctors[k].specialties {
      SpecialtiesOfIff(doctors, x);
    }
  }

  /** A strictly sorted listing of a set is unique, so the catalogue does not depend
      on the order in which the set was filled. */
  lemma {:induction false} SortedListingUnique(a: seq<string>, b: seq<string>)
    requires StrictlySorted(a) && StrictlySorted(b)
    requires Elems(a) == Elems(b)
    ensures a == b
    decreases |a|
  {
    assert a != [] ==> a[0] in Elems(a);
    assert b != [] ==> b[0] in Elems(b);
    if a != [] && b != [] {
      if a[0] != b[0] {
        assert a[0] in Elems(b) && b[0] in Elems(a);
        var i :| 0 <= i < |b| && b[i] == a[0];
        var j :| 0 <= j < |a| && a[j] == b[0];
        LessTransitive(a[0], b[0], a[0]);
        LessIrreflexive(a[0]);
      }
      forall x ensures x in Elems(a[1..]) <==> x in Elems(b[1..]) {
        if x in a[1..] {
          var j :| 1 <= j < |a| && a[j] == x;
          LessIrreflexive(x);
          assert x in Elems(a);
          assert x != b[0] && x in b;
          var k :| 0 <= k < |b| && b[k] == x;
          assert b[1..][k - 1] == x;
        }
        if x in b[1..] {
          var j :| 1 <= j < |b| && b[j] == x;
          LessIrreflexive(x);
          assert x in Elems(b);
          assert x != a[0] && x in a;
          var k :| 0 <= k < |a| && a[k] == x;
          assert a[1..][k - 1] == x;
        }
      }
      SortedListingUnique(a[1..], b[1..]);
    }
  }
}
