/** The record predicates of the filter engine (name search, consultation mode,
    specialty selection) and `Array.prototype.filter` over records. A predicate is a
    `Criterion` value interpreted by `Holds`, so that a filter stage can be named and
    compared in specifications. */
module Criteria {
  import opened Text
  import opened Normalizer
  import opened Seqs

  /** The filter part of the page state. `consultationType` is "", "video" or
      "clinic" and `sortBy` is "", "fees" or "experience" in practice, but any
      string is accepted, as in the source. */
  datatype FilterState = FilterState(consultationType: string, specialties: seq<string>, sortBy: string)

  /** The sort keys the sort stage knows. */
  datatype SortKey = Fees | Experience

  /** The number the comparator subtracts: `a.fees - b.fees` sorts by fees, and
      `b.experience - a.experience` sorts by the negated experience. */
  function Rank(d: Doctor, key: SortKey): int {
    match key
    case Fees => d.fees
    case Experience => -(d.experience as int)
  }

  /** `doctor.name.toLowerCase().includes(term.toLowerCase())`. */
  predicate NameMatches(d: Doctor, term: string) {
    Contains(Lower(d.name), Lower(term))
  }

  /** "video" keeps video consultations, "clinic" keeps in-clinic visits, any other
      mode keeps every record. */
  predicate ModeMatches(d: Doctor, mode: string) {
    if mode == "video" then d.videoConsult
    else if mode == "clinic" then d.inClinic
    else true
  }

  /** Some selected specialty is one of the record's specialties. */
  predicate SharesSpecialty(d: Doctor, selected: seq<string>) {
    exists i :: 0 <= i < |selected| && selected[i] in d.specialties
  }

  /** Which records the filter engine shows, stated on its own: the name contains the
      search term ignoring case, the mode fits, and, when specialties are selected,
      one of them is the record's. */
  predicate Keep(d: Doctor, term: string, filters: FilterState) {
    && NameMatches(d, term)
    && ModeMatches(d, filters.consultationType)
    && (filters.specialties == [] || SharesSpecialty(d, filters.specialties))
  }

  datatype Criterion =
    | Any
    | ByName(term: string)
    | ByMode(mode: string)
    | BySpecialty(selected: seq<string>)
    | RankIs(key: SortKey, rank: int)
    | Both(first: Criterion, second: Criterion)
    | Matching(searchTerm: string, filters: FilterState)

  predicate Holds(c: Criterion, d: Doctor) {
    match c
    case Any => true
    case ByName(term) => NameMatches(d, term)
    case ByMode(mode) => ModeMatches(d, mode)
    case BySpecialty(selected) => SharesSpecialty(d, selected)
    case RankIs(key, rank) => Rank(d, key) == rank
    case Both(c1, c2) => Holds(c1, d) && Holds(c2, d)
    case Matching(term, filters) => Keep(d, term, filters)
  }

  /** The test a criterion stands for, as a function value. */
  function Test(c: Criterion): Doctor -> bool {
    d => Holds(c, d)
  }

  /** `s.filter(d => Holds(c, d))`. */
  function Filter(s: seq<Doctor>, c: Criterion): (r: seq<Doctor>)
    ensures |r| <= |s|
  {
    FilterBy(s, Test(c))
  }

  // The filter lemmas of `Seqs`, instantiated to the test of a criterion.

  lemma FilterMembers(s: seq<Doctor>, c: Criterion, x: Doctor)
    ensures x in Filter(s, c) <==> x in s && Holds(c, x)
  {
    FilterByMembers(s, Test(c), x);
  }

  lemma FilterSound(s: seq<Doctor>, c: Criterion)
    ensures forall x :: x in Filter(s, c) ==> x in s && Holds(c, x)
  {
    FilterBySound(s, Test(c));
  }

  lemma FilterIsSubsequence(s: seq<Doctor>, c: Criterion)
    ensures IsSubsequence(Filter(s, c), s)
  {
    FilterByIsSubsequence(s, Test(c));
  }

  lemma FilterConcat(a: seq<Doctor>, b: seq<Doctor>, c: Criterion)
    ensures Filter(a + b, c) == Filter(a, c) + Filter(b, c)
  {
    FilterByConcat(a, b, Test(c));
  }

  /** Two filters in a row are one filter with both conditions. */
  lemma FilterTwice(s: seq<Doctor>, c1: Criterion, c2: Criterion)
    ensures Filter(Filter(s, c1), c2) == Filter(s, Both(c1, c2))
  {
    FilterByTwice(s, Test(c1), Test(c2), Test(Both(c1, c2)));
  }

  /** Criteria that agree on the elements of `s` select the same records. */
  lemma FilterAgree(s: seq<Doctor>, c1: Criterion, c2: Criterion)
    requires forall i :: 0 <= i < |s| ==> Holds(c1, s[i]) == Holds(c2, s[i])
    ensures Filter(s, c1) == Filter(s, c2)
  {
    FilterByAgree(s, Test(c1), Test(c2));
  }

  /** A filter every element passes leaves the list as it is. */
  lemma FilterKeepsAll(s: seq<Doctor>, c: Criterion)
    requires forall i :: 0 <= i < |s| ==> Holds(c, s[i])
    ensures Filter(s, c) == s
  {
    FilterByKeepsAll(s, Test(c));
  }

  /** An empty search term matches every name. */
  lemma EmptyTermMatchesAll(d: Doctor)
    ensures NameMatches(d, "")
  {
    ContainsEmpty(Lower(d.name));
  }

  /** The name test ignores letter case in the search term. */
  lemma NameMatchIgnoresCase(d: Doctor, term: string)
    ensures NameMatches(d, term) <==> NameMatches(d, Lower(term))
  {
    LowerIdempotent(term);
  }
}
