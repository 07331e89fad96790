/** The listing's page state and the event handlers that update it. Each handler
    builds a new state value (React's `setFilters({...filters, field: v})`), so
    they are functions from the old state to the new one. */
module Handlers {
  import opened Normalizer
  import opened Criteria
  import opened FilterEngine
  import opened Seqs

  /** The search box, the filters and the open suggestion list. */
  datatype Session = Session(searchTerm: string, filters: FilterState, suggestions: seq<Doctor>)

  const NoFilters := FilterState("", [], "")

  /** The state before anything happened: no search, no filter, no suggestion. */
  const Initial := Session("", NoFilters, [])

  /** `handleSearchChange`: the box shows `value`, and the suggestions are recomputed
      from the full list. */
  function SearchChange(s: Session, doctors: seq<Doctor>, value: string): (r: Session)
    ensures r.searchTerm == value && r.filters == s.filters
    ensures |r.suggestions| <= 3
    ensures forall d :: d in r.suggestions ==> d in doctors && NameMatches(d, value)
    ensures r.suggestions == Suggestions(doctors, value)
  {
    s.(searchTerm := value, suggestions := Suggestions(doctors, value))
  }

  /** `handleSuggestionClick`: the chosen name becomes the search term and the
      suggestion list closes. */
  function SuggestionClick(s: Session, doctorName: string): (r: Session)
    ensures r.searchTerm == doctorName && r.suggestions == [] && r.filters == s.filters
  {
    s.(searchTerm := doctorName, suggestions := [])
  }

  /** `handleConsultationTypeChange`: replaces the mode and nothing else. */
  function ConsultationTypeChange(s: Session, consultationType: string): (r: Session)
    ensures r.filters.consultationType == consultationType
    ensures r.filters.specialties == s.filters.specialties && r.filters.sortBy == s.filters.sortBy
    ensures r.searchTerm == s.searchTerm && r.suggestions == s.suggestions
  {
    s.(filters := s.filters.(consultationType := consultationType))
  }

  /** `handleSortChange`: replaces the sort key and nothing else. */
  function SortChange(s: Session, sortOption: string): (r: Session)
    ensures r.filters.sortBy == sortOption
    ensures r.filters.specialties == s.filters.specialties
    ensures r.filters.consultationType == s.filters.consultationType
    ensures r.searchTerm == s.searchTerm && r.suggestions == s.suggestions
  {
    s.(filters := s.filters.(sortBy := sortOption))
  }

  /** `list.filter(s => s !== specialty)`: every occurrence of `specialty` removed,
      everything else kept, in order and with its repetitions. */
  function Without(list: seq<string>, specialty: string): (r: seq<string>)
    ensures specialty !in r
    ensures IsSubsequence(r, list)
    ensures forall x :: x != specialty ==> multiset(r)[x] == multiset(list)[x]
  {
    if list == [] then []
    else
      var rest := Without(list[1..], specialty);
      assert list == [list[0]] + list[1..];
      if list[0] == specialty then rest else [list[0]] + rest
  }

  /** A list without `specialty` is left as it is. */
  lemma {:induction false} WithoutAbsent(list: seq<string>, specialty: string)
    requires specialty !in list
    ensures Without(list, specialty) == list
  {
    if list != [] {
      WithoutAbsent(list[1..], specialty);
    }
  }

  /** Checking a new specialty and then unchecking it restores the selection. */
  lemma CheckThenUncheck(list: seq<string>, specialty: string)
    requires specialty !in list
    ensures Without(list + [specialty], specialty) == list
  {
    WithoutAppend(list, specialty, specialty);
    WithoutAbsent(list, specialty);
    assert [specialty][1..] == [];
  }

  lemma {:induction false} WithoutAppend(list: seq<string>, x: string, specialty: string)
    ensures Without(list + [x], specialty) == Without(list, specialty) + Without([x], specialty)
  {
    if list != [] {
      assert (list + [x])[1..] == list[1..] + [x];
      WithoutAppend(list[1..], x, specialty);
    } else {
      assert list + [x] == [x];
    }
  }

  /** `handleSpecialtyChange`: checking appends the specialty at the end of the
      selection (even when it is already selected), unchecking removes all of its
      occurrences; nothing else changes. */
  function SpecialtyChange(s: Session, specialty: string, isChecked: bool): (r: Session)
    ensures isChecked ==> r.filters.specialties == s.filters.specialties + [specialty]
    ensures !isChecked ==> r.filters.specialties == Without(s.filters.specialties, specialty)
    ensures r.filters.consultationType == s.filters.consultationType
    ensures r.filters.sortBy == s.filters.sortBy
    ensures r.searchTerm == s.searchTerm && r.suggestions == s.suggestions
  {
    var updated :=
      if isChecked then s.filters.specialties + [specialty]
      else Without(s.filters.specialties, specialty);
    s.(filters := s.filters.(specialties := updated))
  }

  /** After the change, the specialty's checkbox (`filters.specialties.includes`)
      shows the state the user chose. */
  lemma SpecialtyCheckboxFollows(s: Session, specialty: string, isChecked: bool)
    ensures specialty in SpecialtyChange(s, specialty, isChecked).filters.specialties <==> isChecked
  {
  }

  /** `handleClearFilters`: every filter, the search term and the suggestions are
      reset. */
  function ClearFilters(s: Session): (r: Session)
    ensures r.filters.consultationType == "" && r.filters.sortBy == ""
    ensures r.filters.specialties == [] && r.searchTerm == "" && r.suggestions == []
  {
    Initial
  }

  /** With the filters cleared, the engine shows the whole list in its own order. */
  lemma ClearedFiltersSelectAll(s: Session, doctors: seq<Doctor>)
    ensures var r := ClearFilters(s);
      Selected(doctors, r.searchTerm, r.filters) == doctors
  {
    forall i | 0 <= i < |doctors| ensures Holds(Matching("", NoFilters), doctors[i]) {
      EmptyTermMatchesAll(doctors[i]);
    }
    FilterKeepsAll(doctors, Matching("", NoFilters));
  }
}
