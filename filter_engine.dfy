/** The filter engine (`applyFilters`) and the search suggestions. */
module FilterEngine {
  import opened Text
  import opened Normalizer
  import opened Criteria
  import opened StableSort
  import opened Seqs

  /** The records the current filters select, in list order. */
  function Selected(doctors: seq<Doctor>, searchTerm: string, filters: FilterState): seq<Doctor> {
    Filter(doctors, Matching(searchTerm, filters))
  }

  /** Before sorting, the filter stages keep a subsequence of the list, and a
      record is kept exactly when it passes all three tests. */
  lemma SelectedIsFilteredSubsequence(doctors: seq<Doctor>, searchTerm: string, filters: FilterState)
    ensures IsSubsequence(Selected(doctors, searchTerm, filters), doctors)
    ensures forall d ::
      d in Selected(doctors, searchTerm, filters) <==> d in doctors && Keep(d, searchTerm, filters)
  {
    FilterIsSubsequence(doctors, Matching(searchTerm, filters));
    forall d ensures d in Selected(doctors, searchTerm, filters)
      <==> d in doctors && Keep(d, searchTerm, filters) {
      FilterMembers(doctors, Matching(searchTerm, filters), d);
    }
  }

  /** The filter stages of `applyFilters`: a copy of the list, narrowed by name
      (when a search term is set), consultation mode (when one is set) and specialty
      (when any is selected), in that order. */
  method Narrow(doctors: seq<Doctor>, searchTerm: string, filters: FilterState)
    returns (results: seq<Doctor>)
    ensures results == Selected(doctors, searchTerm, filters)
  {
    results := doctors;
    var name, mode, selected := searchTerm, filters.consultationType, filters.specialties;

    if name != "" {
      results := Filter(results, ByName(name));
    } else {
      forall i | 0 <= i < |doctors| ensures Holds(ByName(name), doctors[i]) {
        EmptyTermMatchesAll(doctors[i]);
      }
      FilterKeepsAll(doctors, ByName(name));
    }

    ghost var nameAndMode := Both(ByName(name), ByMode(mode));
    FilterTwice(doctors, ByName(name), ByMode(mode));
    if mode != "" {
      results := Filter(results, ByMode(mode));
    } else {
      FilterKeepsAll(results, ByMode(mode));
    }

    forall d ensures Holds(nameAndMode, d) == (NameMatches(d, name) && ModeMatches(d, mode)) {
    }
    if |selected| > 0 {
      FilterTwice(doctors, nameAndMode, BySpecialty(selected));
      results := Filter(results, BySpecialty(selected));
      FilterAgree(doctors, Both(nameAndMode, BySpecialty(selected)), Matching(searchTerm, filters));
    } else {
      FilterAgree(doctors, nameAndMode, Matching(searchTerm, filters));
    }
  }

  /** `applyFilters`: the filter stages, then an in-place stable sort when a sort
      key is set. */
  method ApplyFilters(doctors: seq<Doctor>, searchTerm: string, filters: FilterState)
    returns (results: seq<Doctor>)
    ensures multiset(results) == multiset(Selected(doctors, searchTerm, filters))
    ensures filters.sortBy == "fees" ==>
      forall i, j :: 0 <= i < j < |results| ==> results[i].fees <= results[j].fees
    ensures filters.sortBy == "fees" ==>
      KeepsTies(Selected(doctors, searchTerm, filters), results, Fees)
    ensures filters.sortBy == "experience" ==>
      forall i, j :: 0 <= i < j < |results| ==> results[i].experience >= results[j].experience
    ensures filters.sortBy == "experience" ==>
      KeepsTies(Selected(doctors, searchTerm, filters), results, Experience)
    ensures filters.sortBy != "fees" && filters.sortBy != "experience" ==>
      results == Selected(doctors, searchTerm, filters)
  {
    results := Narrow(doctors, searchTerm, filters);
    if filters.sortBy == "fees" || filters.sortBy == "experience" {
      var key := if filters.sortBy == "fees" then Fees else Experience;
      var a := new Doctor[|results|](i requires 0 <= i < |results| => results[i]);
      assert a[..] == results;
      SortInPlace(a, key);
      results := a[..];
    }
  }

  // ---------------------------------------------------------------------------
  // Suggestions (`handleSearchChange`)

  /** At most the first three name matches, none while the input is blank. */
  function Suggestions(doctors: seq<Doctor>, value: string): (r: seq<Doctor>)
    ensures |r| <= 3
    ensures Trim(value) == "" ==> r == []
    ensures forall d :: d in r ==> d in doctors && NameMatches(d, value)
  {
    if Trim(value) == "" then []
    else
      var matched := Filter(doctors, ByName(value));
      var r := matched[..if |matched| < 3 then |matched| else 3];
      FilterSound(doctors, ByName(value));
      assert forall d :: d in r ==> d in matched;
      r
  }

  /** For a non-blank input the suggestions are the first min(3, k) of the k name
      matches, in list order. */
  lemma SuggestionsAreFirstMatches(doctors: seq<Doctor>, value: string)
    requires Trim(value) != ""
    ensures var matched := Filter(doctors, ByName(value));
      var r := Suggestions(doctors, value);
      && |r| == (if |matched| < 3 then |matched| else 3)
      && r == matched[..|r|]
  {
  }

  /** A blank input gives no suggestions; otherwise there are exactly three as soon
      as at least three names match. */
  lemma SuggestionCount(doctors: seq<Doctor>, value: string)
    ensures |Suggestions(doctors, value)| == 3
      <==> Trim(value) != "" && |Filter(doctors, ByName(value))| >= 3
  {
  }
}
