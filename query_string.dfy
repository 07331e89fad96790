/** The query-string synchronizer: the page state is written to the URL as
    `search`, `consultationType`, `sortBy` and repeated `specialty` parameters, and
    read back from it. `URLSearchParams` is modelled as its ordered list of
    name/value entries, with each name classified as one of the four the listing
    uses or as another name; percent-encoding is not modelled. */
module QueryString {
  import opened Wrappers
  import opened Normalizer
  import opened Criteria
  import opened FilterEngine
  import opened Handlers
  import opened StableSort

  /** A parameter name: one of the four the listing uses, or any other. */
  datatype Name = Search | ConsultationType | SortBy | Specialty | Other(text: string)

  /** The name as it appears in the URL. */
  function Spelling(n: Name): string {
    match n
    case Search => "search"
    case ConsultationType => "consultationType"
    case SortBy => "sortBy"
    case Specialty => "specialty"
    case Other(text) => text
  }

  /** Classifies a name read from the URL. */
  function NameOf(text: string): (n: Name)
    ensures Spelling(n) == text
  {
    if text == "search" then Search
    else if text == "consultationType" then ConsultationType
    else if text == "sortBy" then SortBy
    else if text == "specialty" then Specialty
    else Other(text)
  }

  /** Classifying a spelled name gives the name back, so two entries have the same
      name in the URL exactly when they have the same `Name`. */
  lemma NameOfSpelling(n: Name)
    requires n.Other? ==> NameOf(n.text) == n
    ensures NameOf(Spelling(n)) == n
  {
  }

  type Params = seq<(Name, string)>

  /** The entries of a URL's query, names classified. */
  function Parse(entries: seq<(string, string)>): (ps: Params)
    ensures |ps| == |entries|
    ensures forall i :: 0 <= i < |ps| ==> ps[i] == (NameOf(entries[i].0), entries[i].1)
  {
    if entries == [] then []
    else [(NameOf(entries[0].0), entries[0].1)] + Parse(entries[1..])
  }

  predicate HasKey(ps: Params, key: Name) {
    exists i :: 0 <= i < |ps| && ps[i].0 == key
  }

  /** `getAll(key)`: the values of every `key` entry, in order. */
  function GetAll(ps: Params, key: Name): (r: seq<string>)
    ensures r == [] <==> !HasKey(ps, key)
  {
    if ps == [] then []
    else
      var rest := GetAll(ps[1..], key);
      assert HasKey(ps, key) <==> ps[0].0 == key || HasKey(ps[1..], key) by {
        if HasKey(ps[1..], key) {
          var i :| 0 <= i < |ps[1..]| && ps[1..][i].0 == key;
          assert ps[i + 1].0 == key;
        }
        if HasKey(ps, key) && ps[0].0 != key {
          var i :| 0 <= i < |ps| && ps[i].0 == key;
          assert ps[1..][i - 1].0 == key;
        }
      }
      (if ps[0].0 == key then [ps[0].1] else []) + rest
  }

  /** `get(key)`: the value of the first `key` entry, if any. */
  function Get(ps: Params, key: Name): (r: Option<string>)
    ensures r.None? <==> GetAll(ps, key) == []
    ensures r.Some? ==> r.value == GetAll(ps, key)[0]
  {
    if ps == [] then None
    else if ps[0].0 == key then Some(ps[0].1)
    else Get(ps[1..], key)
  }

  lemma {:induction false} GetAllConcat(a: Params, b: Params, key: Name)
    ensures GetAll(a + b, key) == GetAll(a, key) + GetAll(b, key)
  {
    if a != [] {
      var head := if a[0].0 == key then [a[0].1] else [];
      assert (a + b)[0] == a[0] && (a + b)[1..] == a[1..] + b;
      calc {
        GetAll(a + b, key);
        head + GetAll(a[1..] + b, key);
        { GetAllConcat(a[1..], b, key); }
        head + (GetAll(a[1..], key) + GetAll(b, key));
        (head + GetAll(a[1..], key)) + GetAll(b, key);
      }
    } else {
      assert a + b == b;
    }
  }

  /** Every entry named `key` dropped. */
  function RemoveKey(ps: Params, key: Name): (r: Params)
    ensures GetAll(r, key) == []
    ensures forall k :: k != key ==> GetAll(r, k) == GetAll(ps, k)
  {
    if ps == [] then []
    else if ps[0].0 == key then RemoveKey(ps[1..], key)
    else [ps[0]] + RemoveKey(ps[1..], key)
  }

  /** The first `key` entry given `value`, the later ones dropped. */
  function ReplaceFirst(ps: Params, key: Name, value: string): (r: Params)
    requires HasKey(ps, key)
    ensures GetAll(r, key) == [value]
    ensures forall k :: k != key ==> GetAll(r, k) == GetAll(ps, k)
  {
    if ps[0].0 == key then [(key, value)] + RemoveKey(ps[1..], key)
    else
      assert HasKey(ps[1..], key) by {
        var i :| 0 <= i < |ps| && ps[i].0 == key;
        assert ps[1..][i - 1].0 == key;
      }
      [ps[0]] + ReplaceFirst(ps[1..], key, value)
  }

  /** `set(key, value)`: afterwards `key` has exactly the one value `value`, every
      other name keeps its values, and a new name goes to the end. */
  function SetParam(ps: Params, key: Name, value: string): (r: Params)
    ensures GetAll(r, key) == [value]
    ensures forall k :: k != key ==> GetAll(r, k) == GetAll(ps, k)
    ensures !HasKey(ps, key) ==> r == ps + [(key, value)]
  {
    if HasKey(ps, key) then ReplaceFirst(ps, key, value)
    else
      forall k ensures GetAll(ps + [(key, value)], k) == GetAll(ps, k) + GetAll([(key, value)], k) {
        GetAllConcat(ps, [(key, value)], k);
      }
      ps + [(key, value)]
  }

  /** The state a URL describes. */
  datatype Query = Query(searchTerm: string, filters: FilterState)

  /** The first of a parameter's values, `""` when it has none. */
  function First(values: seq<string>): string {
    if values == [] then "" else values[0]
  }

  /** The decode effect: each of the four parameters read back (`get(name) || ""`,
      so an absent parameter reads as `""`), and all `specialty` values in order. */
  function Decode(ps: Params): (q: Query)
    ensures q.searchTerm == First(GetAll(ps, Search))
    ensures q.filters.consultationType == First(GetAll(ps, ConsultationType))
    ensures q.filters.sortBy == First(GetAll(ps, SortBy))
    ensures q.filters.specialties == GetAll(ps, Specialty)
  {
    Query(
      Get(ps, Search).GetOr(""),
      FilterState(
        Get(ps, ConsultationType).GetOr(""),
        GetAll(ps, Specialty),
        Get(ps, SortBy).GetOr("")))
  }

  /** Parameters the listing does not know are ignored, wherever they stand. */
  lemma DecodeIgnoresUnknown(before: Params, after: Params, key: Name, value: string)
    requires key.Other? && NameOf(key.text) == key
    ensures Decode(before + [(key, value)] + after) == Decode(before + after)
  {
    forall k: Name | !k.Other? {
      GetAllSkips(before, after, (key, value), k);
    }
  }

  /** An entry with another name adds nothing to `getAll(k)`. */
  lemma GetAllSkips(before: Params, after: Params, entry: (Name, string), k: Name)
    requires entry.0 != k
    ensures GetAll(before + [entry] + after, k) == GetAll(before + after, k)
  {
    GetAllConcat(before + [entry], after, k);
    GetAllConcat(before, [entry], k);
    GetAllConcat(before, after, k);
  }

  /** The values written for a field: one entry when it is non-empty, none otherwise. */
  function Written(value: string): (r: seq<string>)
    ensures First(r) == value
  {
    if value != "" then [value] else []
  }

  /** `if (value) params.set(key, value)`, on a list with no `key` entry yet. */
  method SetField(ps: Params, key: Name, value: string) returns (r: Params)
    requires GetAll(ps, key) == []
    ensures GetAll(r, key) == Written(value)
    ensures forall k :: k != key ==> GetAll(r, k) == GetAll(ps, k)
    ensures |r| == |ps| + |Written(value)|
  {
    r := ps;
    if value != "" {
      r := SetParam(ps, key, value);
    }
  }

  lemma AppendSpecialty(ps: Params, value: string)
    ensures GetAll(ps + [(Specialty, value)], Specialty) == GetAll(ps, Specialty) + [value]
    ensures forall k :: k != Specialty ==> GetAll(ps + [(Specialty, value)], k) == GetAll(ps, k)
  {
    forall k ensures GetAll(ps + [(Specialty, value)], k)
        == GetAll(ps, k) + GetAll([(Specialty, value)], k) {
      GetAllConcat(ps, [(Specialty, value)], k);
    }
  }

  /** `specialties.forEach(s => params.append("specialty", s))`. */
  method AppendSpecialties(ps: Params, specialties: seq<string>) returns (r: Params)
    ensures GetAll(r, Specialty) == GetAll(ps, Specialty) + specialties
    ensures forall k :: k != Specialty ==> GetAll(r, k) == GetAll(ps, k)
    ensures |r| == |ps| + |specialties|
  {
    r := ps;
    var i := 0;
    while i < |specialties|
      invariant 0 <= i <= |specialties|
      invariant GetAll(r, Specialty) == GetAll(ps, Specialty) + specialties[..i]
      invariant forall k :: k != Specialty ==> GetAll(r, k) == GetAll(ps, k)
      invariant |r| == |ps| + i
    {
      AppendSpecialty(r, specialties[i]);
      assert specialties[..i + 1] == specialties[..i] + [specialties[i]];
      r := r + [(Specialty, specialties[i])];
      i := i + 1;
    }
    assert specialties[..i] == specialties;
  }

  /** The encode effect's parameter list: `set` for each non-empty field, then one
      `append("specialty", …)` per selected specialty, in order. Reading it back
      gives the same state; an empty field leaves no parameter, a non-empty one
      exactly one, and there is no other entry. */
  method Encode(searchTerm: string, filters: FilterState) returns (ps: Params)
    ensures Decode(ps) == Query(searchTerm, filters)
    ensures GetAll(ps, Search) == Written(searchTerm)
    ensures GetAll(ps, ConsultationType) == Written(filters.consultationType)
    ensures GetAll(ps, SortBy) == Written(filters.sortBy)
    ensures GetAll(ps, Specialty) == filters.specialties
    ensures |ps| == |Written(searchTerm)| + |Written(filters.consultationType)|
      + |Written(filters.sortBy)| + |filters.specialties|
  {
    ps := SetField([], Search, searchTerm);
    ps := SetField(ps, ConsultationType, filters.consultationType);
    ps := SetField(ps, SortBy, filters.sortBy);
    ps := AppendSpecialties(ps, filters.specialties);
  }

  /** The URL-sync effect: nothing happens while the list is still empty (so a deep
      link survives until the records arrive); otherwise the URL is replaced by the
      encoded state and the visible list is recomputed. */
  method SyncUrl(doctors: seq<Doctor>, searchTerm: string, filters: FilterState)
    returns (url: Option<Params>, visible: Option<seq<Doctor>>)
    ensures url.None? <==> doctors == []
    ensures visible.None? <==> doctors == []
    ensures url.Some? ==> Decode(url.value) == Query(searchTerm, filters)
    ensures visible.Some? ==> forall d ::
      d in visible.value <==> d in doctors && Keep(d, searchTerm, filters)
    ensures visible.Some? ==>
      multiset(visible.value) == multiset(Selected(doctors, searchTerm, filters))
    ensures visible.Some? && filters.sortBy == "fees" ==>
      && (forall i, j :: 0 <= i < j < |visible.value| ==> visible.value[i].fees <= visible.value[j].fees)
      && KeepsTies(Selected(doctors, searchTerm, filters), visible.value, Fees)
    ensures visible.Some? && filters.sortBy == "experience" ==>
      && (forall i, j :: 0 <= i < j < |visible.value| ==>
            visible.value[i].experience >= visible.value[j].experience)
      && KeepsTies(Selected(doctors, searchTerm, filters), visible.value, Experience)
    ensures visible.Some? && filters.sortBy != "fees" && filters.sortBy != "experience" ==>
      visible.value == Selected(doctors, searchTerm, filters)
  {
    if |doctors| == 0 {
      return None, None;
    }
    var ps := Encode(searchTerm, filters);
    var results := ApplyFilters(doctors, searchTerm, filters);
    SelectedIsFilteredSubsequence(doctors, searchTerm, filters);
    forall d ensures d in results <==> d in Selected(doctors, searchTerm, filters) {
      assert d in results <==> d in multiset(results);
    }
    url, visible := Some(ps), Some(results);
  }

  /** The decode effect on the page state: filters and search term come from the
      URL, the suggestion list stays as it was. */
  function LoadQuery(s: Session, ps: Params): (r: Session)
    ensures r.searchTerm == First(GetAll(ps, Search))
    ensures r.filters.consultationType == First(GetAll(ps, ConsultationType))
    ensures r.filters.sortBy == First(GetAll(ps, SortBy))
    ensures r.filters.specialties == GetAll(ps, Specialty)
    ensures r.suggestions == s.suggestions
  {
    var q := Decode(ps);
    s.(searchTerm := q.searchTerm, filters := q.filters)
  }

  /** A URL without parameters describes the cleared state. */
  lemma EmptyQueryIsCleared(s: Session)
    ensures LoadQuery(ClearFilters(s), []) == ClearFilters(s)
  {
  }
}
