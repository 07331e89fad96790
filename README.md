# Doctor listing — a Dafny model

This project models the logic of the doctor-listing page in
`src/compounds/DoctorListing.jsx` and proves properties of it. The page fetches a directory of
doctors, normalizes each raw record, builds the sidebar's specialty catalogue, and filters and
sorts the list by search term, consultation mode, specialties and sort key. It keeps that state
in the URL's query string and reacts to the search box, the suggestion list and the sidebar
controls.

Modules, one file each:

- `Wrappers` (`wrappers.dfy`): the `Option` type, used for JSON fields that may be absent.
- `Text` (`text.dfy`): `toLowerCase` restricted to ASCII, and `includes` as a left-to-right
  scan, proved equal to "occurs at some index". Also the whitespace set behind `trim`, and the
  string order used by `Array.prototype.sort` without a comparator.
- `Seqs` (`seqs.dfy`): `Array.prototype.filter` over sequences with a test given as a function
  value, and the subsequence order, with the algebra of filters.
- `Normalizer` (`normalizer.dfy`): raw records become `Doctor` records. This covers
  `match(/\d+/)` plus `parseInt`, the `||` defaults, `photo || null` and the specialty names.
- `Catalogue` (`catalogue.dfy`): the two nested `forEach` loops that fill a set, then
  `Array.from(set).sort()`, written as a loop that extracts the least element.
- `Criteria` (`criteria.dfy`): the record tests of the filter engine. Each test is a
  `Criterion` value interpreted by `Holds`, so a filter stage can be named in a specification.
- `StableSort` (`stable_sort.dfy`): `results.sort(cmp)` as an in-place insertion sort on an
  `array<Doctor>`. It is proved sorted, a permutation of its input, and stable: for every rank,
  the records of that rank keep their order.
- `FilterEngine` (`filter_engine.dfy`): `applyFilters`, with its three guarded filter stages
  and the optional sort, and the search suggestions.
- `Handlers` (`handlers.dfy`): the page state, and the event handlers as functions from the old
  state to the new one. React replaces the state objects rather than mutating them.
- `QueryString` (`query_string.dfy`): `URLSearchParams` as an ordered list of name/value
  entries, with `get`, `getAll`, `set` and `append`. It also holds the effect that writes the
  state to the URL, the effect that reads it back, and the proof that reading what was written
  gives the same state.

Inputs from outside become parameters:

- the fetched JSON becomes `seq<RawDoctor>`;
- the URL's query becomes `Params`;
- the event values become handler arguments.

Reading the query back uses `getAll("specialty")`, which returns the `specialty` values in
the order they were appended. So `QueryString.Encode` proves an exact round trip, including the
order of the selected specialties.

## Model

| member | source | states |
|---|---|---|
| Text.LowerChar | src/compounds/DoctorListing.jsx:123 | an ASCII capital is shifted up by 32 to its lower-case letter; any other character is unchanged |
| Text.Lower | src/compounds/DoctorListing.jsx:123 | lowering keeps the length and lowers each character in place |
| Text.LowerIdempotent | src/compounds/DoctorListing.jsx:123 | lowering twice gives the same string as lowering once |
| Text.Contains | src/compounds/DoctorListing.jsx:123 | `includes` as a scan over start positions; a match needs a needle no longer than the string. ContainsIff gives its meaning |
| Text.ContainsIff | src/compounds/DoctorListing.jsx:123 | the `includes` scan answers true exactly when the needle occurs at some index of the string |
| Text.ContainsEmpty | src/compounds/DoctorListing.jsx:123 | every string includes the empty string |
| Text.TrimStart | src/compounds/DoctorListing.jsx:161 | the result is a suffix of the input; it does not start with whitespace; everything removed was whitespace |
| Text.TrimEnd | src/compounds/DoctorListing.jsx:161 | the result is a prefix of the input; it does not end with whitespace; everything removed was whitespace |
| Text.Trim | src/compounds/DoctorListing.jsx:161 | `trim()` gives an infix of the input. Everything before and after it is whitespace, and it is empty or neither starts nor ends with whitespace, so it is the longest such infix |
| Text.TrimEmptyIff | src/compounds/DoctorListing.jsx:161 | `value.trim()` is falsy exactly when every character of `value` is whitespace |
| Text.Less | src/compounds/DoctorListing.jsx:74 | the default sort order: a proper prefix comes first, otherwise the first differing character decides. No contract; LessIrreflexive, LessTransitive and LessTotal make it a strict total order |
| Text.LessIrreflexive | src/compounds/DoctorListing.jsx:74 | the default sort order never puts a string before itself |
| Text.LessTransitive | src/compounds/DoctorListing.jsx:74 | the default sort order is transitive |
| Text.LessTotal | src/compounds/DoctorListing.jsx:74 | of two different strings, one comes first in the default sort order |
| Seqs.FilterBy | src/compounds/DoctorListing.jsx:122-124 | `filter` never lengthens a list |
| Seqs.FilterByMembers | src/compounds/DoctorListing.jsx:122-124 | an element is in the filtered list exactly when it is in the list and passes the test |
| Seqs.FilterBySound | src/compounds/DoctorListing.jsx:122-124 | every element the filter keeps comes from the list and passes the test |
| Seqs.FilterByIsSubsequence | src/compounds/DoctorListing.jsx:122-124 | the filtered list is a subsequence of the list, so it keeps the list's order |
| Seqs.FilterByConcat | src/compounds/DoctorListing.jsx:122-124 | filtering a concatenation filters each part and concatenates the results |
| Seqs.Swap | src/compounds/DoctorListing.jsx:148-152 | swapping two neighbours exchanges their positions and leaves every other position alone |
| Seqs.SwapSplit | src/compounds/DoctorListing.jsx:148-152 | a swap of neighbours keeps the prefix before and the suffix after the exchanged pair, and keeps the multiset of elements |
| Seqs.FilterBySwap | src/compounds/DoctorListing.jsx:148-152 | exchanging two neighbours that do not both pass the test leaves the filtered list unchanged |
| Seqs.FilterByTwice | src/compounds/DoctorListing.jsx:121-136 | two filters in a row equal one filter whose test is the conjunction of both tests |
| Seqs.FilterByAgree | src/compounds/DoctorListing.jsx:122-124 | two tests that agree on every element of the list select the same elements |
| Seqs.FilterByKeepsAll | src/compounds/DoctorListing.jsx:122-124 | a filter that every element passes returns the list unchanged |
| Normalizer.LeadingDigits | src/compounds/DoctorListing.jsx:37 | the greedy `\d+` takes the longest all-digit prefix: it is all digits, and the next character is not a digit |
| Normalizer.FirstDigitRun | src/compounds/DoctorListing.jsx:37 | `match(/\d+/)` finds a non-empty run of digits, and finds none exactly when the text has no digit |
| Normalizer.ParseCountIsFirstRun | src/compounds/DoctorListing.jsx:36-44 | for text made of non-digits, then a maximal digit run, then anything, the parsed count is that run's decimal value |
| Normalizer.FirstRunAfter | src/compounds/DoctorListing.jsx:37 | the leftmost match of `\d+` comes after the leading non-digits and is the whole maximal run |
| Normalizer.LeadingDigitsOfRun | src/compounds/DoctorListing.jsx:37 | the greedy match stops at the first non-digit after a run |
| Normalizer.DecimalValue | src/compounds/DoctorListing.jsx:40 | `parseInt` of a numeral of k digits is a natural number below 10^k |
| Normalizer.DecimalLeadingZero | src/compounds/DoctorListing.jsx:40 | a leading zero does not change the value, so `parseInt("007")` is 7 |
| Normalizer.ParseCount | src/compounds/DoctorListing.jsx:36-44 | a missing field, or one with no digit (such as "Free"), counts as 0; a non-zero count comes from a field that holds a digit |
| Normalizer.PhotoOrNull | src/compounds/DoctorListing.jsx:49 | the photo is kept exactly when it is present and non-empty; otherwise it is `null` |
| Normalizer.OrEmpty | src/compounds/DoctorListing.jsx:48 | the `""` default of an optional string: the string itself, or "" when it is missing (no contract; used by NormalizeDoctor's) |
| Normalizer.SpecialityNames | src/compounds/DoctorListing.jsx:50-52 | each speciality's name, in order and one per entry; `[]` when the list is absent |
| Normalizer.City | src/compounds/DoctorListing.jsx:57 | `clinic?.address?.city` with its `""` default: the city when the clinic and its address are present, otherwise "" (no contract; used by NormalizeDoctor's) |
| Normalizer.NormalizeDoctor | src/compounds/DoctorListing.jsx:46-60 | id copied. name, qualifications, clinic name and city default to "". photo is kept only when present and non-empty, otherwise `null`. specialties are the entries' names. fees and experience are the first digit runs. A mode flag is true only when the raw flag is true |
| Normalizer.NormalizeAll | src/compounds/DoctorListing.jsx:35-61 | one normalized record per raw record, in the same order |
| Catalogue.SpecialtiesOfIff | src/compounds/DoctorListing.jsx:66-73 | the set gathered from the records holds exactly the specialties some record lists |
| Catalogue.Least | src/compounds/DoctorListing.jsx:74 | returns an element of the set that comes before every other element |
| Catalogue.SortedElements | src/compounds/DoctorListing.jsx:74 | `Array.from(set).sort()` is strictly ascending and holds exactly the set's elements |
| Catalogue.CollectSpecialties | src/compounds/DoctorListing.jsx:66-74 | the catalogue is strictly sorted, so it has no duplicates, and a name is in it exactly when some record lists it |
| Catalogue.SortedListingUnique | src/compounds/DoctorListing.jsx:74 | two strictly sorted lists of the same set are equal, so the Set's insertion order does not matter |
| Criteria.Filter | src/compounds/DoctorListing.jsx:119-146 | a filter stage never lengthens the list |
| Criteria.FilterMembers | src/compounds/DoctorListing.jsx:119-146 | a record is in a stage's output exactly when it is in its input and passes that stage's test (Seqs.FilterByMembers for a criterion's test) |
| Criteria.FilterSound | src/compounds/DoctorListing.jsx:119-146 | every record a stage keeps passes its test and comes from its input (Seqs.FilterBySound for a criterion's test) |
| Criteria.FilterIsSubsequence | src/compounds/DoctorListing.jsx:119-146 | a stage keeps the records in list order (Seqs.FilterByIsSubsequence for a criterion's test) |
| Criteria.FilterConcat | src/compounds/DoctorListing.jsx:119-146 | a stage applied to a concatenation is the concatenation of the stage applied to each part (Seqs.FilterByConcat for a criterion's test) |
| Criteria.FilterTwice | src/compounds/DoctorListing.jsx:121-146 | two consecutive stages have the same effect as one stage testing both conditions (Seqs.FilterByTwice for a criterion's test) |
| Criteria.FilterAgree | src/compounds/DoctorListing.jsx:119-146 | two stages whose tests agree on the list's records give the same result (Seqs.FilterByAgree for a criterion's test) |
| Criteria.FilterKeepsAll | src/compounds/DoctorListing.jsx:119-146 | a stage every record passes, like a skipped stage, leaves the list as it is (Seqs.FilterByKeepsAll for a criterion's test) |
| Criteria.EmptyTermMatchesAll | src/compounds/DoctorListing.jsx:121-125 | every name includes the empty search term, so skipping the name stage when the term is empty changes nothing |
| Criteria.NameMatchIgnoresCase | src/compounds/DoctorListing.jsx:123 | the name test gives the same answer for a term and for its lower-case form |
| Criteria.NameMatches | src/compounds/DoctorListing.jsx:122-124 | the name, lowered, includes the term, lowered (no contract; NameMatchIgnoresCase and EmptyTermMatchesAll are about it) |
| Criteria.ModeMatches | src/compounds/DoctorListing.jsx:128-135 | "video" keeps video consultations, "clinic" keeps in-clinic visits, any other mode keeps every record (no contract) |
| Criteria.SharesSpecialty | src/compounds/DoctorListing.jsx:139-145 | some selected specialty is one of the record's specialties (no contract) |
| Criteria.Keep | src/compounds/DoctorListing.jsx:121-146 | the combined test of the three stages. The specialty part applies only when something is selected. No contract; Narrow and SelectedIsFilteredSubsequence prove the staged filters equal it |
| Criteria.Rank | src/compounds/DoctorListing.jsx:148-152 | the comparator key: fees for `a.fees - b.fees`, negated experience for `b.experience - a.experience` (no contract; SortInPlace sorts by it) |
| StableSort.SwapKeepsTies | src/compounds/DoctorListing.jsx:148-152 | swapping neighbours of different rank keeps the multiset of records and keeps every group of equal rank in order |
| StableSort.RearrangedBySwap | src/compounds/DoctorListing.jsx:148-152 | a swap of neighbours of different rank keeps a list rearranged with respect to the original |
| StableSort.RearrangedTransitive | src/compounds/DoctorListing.jsx:148-152 | rearranging a rearrangement of a list is a rearrangement of that list |
| StableSort.InsertStep | src/compounds/DoctorListing.jsx:148-152 | moving the record being inserted one place left, past a record of greater rank, keeps the insertion invariant |
| StableSort.InsertDone | src/compounds/DoctorListing.jsx:148-152 | once the record being inserted meets a record of no greater rank, or reaches the front, the prefix is sorted |
| StableSort.Insert | src/compounds/DoctorListing.jsx:148-152 | one insertion step grows the sorted prefix by one record and only rearranges the array |
| StableSort.SortInPlace | src/compounds/DoctorListing.jsx:148-152 | the array ends sorted by rank and is a permutation of its old contents; records of equal rank keep their old relative order, as `Array.prototype.sort` is stable |
| FilterEngine.SelectedIsFilteredSubsequence | src/compounds/DoctorListing.jsx:119-146 | the records the filters select form a subsequence of the list; a record is selected exactly when its name includes the term ignoring case, its mode fits, and, when specialties are selected, it has one of them |
| FilterEngine.Selected | src/compounds/DoctorListing.jsx:119-146 | the records the filter stages keep, in list order. No contract; SelectedIsFilteredSubsequence and Narrow state its meaning |
| FilterEngine.Narrow | src/compounds/DoctorListing.jsx:119-146 | the three guarded stages run in turn (name if a term is set, mode if one is set, specialty if any are selected); together they select exactly the records the combined test keeps, in list order |
| FilterEngine.ApplyFilters | src/compounds/DoctorListing.jsx:118-155 | the result is a permutation of the selected records. It is sorted by non-decreasing fees for "fees" and by non-increasing experience for "experience", with ties in list order. For any other sort key it is the selected records in list order |
| FilterEngine.Suggestions | src/compounds/DoctorListing.jsx:161-170 | at most three suggestions, none while the input is blank, each a listed doctor whose name matches the input |
| FilterEngine.SuggestionsAreFirstMatches | src/compounds/DoctorListing.jsx:162-166 | for a non-blank input, the suggestions are the first min(3, k) of the k name matches, in list order |
| FilterEngine.SuggestionCount | src/compounds/DoctorListing.jsx:161-170 | there are exactly three suggestions exactly when the input is not blank and at least three names match it |
| Handlers.SearchChange | src/compounds/DoctorListing.jsx:157-171 | the search term becomes the typed value and the filters are kept. The suggestions are exactly `Suggestions` of the full list: none for a blank value, otherwise the first min(3, k) of the k name matches, in order |
| Handlers.SuggestionClick | src/compounds/DoctorListing.jsx:173-176 | the clicked name becomes the search term; the suggestion list closes; the filters are kept |
| Handlers.ConsultationTypeChange | src/compounds/DoctorListing.jsx:178-183 | only the consultation mode changes |
| Handlers.Without | src/compounds/DoctorListing.jsx:191 | removing a specialty leaves none of its occurrences; the result is a subsequence of the selection; every other specialty keeps its count |
| Handlers.WithoutAbsent | src/compounds/DoctorListing.jsx:191 | removing a specialty that is not selected changes nothing |
| Handlers.WithoutAppend | src/compounds/DoctorListing.jsx:191 | removal distributes over appending one entry |
| Handlers.CheckThenUncheck | src/compounds/DoctorListing.jsx:185-198 | checking a specialty that was not selected and then unchecking it restores the selection |
| Handlers.SpecialtyChange | src/compounds/DoctorListing.jsx:185-198 | checking appends the specialty at the end; unchecking removes every occurrence; nothing else in the state changes |
| Handlers.SpecialtyCheckboxFollows | src/compounds/DoctorListing.jsx:185-198 | after the change, the specialty is selected exactly when the box was checked |
| Handlers.SortChange | src/compounds/DoctorListing.jsx:200-205 | only the sort key changes |
| Handlers.ClearFilters | src/compounds/DoctorListing.jsx:207-215 | mode, sort key, specialties, search term and suggestions are all reset to empty |
| Handlers.ClearedFiltersSelectAll | src/compounds/DoctorListing.jsx:207-215 | after clearing, the filter stages select the whole list in its own order |
| QueryString.NameOf | src/compounds/DoctorListing.jsx:87 | classifying a parameter name keeps its spelling |
| QueryString.NameOfSpelling | src/compounds/DoctorListing.jsx:87 | classifying the spelling of a known name gives that name back |
| QueryString.Parse | src/compounds/DoctorListing.jsx:87 | parsing keeps every entry, in order, with its name classified and its value unchanged |
| QueryString.GetAll | src/compounds/DoctorListing.jsx:91 | `getAll` is empty exactly when no entry has the name |
| QueryString.Get | src/compounds/DoctorListing.jsx:90 | `get` is `null` exactly when `getAll` is empty; otherwise it is `getAll`'s first value |
| QueryString.GetAllConcat | src/compounds/DoctorListing.jsx:91 | the values of a concatenation of entry lists are the values of the first list followed by those of the second |
| QueryString.RemoveKey | src/compounds/DoctorListing.jsx:104 | dropping a name's entries leaves it without values and every other name's values unchanged |
| QueryString.ReplaceFirst | src/compounds/DoctorListing.jsx:104 | replacing the first entry of a name present in the list leaves the name exactly the new value; other names are unchanged |
| QueryString.SetParam | src/compounds/DoctorListing.jsx:104-107 | after `set`, the name has exactly the one new value and every other name keeps its values; a new name is appended at the end |
| QueryString.Decode | src/compounds/DoctorListing.jsx:86-97 | search term, mode and sort key are the first value of their parameter, or "" when there is none; the specialties are all `specialty` values, in order |
| QueryString.DecodeIgnoresUnknown | src/compounds/DoctorListing.jsx:86-97 | inserting anywhere an entry whose name is none of the four the listing reads does not change the decoded state |
| QueryString.GetAllSkips | src/compounds/DoctorListing.jsx:86-97 | an entry with a different name adds nothing to `getAll` of a name |
| QueryString.Written | src/compounds/DoctorListing.jsx:104-107 | the entries written for a field read back as the field's value |
| QueryString.SetField | src/compounds/DoctorListing.jsx:104-107 | `if (value) set(key, value)` on a name not present yet: one entry if the value is non-empty, none otherwise; other names are unchanged |
| QueryString.AppendSpecialty | src/compounds/DoctorListing.jsx:110 | `append` adds the value after the name's existing values and leaves other names alone |
| QueryString.AppendSpecialties | src/compounds/DoctorListing.jsx:109-111 | the selected specialties are appended in order after the existing `specialty` values, and other names are unchanged |
| QueryString.Encode | src/compounds/DoctorListing.jsx:102-111 | decoding the written query gives back exactly the state that was written, with the specialties in their order. Each non-empty field has one entry and an empty field has none, and there is no other entry |
| QueryString.SyncUrl | src/compounds/DoctorListing.jsx:99-116 | while the list is empty nothing is written or recomputed. Otherwise the written URL decodes to the current state, and the visible list is `applyFilters`' output. It holds exactly the records the combined test keeps, as a permutation of them. It is sorted and stable for "fees"/"experience", and in list order for any other key |
| QueryString.LoadQuery | src/compounds/DoctorListing.jsx:86-97 | search term, mode and sort key are the first value of their parameter, or ""; the specialties are all `specialty` values in order; the suggestion list is kept |
| QueryString.EmptyQueryIsCleared | src/compounds/DoctorListing.jsx:86-97 | a URL without parameters loads the cleared state |

## Left out

- The `fetch` of the directory, its error and loading flags, and `setDoctors`/`setFilteredDoctors`.
  The JSON array is a parameter of `Normalizer.NormalizeAll`. I/O cannot be modelled here.
- React's scheduling of effects, `navigate` and `useLocation`. Each effect is a function or
  method the caller invokes with the current state. `QueryString.SyncUrl` returns the new query
  and the visible list instead of performing the side effects.
- The URL text: percent-encoding, `+` for spaces and `toString()`. `URLSearchParams` is its list
  of entries, and `QueryString.Parse` takes entries that are already split and decoded.
- Text.Lower: lowers only ASCII letters. Full-Unicode `toLowerCase`, including characters whose
  lower case is longer, is not modelled.
- Normalizer.DecimalValue: unbounded. `parseInt` loses precision beyond 2^53, which is
  irrelevant for fees and years of experience.
- Normalizer.NormalizeDoctor: the raw fields have fixed types. `video_consult`/`in_clinic` are
  optional booleans, and the free-text fields are optional strings. A truthy non-boolean flag
  that JavaScript would pass through is not modelled.
- Normalizer.SpecialityNames: `spec.name` is always a string. An absent `spec.name`, which
  would put `undefined` into the specialty list, is not modelled.
- Text.Less: compares characters by code point. JavaScript compares UTF-16 code units, which
  orders characters outside the Basic Multilingual Plane differently.
- `renderText`, `toggleFilters`, the window-width check and all of the JSX rendering: they are
  presentation only.
- `src/compounds/AutocompleteHeader.jsx` is not part of this model. It is not used by the
  listing. The routing in `src/App.jsx` is not part of this model either.
