/** The record normalizer: raw doctor objects as parsed from the directory's JSON
    feed become flat `Doctor` records (DoctorListing.jsx, the `data.map` callback). */
module Normalizer {
  import opened Wrappers

  // ---------------------------------------------------------------------------
  // Raw records, as the JSON feed delivers them. A field that may be missing,
  // `null` or `undefined` is an `Option`.

  datatype RawSpeciality = RawSpeciality(name: string)

  datatype RawAddress = RawAddress(city: Option<string>)

  datatype RawClinic = RawClinic(name: Option<string>, address: Option<RawAddress>)

  datatype RawDoctor = RawDoctor(
    id: string,
    name: Option<string>,
    photo: Option<string>,
    specialities: Option<seq<RawSpeciality>>,
    experience: Option<string>,
    fees: Option<string>,
    qualifications: Option<string>,
    clinic: Option<RawClinic>,
    videoConsult: Option<bool>,
    inClinic: Option<bool>)

  /** The normalized record the rest of the listing works on. */
  datatype Doctor = Doctor(
    id: string,
    name: string,
    photo: Option<string>,
    specialties: seq<string>,
    fees: nat,
    experience: nat,
    qualifications: string,
    clinic: string,
    location: string,
    videoConsult: bool,
    inClinic: bool)

  // ---------------------------------------------------------------------------
  // The first run of ASCII digits (`text.match(/\d+/)` followed by `parseInt`)

  /** `\d` without the `u` flag: the ASCII digits only. */
  predicate IsDigit(c: char) {
    '0' <= c <= '9'
  }

  predicate AllDigits(s: string) {
    forall i :: 0 <= i < |s| ==> IsDigit(s[i])
  }

  predicate NoDigits(s: string) {
    forall i :: 0 <= i < |s| ==> !IsDigit(s[i])
  }

  function DigitValue(c: char): nat
    requires IsDigit(c)
  {
    c as int - '0' as int
  }

  function Pow10(k: nat): nat {
    if k == 0 then 1 else 10 * Pow10(k - 1)
  }

  /** `parseInt` of a string of decimal digits: a numeral of `k` digits stays below
      `10^k`. */
  function DecimalValue(ds: string): (r: nat)
    requires AllDigits(ds)
    ensures r < Pow10(|ds|)
  {
    if ds == [] then 0
    else DecimalValue(ds[..|ds| - 1]) * 10 + DigitValue(ds[|ds| - 1])
  }

  /** Leading zeros do not change the value: `parseInt("007")` is 7. */
  lemma {:induction false} DecimalLeadingZero(ds: string)
    requires AllDigits(ds)
    ensures AllDigits("0" + ds) && DecimalValue("0" + ds) == DecimalValue(ds)
    decreases |ds|
  {
    var z := "0" + ds;
    if ds != [] {
      var front := ds[..|ds| - 1];
      assert z[..|z| - 1] == "0" + front;
      assert z[|z| - 1] == ds[|ds| - 1];
      DecimalLeadingZero(front);
    } else {
      assert z[..|z| - 1] == [];
    }
  }

  /** The longest prefix of `s` made of digits (the greedy `+`). */
  function LeadingDigits(s: string): (r: string)
    ensures AllDigits(r) && |r| <= |s| && r == s[..|r|]
    ensures |r| == |s| || !IsDigit(s[|r|])
  {
    if s == [] || !IsDigit(s[0]) then [] else [s[0]] + LeadingDigits(s[1..])
  }

  /** The leftmost match of `/\d+/`, or `None` when `s` holds no digit. */
  function FirstDigitRun(s: string): (r: Option<string>)
    ensures r.Some? ==> r.value != [] && AllDigits(r.value)
    ensures r.None? <==> NoDigits(s)
  {
    if s == [] then None
    else if IsDigit(s[0]) then Some(LeadingDigits(s))
    else
      var r := FirstDigitRun(s[1..]);
      assert r.None? ==> forall i :: 1 <= i < |s| ==> s[1..][i - 1] == s[i];
      r
  }

  /** The numeric value read from a free-text field such as "13 Years of experience"
      or "₹500": the first digit run's value, 0 when the field is missing, empty or
      holds no digit. */
  function ParseCount(text: Option<string>): (r: nat)
    ensures text.None? || NoDigits(text.value) ==> r == 0
    ensures r != 0 ==> text.Some? && !NoDigits(text.value)
  {
    match text
    case None => 0
    case Some(t) =>
      if t == "" then 0
      else
        match FirstDigitRun(t)
        case None => 0
        case Some(run) => DecimalValue(run)
  }

  /** Where the text decomposes as non-digits, then a maximal digit run, the count is
      that run's value. */
  lemma {:induction false} ParseCountIsFirstRun(pre: string, run: string, post: string)
    requires NoDigits(pre) && run != [] && AllDigits(run)
    requires post == [] || !IsDigit(post[0])
    ensures ParseCount(Some(pre + run + post)) == DecimalValue(run)
  {
    FirstRunAfter(pre, run, post);
  }

  lemma {:induction false} FirstRunAfter(pre: string, run: string, post: string)
    requires NoDigits(pre) && run != [] && AllDigits(run)
    requires post == [] || !IsDigit(post[0])
    ensures FirstDigitRun(pre + run + post) == Some(run)
    decreases |pre|
  {
    var s := pre + run + post;
    if pre == [] {
      assert s == run + post;
      LeadingDigitsOfRun(run, post);
    } else {
      assert s[1..] == pre[1..] + run + post;
      FirstRunAfter(pre[1..], run, post);
    }
  }

  lemma {:induction false} LeadingDigitsOfRun(run: string, post: string)
    requires AllDigits(run)
    requires post == [] || !IsDigit(post[0])
    ensures LeadingDigits(run + post) == run
    decreases |run|
  {
    if run != [] {
      assert (run + post)[1..] == run[1..] + post;
      LeadingDigitsOfRun(run[1..], post);
    } else {
      assert run + post == post;
    }
  }

  // ---------------------------------------------------------------------------
  // One record, then the whole feed

  /** JavaScript's `x || ""` on an optional string. */
  function OrEmpty(x: Option<string>): string {
    x.GetOr("")
  }

  /** `doctor.photo || null`: an empty photo URL is falsy and becomes `null` too. */
  function PhotoOrNull(x: Option<string>): (r: Option<string>)
    ensures r.Some? <==> x.Some? && x.value != ""
    ensures r.Some? ==> r == x
  {
    if x.Some? && x.value != "" then x else None
  }

  /** `spec.name` for each entry of `specialities`, or `[]` when the list is absent. */
  function SpecialityNames(specs: Option<seq<RawSpeciality>>): (r: seq<string>)
    ensures specs.None? ==> r == []
    ensures specs.Some? ==> |r| == |specs.value|
    ensures specs.Some? ==> forall i :: 0 <= i < |r| ==> r[i] == specs.value[i].name
  {
    match specs
    case None => []
    case Some(list) => seq(|list|, i requires 0 <= i < |list| => list[i].name)
  }

  function City(clinic: Option<RawClinic>): string {
    if clinic.Some? && clinic.value.address.Some? then OrEmpty(clinic.value.address.value.city)
    else ""
  }

  function NormalizeDoctor(raw: RawDoctor): (d: Doctor)
    ensures d.id == raw.id
    ensures d.name == (if raw.name.Some? then raw.name.value else "")
    ensures d.specialties == SpecialityNames(raw.specialities)
    ensures d.fees == ParseCount(raw.fees) && d.experience == ParseCount(raw.experience)
    ensures d.videoConsult <==> raw.videoConsult == Some(true)
    ensures d.inClinic <==> raw.inClinic == Some(true)
    ensures d.photo == PhotoOrNull(raw.photo)
    ensures d.qualifications == OrEmpty(raw.qualifications)
    ensures d.clinic == (if raw.clinic.Some? then OrEmpty(raw.clinic.value.name) else "")
    ensures d.location == City(raw.clinic)
  {
    Doctor(
      id := raw.id,
      name := OrEmpty(raw.name),
      photo := PhotoOrNull(raw.photo),
      specialties := SpecialityNames(raw.specialities),
      fees := ParseCount(raw.fees),
      experience := ParseCount(raw.experience),
      qualifications := OrEmpty(raw.qualifications),
      clinic := if raw.clinic.Some? then OrEmpty(raw.clinic.value.name) else "",
      location := City(raw.clinic),
      videoConsult := raw.videoConsult.GetOr(false),
      inClinic := raw.inClinic.GetOr(false))
  }

  /** `data.map(normalize)`: one record per raw object, in the same order. */
  function NormalizeAll(data: seq<RawDoctor>): (r: seq<Doctor>)
    ensures |r| == |data|
    ensures forall i :: 0 <= i < |data| ==> r[i] == NormalizeDoctor(data[i])
  {
    if data == [] then []
    else [NormalizeDoctor(data[0])] + NormalizeAll(data[1..])
  }
}
