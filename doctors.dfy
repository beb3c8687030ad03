/** The doctors page: the search and filter effect, the status colour, adding
    a doctor with the next id, merging an edited profile, and the text of the
    weekly availability. A doctor is a plain object (`id`, `name`,
    `specialty`, `qualification`, `status`, `rating`, `patients`,
    `availability` and profile fields). */
module DoctorsPage {
  import opened Wrappers
  import opened Text
  import opened Seqs
  import opened Json
  import StatusColors
  import opened Week
  import AddDoctorModal

  type Doctor = Object

  // ---------------------------------------------------------------------------
  // Search and filters

  /** The search callback as written: `name`, then `specialty`, then
      `qualification` are lower-cased and searched, stopping at the first
      match. None stands for the TypeError thrown when a field it reads is not
      a string (`undefined.toLowerCase()`). */
  function SearchAsWritten(d: Doctor, term: string): Option<bool> {
    var name := GetStr(d, "name");
    var specialty := GetStr(d, "specialty");
    var qualification := GetStr(d, "qualification");
    if name.None? then None
    else if IncludesIgnoringCase(name.value, term) then Some(true)
    else if specialty.None? then None
    else if IncludesIgnoringCase(specialty.value, term) then Some(true)
    else if qualification.None? then None
    else Some(IncludesIgnoringCase(qualification.value, term))
  }

  /** A field as the search reads it, a missing one read as "". */
  function SearchText(d: Doctor, key: string): string {
    GetStr(d, key).GetOr("")
  }

  /** The search with missing fields read as "", which never throws. */
  predicate MatchesSearch(d: Doctor, term: string) {
    IncludesIgnoringCase(SearchText(d, "name"), term) ||
    IncludesIgnoringCase(SearchText(d, "specialty"), term) ||
    IncludesIgnoringCase(SearchText(d, "qualification"), term)
  }

  /** Wherever the search as written returns, the corrected search agrees. */
  lemma SearchAgrees(d: Doctor, term: string)
    ensures SearchAsWritten(d, term).Some? ==> SearchAsWritten(d, term) == Some(MatchesSearch(d, term))
  {
  }

  /** A doctor added from the add-doctor form has no `qualification` (the form
      calls it `credentials`), so any search term not found in its name or
      specialty makes the search as written throw. */
  lemma SearchThrowsOnAddedDoctor(doctors: seq<Doctor>, form: Doctor, term: string)
    requires |doctors| > 0 && AllIntIds(doctors)
    requires "qualification" !in form
    requires GetStr(form, "name").Some? && !IncludesIgnoringCase(GetStr(form, "name").value, term)
    requires GetStr(form, "specialty").Some? && !IncludesIgnoringCase(GetStr(form, "specialty").value, term)
    ensures var added := AddDoctor(doctors, form)[|doctors|];
            SearchAsWritten(added, term) == None && !MatchesSearch(added, term)
  {
    var added := AddDoctor(doctors, form)[|doctors|];
    assert GetStr(added, "name") == GetStr(form, "name");
    assert GetStr(added, "specialty") == GetStr(form, "specialty");
    assert "qualification" !in added;
    assert SearchText(added, "qualification") == "";
    assert !IncludesIgnoringCase("", term) by {
      if term != [] {
        assert ToLower(term) != [];
        assert forall i :: !OccursAt(ToLower(""), ToLower(term), i);
      }
    }
  }

  /** `doctor[key] === value` for a string value. */
  predicate FieldIs(d: Doctor, key: string, value: string) {
    Get(d, key) == Some(Str(value))
  }

  /** What the three filters together keep: the search when the term is
      non-empty, the specialty and the status unless their filter is 'all'. */
  predicate Keeps(d: Doctor, searchTerm: string, specialtyFilter: string, statusFilter: string) {
    (searchTerm == "" || MatchesSearch(d, searchTerm)) &&
    (specialtyFilter == "all" || FieldIs(d, "specialty", specialtyFilter)) &&
    (statusFilter == "all" || FieldIs(d, "status", statusFilter))
  }

  function Keep(searchTerm: string, specialtyFilter: string, statusFilter: string): Doctor -> bool {
    d => Keeps(d, searchTerm, specialtyFilter, statusFilter)
  }

  /** The filter effect: `filtered` is reassigned by each active filter. The
      result is the list filtered by what the active controls keep: in order
      and as often as they occur, exactly those doctors; with no active
      control it is the whole list. */
  method FilterDoctors(doctors: seq<Doctor>, searchTerm: string, specialtyFilter: string, statusFilter: string)
    returns (filtered: seq<Doctor>)
    ensures filtered == Filter(doctors, Keep(searchTerm, specialtyFilter, statusFilter))
    ensures Subseq(filtered, doctors)
    ensures forall d :: multiset(filtered)[d] == if Keeps(d, searchTerm, specialtyFilter, statusFilter) then multiset(doctors)[d] else 0
    ensures searchTerm == "" && specialtyFilter == "all" && statusFilter == "all" ==> filtered == doctors
    ensures searchTerm != "" && (forall i :: 0 <= i < |doctors| ==> SearchAsWritten(doctors[i], searchTerm).Some?) ==>
              forall d :: d in filtered ==> SearchAsWritten(d, searchTerm) == Some(true)
  {
    var bySearch := (d: Doctor) => MatchesSearch(d, searchTerm);
    var bySpecialty := (d: Doctor) => FieldIs(d, "specialty", specialtyFilter);
    var byStatus := (d: Doctor) => FieldIs(d, "status", statusFilter);
    filtered := doctors;
    if searchTerm != "" {
      filtered := Filter(filtered, bySearch);
    }
    if specialtyFilter != "all" {
      filtered := Filter(filtered, bySpecialty);
    }
    if statusFilter != "all" {
      filtered := Filter(filtered, byStatus);
    }
    FilterSteps(doctors, searchTerm != "", bySearch, specialtyFilter != "all", bySpecialty,
                statusFilter != "all", byStatus, Keep(searchTerm, specialtyFilter, statusFilter));
    FilterCount(doctors, Keep(searchTerm, specialtyFilter, statusFilter));
    if searchTerm == "" && specialtyFilter == "all" && statusFilter == "all" {
      FilterAll(doctors, Keep(searchTerm, specialtyFilter, statusFilter));
    }
    forall d | d in filtered && searchTerm != "" && SearchAsWritten(d, searchTerm).Some?
      ensures SearchAsWritten(d, searchTerm) == Some(true)
    {
      SearchAgrees(d, searchTerm);
    }
  }

  // ---------------------------------------------------------------------------
  // Status colour

  /** The options of `doctorsData.js`. */
  const StatusOptions: seq<StatusColors.StatusOption> := [
    StatusColors.StatusOption("active", "Active", "green"),
    StatusColors.StatusOption("on_leave", "On Leave", "orange"),
    StatusColors.StatusOption("not_available", "Not Available", "red")
  ]

  function StatusColor(status: string): (c: string)
    ensures status == "active" ==> c == "green"
    ensures status == "on_leave" ==> c == "orange"
    ensures status == "not_available" ==> c == "red"
    ensures status != "active" && status != "on_leave" && status != "not_available" ==> c == "gray"
  {
    assert StatusOptions[0].value == "active" && StatusOptions[1].value == "on_leave" && StatusOptions[2].value == "not_available";
    StatusColors.ColorOf(StatusOptions, status)
  }

  // ---------------------------------------------------------------------------
  // Adding and editing

  predicate HasIntId(d: Doctor) {
    "id" in d && d["id"].Int?
  }

  predicate AllIntIds(doctors: seq<Doctor>) {
    forall i :: 0 <= i < |doctors| ==> HasIntId(doctors[i])
  }

  /** `Math.max(...doctors.map(d => d.id))` */
  function MaxId(doctors: seq<Doctor>): (m: int)
    requires |doctors| > 0 && AllIntIds(doctors)
    ensures forall i :: 0 <= i < |doctors| ==> doctors[i]["id"].i <= m
    ensures exists i :: 0 <= i < |doctors| && doctors[i]["id"].i == m
  {
    if |doctors| == 1 then doctors[0]["id"].i
    else
      var rest := MaxId(doctors[1..]);
      assert forall i :: 1 <= i < |doctors| ==> doctors[i] == doctors[1..][i - 1];
      if doctors[0]["id"].i >= rest then doctors[0]["id"].i else rest
  }

  /** `handleAddDoctor`: appends the submitted doctor with the next id and the
      starting rating, patient count and status, which override the form's. */
  function AddDoctor(doctors: seq<Doctor>, newDoctor: Doctor): (r: seq<Doctor>)
    requires |doctors| > 0 && AllIntIds(doctors)
    ensures |r| == |doctors| + 1 && r[..|doctors|] == doctors
    ensures var added := r[|doctors|];
            added.Keys == newDoctor.Keys + {"id", "rating", "patients", "status"} &&
            added["id"] == Int(MaxId(doctors) + 1) &&
            (forall i :: 0 <= i < |doctors| ==> doctors[i]["id"].i < added["id"].i) &&
            added["rating"] == Int(0) && added["patients"] == Int(0) && added["status"] == Str("active") &&
            (forall k :: k in newDoctor && k !in {"id", "rating", "patients", "status"} ==> added[k] == newDoctor[k])
  {
    var newId := MaxId(doctors) + 1;
    var added := newDoctor + map["id" := Int(newId), "rating" := Int(0), "patients" := Int(0), "status" := Str("active")];
    var r := doctors + [added];
    assert r[..|doctors|] == doctors;
    r
  }

  /** `doctor.id === updatedDoctor.id`; two missing ids are both `undefined`
      and compare equal. */
  predicate SameId(d: Doctor, u: Doctor) {
    Get(d, "id") == Get(u, "id")
  }

  function Merge(d: Doctor, u: Doctor): Doctor {
    d + u
  }

  /** `handleUpdateDoctor`: the doctors with the updated doctor's id are merged
      with it, the updated fields winning; every other doctor stays as it is. */
  function UpdateDoctor(doctors: seq<Doctor>, updated: Doctor): (r: seq<Doctor>)
    ensures |r| == |doctors|
    ensures forall i :: 0 <= i < |r| && !SameId(doctors[i], updated) ==> r[i] == doctors[i]
    ensures forall i :: 0 <= i < |r| && SameId(doctors[i], updated) ==>
              r[i].Keys == doctors[i].Keys + updated.Keys &&
              (forall k :: k in updated ==> r[i][k] == updated[k]) &&
              (forall k :: k in doctors[i] && k !in updated ==> r[i][k] == doctors[i][k])
  {
    seq(|doctors|, i requires 0 <= i < |doctors| =>
      if SameId(doctors[i], updated) then Merge(doctors[i], updated) else doctors[i])
  }

  /** The edit dialog is the add-doctor form, which ignores the doctor it is
      opened for and submits an object without `id`; when every doctor has an
      id, saving the edit therefore changes no doctor. */
  lemma EditChangesNothing(doctors: seq<Doctor>, form: Doctor)
    requires "id" !in form
    requires forall i :: 0 <= i < |doctors| ==> "id" in doctors[i]
    ensures UpdateDoctor(doctors, form) == doctors
  {
    var r := UpdateDoctor(doctors, form);
    assert forall i :: 0 <= i < |doctors| ==> !SameId(doctors[i], form);
  }

  /** The submitted object carrying the edited doctor's id. */
  function EditedDoctor(selected: Doctor, form: Doctor): (u: Doctor)
    ensures "id" in selected ==> Get(u, "id") == Get(selected, "id")
  {
    if "id" in selected then form["id" := selected["id"]] else form
  }

  /** With the id carried over, saving an edit writes the form's fields into
      the selected doctor. */
  lemma EditUpdatesSelected(doctors: seq<Doctor>, selected: Doctor, form: Doctor, i: nat)
    requires i < |doctors| && doctors[i] == selected && "id" in selected
    ensures var r := UpdateDoctor(doctors, EditedDoctor(selected, form));
            forall k :: k in form && k != "id" ==> r[i][k] == form[k]
  {
    assert SameId(doctors[i], EditedDoctor(selected, form));
  }

  // ---------------------------------------------------------------------------
  // Availability text

  /** One rendered day: its name and `slots.join(', ')`. */
  datatype DayLine = DayLine(day: string, slots: string)

  function DayNames(lines: seq<DayLine>): seq<string> {
    seq(|lines|, k requires 0 <= k < |lines| => lines[k].day)
  }

  /** A day is shown when it has at least one slot. */
  predicate Shown(availability: map<string, seq<string>>, day: string) {
    day in availability && |availability[day]| > 0
  }

  function FormatDays(availability: map<string, seq<string>>, days: seq<string>): (lines: seq<DayLine>)
    ensures Subseq(DayNames(lines), days)
    ensures forall d :: d in DayNames(lines) <==> d in days && Shown(availability, d)
    ensures forall k :: 0 <= k < |lines| ==>
              Shown(availability, lines[k].day) && lines[k].slots == Join(availability[lines[k].day], ", ")
  {
    if days == [] then []
    else
      var rest := FormatDays(availability, days[1..]);
      var day := days[0];
      assert days == [day] + days[1..];
      if Shown(availability, day) then
        var line := DayLine(day, Join(availability[day], ", "));
        DayNamesCons(line, rest);
        [line] + rest
      else
        assert Subseq(DayNames(rest), days[1..]);
        rest
  }

  lemma DayNamesCons(line: DayLine, rest: seq<DayLine>)
    ensures DayNames([line] + rest) == [line.day] + DayNames(rest)
  {
  }

  /** `formatAvailability`: the days with slots, Monday to Sunday, each with
      its slots joined by ", ". */
  function FormatAvailability(availability: map<string, seq<string>>): (lines: seq<DayLine>)
    ensures Subseq(DayNames(lines), Days)
    ensures forall d :: d in DayNames(lines) <==> d in Days && Shown(availability, d)
    ensures forall k :: 0 <= k < |lines| ==>
              Shown(availability, lines[k].day) && lines[k].slots == Join(availability[lines[k].day], ", ")
  {
    FormatDays(availability, Days)
  }

  // ---------------------------------------------------------------------------
  // What the add-doctor form submits

  /** The add-doctor form submits its seven text fields and the availability,
      never a `qualification`: a doctor added from it makes the search as
      written throw for every term its name and specialty do not contain. */
  lemma SubmittedFormBreaksSearch(doctors: seq<Doctor>, form: AddDoctorModal.DoctorForm, term: string)
    requires |doctors| > 0 && AllIntIds(doctors)
    requires form.Valid()
    requires !IncludesIgnoringCase(form.fields["name"], term)
    requires !IncludesIgnoringCase(form.fields["specialty"], term)
    ensures SearchAsWritten(AddDoctor(doctors, form.Submitted())[|doctors|], term) == None
  {
    var submitted := form.Submitted();
    AddDoctorModal.SubmittedKeys(submitted, form.fields);
    SearchThrowsOnAddedDoctor(doctors, submitted, term);
  }

  /** The form never submits an `id`, so saving it as an edit changes no
      doctor that has one. */
  lemma SubmittedEditChangesNothing(doctors: seq<Doctor>, form: AddDoctorModal.DoctorForm)
    requires form.Valid()
    requires forall i :: 0 <= i < |doctors| ==> "id" in doctors[i]
    ensures UpdateDoctor(doctors, form.Submitted()) == doctors
  {
    var submitted := form.Submitted();
    AddDoctorModal.SubmittedKeys(submitted, form.fields);
    EditChangesNothing(doctors, submitted);
  }
}
