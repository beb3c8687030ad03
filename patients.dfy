/** The Patients page (`Patients.jsx`): the gender filter, the search, the
    optional age sort, adding and deleting a patient, and the sort toggle. */
module PatientsPage {
  import opened Seqs
  import opened Text
  import Sorting
  import opened Wrappers

  /** A patient's age: a number, or `''` when the add form's age box was left
      empty. */
  datatype PatientAge = Years(n: int) | Blank

  datatype Patient = Patient(id: int, name: string, age: PatientAge, gender: string, contact: string)

  /** What the add form hands over: the patient without an id. */
  datatype PatientForm = PatientForm(name: string, age: PatientAge, gender: string, contact: string)

  /** `age.toString()`. */
  function AgeText(age: PatientAge): string {
    match age
    case Years(n) => IntToString(n)
    case Blank => ""
  }

  /** The number `a.age - b.age` subtracts: `''` counts as 0. */
  function AgeValue(p: Patient): int {
    match p.age
    case Years(n) => n
    case Blank => 0
  }

  // ---------------------------------------------------------------------------
  // Filtering and sorting

  /** The search matches the name or the gender ignoring case, or the age's
      decimal text containing the term as typed. */
  predicate MatchesSearch(p: Patient, term: string) {
    IncludesIgnoringCase(p.name, term) || Includes(AgeText(p.age), term) ||
    IncludesIgnoringCase(p.gender, term)
  }

  predicate Keeps(p: Patient, genderFilter: string, searchTerm: string) {
    (genderFilter == "all" || p.gender == genderFilter) &&
    (searchTerm == "" || MatchesSearch(p, searchTerm))
  }

  function Keep(genderFilter: string, searchTerm: string): Patient -> bool {
    p => Keeps(p, genderFilter, searchTerm)
  }

  /** What the page lists: the kept patients, youngest first when sorting by
      age, in their order otherwise. */
  function Listed(patients: seq<Patient>, genderFilter: string, searchTerm: string, currentSort: string): seq<Patient> {
    var kept := Filter(patients, Keep(genderFilter, searchTerm));
    if currentSort == "age" then Sorting.SortBy(kept, AgeValue) else kept
  }

  /** The listing holds exactly the kept patients, as often as they occur;
      sorted by age it never decreases in age and keeps patients of one age
      in their order; unsorted it is an order-preserving part of the list. */
  lemma ListedOrder(patients: seq<Patient>, genderFilter: string, searchTerm: string, currentSort: string)
    ensures forall p :: multiset(Listed(patients, genderFilter, searchTerm, currentSort))[p] ==
                        if Keeps(p, genderFilter, searchTerm) then multiset(patients)[p] else 0
    ensures currentSort == "age" ==>
              forall i, j :: 0 <= i < j < |Listed(patients, genderFilter, searchTerm, currentSort)| ==>
                AgeValue(Listed(patients, genderFilter, searchTerm, currentSort)[i]) <=
                AgeValue(Listed(patients, genderFilter, searchTerm, currentSort)[j])
    ensures currentSort == "age" ==>
              forall k :: Sorting.WithKey(Listed(patients, genderFilter, searchTerm, currentSort), AgeValue, k) ==
                          Sorting.WithKey(Filter(patients, Keep(genderFilter, searchTerm)), AgeValue, k)
    ensures currentSort != "age" ==> Subseq(Listed(patients, genderFilter, searchTerm, currentSort), patients)
  {
    var kept := Filter(patients, Keep(genderFilter, searchTerm));
    FilterCount(patients, Keep(genderFilter, searchTerm));
    if currentSort == "age" {
      Sorting.SortBySortedPermutation(kept, AgeValue);
      forall k {
        Sorting.SortByStable(kept, AgeValue, k);
      }
    }
  }

  /** `filterAndSortPatients`: `result` is narrowed by the gender filter and
      the search, then sorted by age when that sort is on. The page reads the
      filter from `currentFilter`, which it never declares (see `Render`); here
      it is the `genderFilter` the gender buttons set. The status dropdown's
      value is accepted and, as in the page, plays no part. */
  method FilterAndSortPatients(patients: seq<Patient>, genderFilter: string, statusFilter: string,
                               searchTerm: string, currentSort: string)
    returns (result: seq<Patient>)
    ensures result == Listed(patients, genderFilter, searchTerm, currentSort)
  {
    var byGender := (p: Patient) => p.gender == genderFilter;
    var bySearch := (p: Patient) => MatchesSearch(p, searchTerm);
    var always := (p: Patient) => true;
    result := patients;
    if genderFilter != "all" {
      result := Filter(result, byGender);
    }
    if searchTerm != "" {
      result := Filter(result, bySearch);
    }
    FilterSteps(patients, genderFilter != "all", byGender, searchTerm != "", bySearch,
                false, always, Keep(genderFilter, searchTerm));
    if currentSort == "age" {
      result := Sorting.SortBy(result, AgeValue);
    }
  }

  // ---------------------------------------------------------------------------
  // Rendering

  /** The names the page declares: the module's imports and top-level
      components, the state of lines 13-22 and the handlers of lines 36-95. */
  const Declared: set<string> := {
    "React", "useState", "useEffect", "motion", "AnimatePresence", "PatientCard", "AddPatientModal",
    "DeleteConfirmationModal", "AgeChart", "GenderChart", "Notification", "patientsData", "Patients", "EmptyState",
    "patients", "setPatients", "filteredPatients", "setFilteredPatients", "searchTerm", "setSearchTerm",
    "genderFilter", "setGenderFilter", "statusFilter", "setStatusFilter", "currentSort", "setCurrentSort",
    "showAddModal", "setShowAddModal", "showDeleteModal", "setShowDeleteModal", "patientToDelete",
    "setPatientToDelete", "notification", "setNotification",
    "filterAndSortPatients", "addPatient", "deletePatient", "showNotification", "openDeleteModal", "handleSubmit"
  }

  /** The animation variants the returned markup reads (lines 104, 124 and
      216), which the page never declares. */
  const Variants: seq<string> := ["containerVariants", "itemVariants"]

  /** The page with the variants declared as well. */
  const DeclaredWithVariants: set<string> := Declared + {"containerVariants", "itemVariants"}

  /** The dependency array of the filtering effect as the page writes it. */
  const DependenciesAsWritten: seq<string> := ["patients", "currentFilter", "currentSort", "searchTerm"]

  /** The same array naming the gender filter the buttons set. */
  const Dependencies: seq<string> := ["patients", "genderFilter", "currentSort", "searchTerm"]

  /** Evaluating a sequence of variable reads left to right: the first name
      that is not declared throws a ReferenceError naming it. */
  function FirstUndeclared(declared: set<string>, names: seq<string>): (r: Option<string>)
    ensures r.None? <==> forall i :: 0 <= i < |names| ==> names[i] in declared
    ensures r.Some? ==> exists i :: 0 <= i < |names| && names[i] == r.value && r.value !in declared &&
                                    forall j :: 0 <= j < i ==> names[j] in declared
  {
    if names == [] then None
    else if names[0] !in declared then Some(names[0])
    else
      var r := FirstUndeclared(declared, names[1..]);
      assert forall i :: 1 <= i < |names| ==> names[i] == names[1..][i - 1];
      r
  }

  /** What a render of the page ends in: a thrown ReferenceError naming the
      undeclared variable, or the list the effect stores in `filteredPatients`. */
  datatype Outcome = ReferenceError(name: string) | Shown(listing: seq<Patient>)

  /** A render of the page declaring `declared`, whose filtering effect lists
      `deps`: the body reads that array (line 33) and then the variants in the
      markup it returns, so an undeclared name among them throws before the
      effect runs; otherwise the effect lists the kept patients. */
  function Render(declared: set<string>, deps: seq<string>, patients: seq<Patient>, genderFilter: string,
                  searchTerm: string, currentSort: string): (o: Outcome)
    ensures o.ReferenceError? <==> exists i :: 0 <= i < |deps + Variants| && (deps + Variants)[i] !in declared
    ensures o.ReferenceError? ==> o.name !in declared && o.name in deps + Variants
    ensures o.Shown? ==> o.listing == Listed(patients, genderFilter, searchTerm, currentSort)
  {
    match FirstUndeclared(declared, deps + Variants)
    case Some(name) => ReferenceError(name)
    case None => Shown(Listed(patients, genderFilter, searchTerm, currentSort))
  }

  /** As written, every render throws `currentFilter is not defined`, whatever
      the patients, the filters and the sort, so no patient is ever listed. */
  lemma RenderAsWrittenThrows(patients: seq<Patient>, genderFilter: string, searchTerm: string, currentSort: string)
    ensures Render(Declared, DependenciesAsWritten, patients, genderFilter, searchTerm, currentSort) ==
            ReferenceError("currentFilter")
  {
    assert (DependenciesAsWritten + Variants)[0] == "patients" && "patients" in Declared;
    assert (DependenciesAsWritten + Variants)[1] == "currentFilter" && "currentFilter" !in Declared;
  }

  /** Naming the gender filter alone is not enough: the render then throws at
      the first variant the markup reads. */
  lemma RenderWithoutVariantsThrows(patients: seq<Patient>, genderFilter: string, searchTerm: string, currentSort: string)
    ensures Render(Declared, Dependencies, patients, genderFilter, searchTerm, currentSort) ==
            ReferenceError("containerVariants")
  {
    var names := Dependencies + Variants;
    assert forall i :: 0 <= i < 4 ==> names[i] in Declared;
    assert names[4] == "containerVariants" && "containerVariants" !in Declared;
  }

  /** Naming the declared gender filter, and declaring the variants, every
      render lists exactly what the filters and the sort keep. */
  lemma RenderListsKept(patients: seq<Patient>, genderFilter: string, searchTerm: string, currentSort: string)
    ensures Render(DeclaredWithVariants, Dependencies, patients, genderFilter, searchTerm, currentSort) ==
            Shown(Listed(patients, genderFilter, searchTerm, currentSort))
  {
    var names := Dependencies + Variants;
    assert forall i :: 0 <= i < |names| ==> names[i] in DeclaredWithVariants;
  }

  // ---------------------------------------------------------------------------
  // Adding and deleting

  /** The largest id of a non-empty list. */
  function MaxId(patients: seq<Patient>): (m: int)
    requires patients != []
    ensures forall p :: p in patients ==> p.id <= m
    ensures exists p :: p in patients && p.id == m
  {
    if |patients| == 1 then patients[0].id
    else
      var rest := MaxId(patients[1..]);
      assert forall p :: p in patients[1..] ==> p in patients;
      if patients[0].id >= rest then patients[0].id else rest
  }

  /** `addPatient`: the form's fields with the next id, appended. */
  function AddPatient(patients: seq<Patient>, form: PatientForm): (r: seq<Patient>)
    ensures |r| == |patients| + 1 && r[..|patients|] == patients
    ensures r[|patients|] == Patient(r[|patients|].id, form.name, form.age, form.gender, form.contact)
    ensures patients == [] ==> r[0].id == 1
    ensures patients != [] ==> r[|patients|].id == MaxId(patients) + 1
    ensures forall p :: p in patients ==> p.id < r[|patients|].id
  {
    var id := if |patients| > 0 then MaxId(patients) + 1 else 1;
    patients + [Patient(id, form.name, form.age, form.gender, form.contact)]
  }

  /** `deletePatient`: every patient with that id goes, the others stay in
      order. */
  function DeletePatient(patients: seq<Patient>, patientId: int): (r: seq<Patient>)
    ensures Subseq(r, patients)
    ensures forall p :: p in r ==> p.id != patientId
    ensures forall p :: multiset(r)[p] == if p.id != patientId then multiset(patients)[p] else 0
  {
    FilterCount(patients, Other(patientId));
    Filter(patients, Other(patientId))
  }

  function Other(patientId: int): Patient -> bool {
    (p: Patient) => p.id != patientId
  }

  /** Deleting an id nobody has changes nothing; adding then deleting the new
      patient gives the list back. */
  lemma DeleteAfterAdd(patients: seq<Patient>, form: PatientForm)
    ensures var added := AddPatient(patients, form);
            DeletePatient(added, added[|patients|].id) == patients
  {
    var added := AddPatient(patients, form);
    var id := added[|patients|].id;
    var keep := Other(id);
    FilterAll(patients, keep);
    FilterSnoc(patients, added[|patients|], keep);
    assert added == patients + [added[|patients|]];
  }

  // ---------------------------------------------------------------------------
  // The age-sort button

  function ToggleSort(currentSort: string): (next: string)
    ensures next == "age" <==> currentSort != "age"
    ensures next == "age" || next == "none"
  {
    if currentSort == "age" then "none" else "age"
  }

  /** Pressing the button twice returns to the same sort. */
  lemma ToggleTwice(currentSort: string)
    requires currentSort == "age" || currentSort == "none"
    ensures ToggleSort(ToggleSort(currentSort)) == currentSort
  {
  }
}
