/** The Medical Records page (`MedicalRecords.jsx`): the search, record-type
    and status filters, the newest-first ordering, and the status colour. */
module MedicalRecordsPage {
  import opened Seqs
  import opened Text
  import Sorting
  import StatusColors

  /** A record as the page reads it; `date` is the time value that
      `new Date(record.date)` yields for the record's date string. */
  datatype Record = Record(id: int, patientName: string, recordType: string, title: string,
                           content: string, doctor: string, date: int, status: string)

  /** The search box matches the patient's name, the title, the content or the
      doctor, ignoring case; the record type is not searched. */
  predicate MatchesSearch(r: Record, term: string) {
    IncludesIgnoringCase(r.patientName, term) || IncludesIgnoringCase(r.title, term) ||
    IncludesIgnoringCase(r.content, term) || IncludesIgnoringCase(r.doctor, term)
  }

  predicate Keeps(r: Record, searchTerm: string, typeFilter: string, statusFilter: string) {
    (searchTerm == "" || MatchesSearch(r, searchTerm)) &&
    (typeFilter == "all" || r.recordType == typeFilter) &&
    (statusFilter == "all" || r.status == statusFilter)
  }

  function Keep(searchTerm: string, typeFilter: string, statusFilter: string): Record -> bool {
    r => Keeps(r, searchTerm, typeFilter, statusFilter)
  }

  /** The comparator `new Date(b.date) - new Date(a.date)` orders by this key
      ascending, that is by date descending. */
  function NewestFirst(r: Record): int {
    -r.date
  }

  /** What the page lists: the kept records, newest first. */
  function Listed(records: seq<Record>, searchTerm: string, typeFilter: string, statusFilter: string): seq<Record> {
    Sorting.SortBy(Filter(records, Keep(searchTerm, typeFilter, statusFilter)), NewestFirst)
  }

  /** The listing holds exactly the kept records, as often as they occur, its
      dates never increase, and records sharing a date keep their order. */
  lemma ListedOrder(records: seq<Record>, searchTerm: string, typeFilter: string, statusFilter: string)
    ensures forall r :: multiset(Listed(records, searchTerm, typeFilter, statusFilter))[r] ==
                        if Keeps(r, searchTerm, typeFilter, statusFilter) then multiset(records)[r] else 0
    ensures forall i, j :: 0 <= i < j < |Listed(records, searchTerm, typeFilter, statusFilter)| ==>
              Listed(records, searchTerm, typeFilter, statusFilter)[i].date >=
              Listed(records, searchTerm, typeFilter, statusFilter)[j].date
    ensures forall k :: Sorting.WithKey(Listed(records, searchTerm, typeFilter, statusFilter), NewestFirst, k) ==
                        Sorting.WithKey(Filter(records, Keep(searchTerm, typeFilter, statusFilter)), NewestFirst, k)
  {
    var kept := Filter(records, Keep(searchTerm, typeFilter, statusFilter));
    FilterCount(records, Keep(searchTerm, typeFilter, statusFilter));
    Sorting.SortBySortedPermutation(kept, NewestFirst);
    forall k {
      Sorting.SortByStable(kept, NewestFirst, k);
    }
  }

  /** The filtering effect: each active control narrows the list in turn, then
      the list is sorted newest first. */
  method FilterRecords(records: seq<Record>, searchTerm: string, typeFilter: string, statusFilter: string)
    returns (filtered: seq<Record>)
    ensures filtered == Listed(records, searchTerm, typeFilter, statusFilter)
  {
    var bySearch := (r: Record) => MatchesSearch(r, searchTerm);
    var byType := (r: Record) => r.recordType == typeFilter;
    var byStatus := (r: Record) => r.status == statusFilter;
    filtered := records;
    if searchTerm != "" {
      filtered := Filter(filtered, bySearch);
    }
    if typeFilter != "all" {
      filtered := Filter(filtered, byType);
    }
    if statusFilter != "all" {
      filtered := Filter(filtered, byStatus);
    }
    FilterSteps(records, searchTerm != "", bySearch, typeFilter != "all", byType,
                statusFilter != "all", byStatus, Keep(searchTerm, typeFilter, statusFilter));
    filtered := Sorting.SortBy(filtered, NewestFirst);
  }

  /** The options of `medicalRecordsData.js`. */
  const StatusOptions: seq<StatusColors.StatusOption> := [
    StatusColors.StatusOption("active", "Active", "blue"),
    StatusColors.StatusOption("completed", "Completed", "green"),
    StatusColors.StatusOption("pending", "Pending", "yellow"),
    StatusColors.StatusOption("cancelled", "Cancelled", "red")
  ]

  function StatusColor(status: string): (c: string)
    ensures status == "active" ==> c == "blue"
    ensures status == "completed" ==> c == "green"
    ensures status == "pending" ==> c == "yellow"
    ensures status == "cancelled" ==> c == "red"
    ensures status != "active" && status != "completed" && status != "pending" && status != "cancelled" ==> c == "gray"
  {
    StatusColors.ColorOf(StatusOptions, status)
  }
}
