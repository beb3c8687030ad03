/** The Reports page (`Reports.jsx`): the search, type and status filters,
    the newest-first ordering of what remains, and the status colour. */
module ReportsPage {
  import opened Seqs
  import opened Text
  import Sorting
  import StatusColors

  /** A report as the page reads it; `date` is the time value that
      `new Date(report.date)` yields for the report's date string. */
  datatype Report = Report(id: int, title: string, reportType: string, description: string,
                           date: int, status: string)

  /** The search box matches the title, the description or the type,
      ignoring case. */
  predicate MatchesSearch(r: Report, term: string) {
    IncludesIgnoringCase(r.title, term) || IncludesIgnoringCase(r.description, term) ||
    IncludesIgnoringCase(r.reportType, term)
  }

  /** A report survives every active control; an empty search and the
      `'all'` choices are inactive. */
  predicate Keeps(r: Report, searchTerm: string, typeFilter: string, statusFilter: string) {
    (searchTerm == "" || MatchesSearch(r, searchTerm)) &&
    (typeFilter == "all" || r.reportType == typeFilter) &&
    (statusFilter == "all" || r.status == statusFilter)
  }

  function Keep(searchTerm: string, typeFilter: string, statusFilter: string): Report -> bool {
    r => Keeps(r, searchTerm, typeFilter, statusFilter)
  }

  /** The comparator `new Date(b.date) - new Date(a.date)` orders by this key
      ascending, that is by date descending. */
  function NewestFirst(r: Report): int {
    -r.date
  }

  /** What the page lists: the kept reports, newest first, reports of one date
      in their original order (the sort is stable). */
  function Listed(reports: seq<Report>, searchTerm: string, typeFilter: string, statusFilter: string): seq<Report> {
    Sorting.SortBy(Filter(reports, Keep(searchTerm, typeFilter, statusFilter)), NewestFirst)
  }

  /** The listing holds exactly the kept reports, as often as they occur, its
      dates never increase, and reports sharing a date keep their order. */
  lemma ListedOrder(reports: seq<Report>, searchTerm: string, typeFilter: string, statusFilter: string)
    ensures forall r :: multiset(Listed(reports, searchTerm, typeFilter, statusFilter))[r] ==
                        if Keeps(r, searchTerm, typeFilter, statusFilter) then multiset(reports)[r] else 0
    ensures forall i, j :: 0 <= i < j < |Listed(reports, searchTerm, typeFilter, statusFilter)| ==>
              Listed(reports, searchTerm, typeFilter, statusFilter)[i].date >=
              Listed(reports, searchTerm, typeFilter, statusFilter)[j].date
    ensures forall k :: Sorting.WithKey(Listed(reports, searchTerm, typeFilter, statusFilter), NewestFirst, k) ==
                        Sorting.WithKey(Filter(reports, Keep(searchTerm, typeFilter, statusFilter)), NewestFirst, k)
  {
    var kept := Filter(reports, Keep(searchTerm, typeFilter, statusFilter));
    FilterCount(reports, Keep(searchTerm, typeFilter, statusFilter));
    Sorting.SortBySortedPermutation(kept, NewestFirst);
    forall k {
      Sorting.SortByStable(kept, NewestFirst, k);
    }
  }

  /** The filtering effect: each active control narrows the list in turn, then
      the list is sorted newest first. */
  method FilterReports(reports: seq<Report>, searchTerm: string, typeFilter: string, statusFilter: string)
    returns (filtered: seq<Report>)
    ensures filtered == Listed(reports, searchTerm, typeFilter, statusFilter)
  {
    var bySearch := (r: Report) => MatchesSearch(r, searchTerm);
    var byType := (r: Report) => r.reportType == typeFilter;
    var byStatus := (r: Report) => r.status == statusFilter;
    filtered := reports;
    if searchTerm != "" {
      filtered := Filter(filtered, bySearch);
    }
    if typeFilter != "all" {
      filtered := Filter(filtered, byType);
    }
    if statusFilter != "all" {
      filtered := Filter(filtered, byStatus);
    }
    FilterSteps(reports, searchTerm != "", bySearch, typeFilter != "all", byType,
                statusFilter != "all", byStatus, Keep(searchTerm, typeFilter, statusFilter));
    filtered := Sorting.SortBy(filtered, NewestFirst);
  }

  /** The options of `reportsData.js`. */
  const StatusOptions: seq<StatusColors.StatusOption> := [
    StatusColors.StatusOption("draft", "Draft", "yellow"),
    StatusColors.StatusOption("published", "Published", "green"),
    StatusColors.StatusOption("archived", "Archived", "gray")
  ]

  function StatusColor(status: string): (c: string)
    ensures status == "draft" ==> c == "yellow"
    ensures status == "published" ==> c == "green"
    ensures status != "draft" && status != "published" ==> c == "gray"
  {
    StatusColors.ColorOf(StatusOptions, status)
  }
}
