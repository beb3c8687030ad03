/** The Appointments page (`Appointments.jsx`): the search, date and status
    filters, the grouping of what remains by date with each day in time order,
    the order in which the days are shown, the date choices of the filter
    dropdown, the status colour, and when cancelling is offered. */
module AppointmentsPage {
  import opened Seqs
  import opened Text
  import Sorting
  import StatusColors

  /** An appointment as the page reads it. `date` is the date string the page
      groups and filters by; `time` is the minute of the day of its clock time,
      the order the comparator's `new Date('2000/01/01 ' + time)` induces. */
  datatype Appointment = Appointment(id: int, patientName: string, patientId: int, date: string,
                                     time: int, duration: int, status: string, visitType: string,
                                     doctor: string, notes: string)

  // ---------------------------------------------------------------------------
  // Filters

  /** The search box matches the patient's name, the visit type or the doctor,
      ignoring case. */
  predicate MatchesSearch(a: Appointment, term: string) {
    IncludesIgnoringCase(a.patientName, term) || IncludesIgnoringCase(a.visitType, term) ||
    IncludesIgnoringCase(a.doctor, term)
  }

  predicate Keeps(a: Appointment, searchTerm: string, dateFilter: string, statusFilter: string) {
    (searchTerm == "" || MatchesSearch(a, searchTerm)) &&
    (dateFilter == "all" || a.date == dateFilter) &&
    (statusFilter == "all" || a.status == statusFilter)
  }

  function Keep(searchTerm: string, dateFilter: string, statusFilter: string): Appointment -> bool {
    a => Keeps(a, searchTerm, dateFilter, statusFilter)
  }

  /** The appointments the controls keep, in their order. */
  function Kept(appointments: seq<Appointment>, searchTerm: string, dateFilter: string, statusFilter: string): seq<Appointment> {
    Filter(appointments, Keep(searchTerm, dateFilter, statusFilter))
  }

  // ---------------------------------------------------------------------------
  // Grouping by date

  type Groups = map<string, seq<Appointment>>

  function OnDay(date: string): Appointment -> bool {
    (a: Appointment) => a.date == date
  }

  /** The dates that occur in a list. */
  function Dates(s: seq<Appointment>): set<string> {
    set a | a in s :: a.date
  }

  function ByTime(a: Appointment): int {
    a.time
  }

  /** What the page shows for a filtered list: one group per date that occurs,
      holding that date's appointments in time order. */
  function Schedule(filtered: seq<Appointment>): Groups {
    map d | d in Dates(filtered) :: Sorting.SortBy(Filter(filtered, OnDay(d)), ByTime)
  }

  /** A date that occurs in no appointment of a list has nothing on it. */
  lemma {:induction false} NoneOnDay(s: seq<Appointment>, d: string)
    requires d !in Dates(s)
    ensures Filter(s, OnDay(d)) == []
  {
    if s != [] {
      assert s[0] in s;
      assert Dates(s[1..]) <= Dates(s) by {
        forall a | a in s[1..] ensures a in s {
        }
      }
      NoneOnDay(s[1..], d);
    }
  }

  /** `groups` holds, under each date of `s`, that date's appointments in
      the order of `s`, and nothing under any other date. */
  predicate Grouped(groups: Groups, s: seq<Appointment>) {
    groups.Keys == Dates(s) && forall d :: d in groups ==> groups[d] == Filter(s, OnDay(d))
  }

  /** Pushing one more appointment onto its date's group, creating the group
      if needed, keeps the grouping exact. */
  lemma GroupedStep(groups: Groups, s: seq<Appointment>, a: Appointment)
    requires Grouped(groups, s)
    ensures Grouped(groups[a.date := (if a.date in groups then groups[a.date] else []) + [a]], s + [a])
  {
    var current := if a.date in groups then groups[a.date] else [];
    assert current == Filter(s, OnDay(a.date)) by {
      if a.date !in groups {
        NoneOnDay(s, a.date);
      }
    }
    var next := groups[a.date := current + [a]];
    forall d | d in next
      ensures next[d] == Filter(s + [a], OnDay(d))
    {
      FilterSnoc(s, a, OnDay(d));
      if d == a.date {
        assert OnDay(d)(a);
      } else {
        assert !OnDay(d)(a) && next[d] == groups[d];
      }
    }
    DatesSnoc(s, a);
  }

  lemma DatesSnoc(s: seq<Appointment>, a: Appointment)
    ensures Dates(s + [a]) == Dates(s) + {a.date}
  {
    assert forall b :: b in s + [a] <==> b in s || b == a;
  }

  /** No group of an exact grouping is empty. */
  lemma GroupedNonEmpty(groups: Groups, s: seq<Appointment>)
    requires Grouped(groups, s)
    ensures forall d :: d in groups ==> groups[d] != []
  {
    forall d | d in groups
      ensures groups[d] != []
    {
      var a :| a in s && a.date == d;
      assert a in Filter(s, OnDay(d));
    }
  }

  /** The `reduce` step: a group is created for a date the first time it is
      met, and each appointment is pushed onto its date's group. */
  method GroupByDate(filtered: seq<Appointment>) returns (groups: Groups)
    ensures groups.Keys == Dates(filtered)
    ensures forall d :: d in groups ==> groups[d] == Filter(filtered, OnDay(d))
    ensures forall d :: d in groups ==> groups[d] != []
  {
    groups := map[];
    var i := 0;
    while i < |filtered|
      invariant 0 <= i <= |filtered|
      invariant Grouped(groups, filtered[..i])
    {
      var a := filtered[i];
      assert filtered[..i + 1] == filtered[..i] + [a];
      GroupedStep(groups, filtered[..i], a);
      var current := if a.date in groups then groups[a.date] else [];
      groups := groups[a.date := current + [a]];
      i := i + 1;
    }
    assert filtered[..i] == filtered;
    GroupedNonEmpty(groups, filtered);
  }

  /** The `forEach` step: every group is sorted by time, whatever order the
      dates are visited in. */
  method SortGroups(groups: Groups) returns (sorted: Groups)
    ensures sorted.Keys == groups.Keys
    ensures forall d :: d in sorted ==> sorted[d] == Sorting.SortBy(groups[d], ByTime)
  {
    sorted := groups;
    var todo := groups.Keys;
    while todo != {}
      invariant todo <= groups.Keys
      invariant sorted.Keys == groups.Keys
      invariant forall d :: d in sorted ==> sorted[d] == if d in todo then groups[d] else Sorting.SortBy(groups[d], ByTime)
      decreases |todo|
    {
      var d :| d in todo;
      sorted := sorted[d := Sorting.SortBy(sorted[d], ByTime)];
      todo := todo - {d};
    }
  }

  /** The filter effect: narrow the list by each active control, group the
      rest by date and sort each group by time. */
  method FilterAppointments(appointments: seq<Appointment>, searchTerm: string, dateFilter: string, statusFilter: string)
    returns (grouped: Groups)
    ensures grouped == Schedule(Kept(appointments, searchTerm, dateFilter, statusFilter))
  {
    var bySearch := (a: Appointment) => MatchesSearch(a, searchTerm);
    var byDate := (a: Appointment) => a.date == dateFilter;
    var byStatus := (a: Appointment) => a.status == statusFilter;
    var filtered := appointments;
    if searchTerm != "" {
      filtered := Filter(filtered, bySearch);
    }
    if dateFilter != "all" {
      filtered := Filter(filtered, byDate);
    }
    if statusFilter != "all" {
      filtered := Filter(filtered, byStatus);
    }
    FilterSteps(appointments, searchTerm != "", bySearch, dateFilter != "all", byDate,
                statusFilter != "all", byStatus, Keep(searchTerm, dateFilter, statusFilter));
    assert filtered == Kept(appointments, searchTerm, dateFilter, statusFilter);
    var groups := GroupByDate(filtered);
    grouped := SortGroups(groups);
    GroupsAreSchedule(filtered, groups, grouped);
  }

  /** Grouping by date, then sorting every group, yields the schedule. */
  lemma GroupsAreSchedule(filtered: seq<Appointment>, groups: Groups, grouped: Groups)
    requires groups.Keys == Dates(filtered)
    requires forall d :: d in groups ==> groups[d] == Filter(filtered, OnDay(d))
    requires grouped.Keys == groups.Keys
    requires forall d :: d in grouped ==> grouped[d] == Sorting.SortBy(groups[d], ByTime)
    ensures grouped == Schedule(filtered)
  {
  }

  /** The schedule partitions the kept appointments: its days are exactly their
      dates, each day is non-empty and holds only appointments of that date, in
      time order, each as often as it was kept and those with the same time in
      their original order. */
  lemma ScheduleIsPartition(filtered: seq<Appointment>)
    ensures Schedule(filtered).Keys == Dates(filtered)
    ensures forall d, a :: d in Schedule(filtered) && a in Schedule(filtered)[d] ==> a.date == d
    ensures forall a :: a in filtered ==> multiset(Schedule(filtered)[a.date])[a] == multiset(filtered)[a]
    ensures forall d :: d in Schedule(filtered) ==> Schedule(filtered)[d] != []
    ensures forall d :: d in Schedule(filtered) ==> Sorting.SortedBy(Schedule(filtered)[d], ByTime)
    ensures forall d, k :: d in Schedule(filtered) ==>
              Sorting.WithKey(Schedule(filtered)[d], ByTime, k) == Sorting.WithKey(Filter(filtered, OnDay(d)), ByTime, k)
  {
    var g := Schedule(filtered);
    forall d | d in g
      ensures multiset(g[d]) == multiset(Filter(filtered, OnDay(d)))
      ensures Sorting.SortedBy(g[d], ByTime)
      ensures forall k :: Sorting.WithKey(g[d], ByTime, k) == Sorting.WithKey(Filter(filtered, OnDay(d)), ByTime, k)
    {
      Sorting.SortBySortedPermutation(Filter(filtered, OnDay(d)), ByTime);
      forall k {
        Sorting.SortByStable(Filter(filtered, OnDay(d)), ByTime, k);
      }
    }
    forall d, a: Appointment | d in g && a in g[d]
      ensures a.date == d
    {
      assert a in multiset(g[d]);
      assert a in Filter(filtered, OnDay(d));
    }
    forall a | a in filtered
      ensures multiset(g[a.date])[a] == multiset(filtered)[a]
    {
      FilterCount(filtered, OnDay(a.date));
    }
    forall d | d in g
      ensures g[d] != []
    {
      var a :| a in filtered && a.date == d;
      assert a in Filter(filtered, OnDay(d));
      assert a in multiset(g[d]);
    }
  }

  // ---------------------------------------------------------------------------
  // Order of the days shown, and the date dropdown

  /** `Object.keys(filteredAppointments).sort()`: the days in string order,
      each once. */
  method ShownDays(grouped: Groups) returns (days: seq<string>)
    ensures Sorting.StrSorted(days)
    ensures forall d :: multiset(days)[d] == if d in grouped then 1 else 0
  {
    var keys: seq<string> := [];
    var todo := grouped.Keys;
    while todo != {}
      invariant todo <= grouped.Keys
      invariant forall d :: multiset(keys)[d] == if d in grouped && d !in todo then 1 else 0
      decreases |todo|
    {
      var d :| d in todo;
      keys := keys + [d];
      todo := todo - {d};
    }
    days := Sorting.SortStrings(keys);
    Sorting.SortStringsSortedPermutation(keys);
  }

  /** `['all', ...new Set(dates)].sort()`: the set keeps each date once, in
      the order first met, before the whole list is sorted. */
  method UniqueDates(appointments: seq<Appointment>) returns (choices: seq<string>)
    ensures Sorting.StrSorted(choices)
    ensures forall d :: multiset(choices)[d] == (if d == "all" then 1 else 0) + (if d in Dates(appointments) then 1 else 0)
  {
    var seen: set<string> := {};
    var unique: seq<string> := [];
    var i := 0;
    while i < |appointments|
      invariant 0 <= i <= |appointments|
      invariant seen == Dates(appointments[..i])
      invariant forall d :: multiset(unique)[d] == if d in seen then 1 else 0
    {
      var date := appointments[i].date;
      assert appointments[..i + 1] == appointments[..i] + [appointments[i]];
      if date !in seen {
        unique := unique + [date];
        seen := seen + {date};
      }
      i := i + 1;
    }
    assert appointments[..i] == appointments;
    var all := ["all"] + unique;
    choices := Sorting.SortStrings(all);
    Sorting.SortStringsSortedPermutation(all);
  }

  /** With dates written as `YYYY-MM-DD`, which begin with a digit, the
      `'all'` choice sorts after every date: it is the last choice offered. */
  lemma AllComesLast(appointments: seq<Appointment>, choices: seq<string>)
    requires forall a :: a in appointments ==> a.date != [] && IsDigit(a.date[0])
    requires Sorting.StrSorted(choices)
    requires forall d :: multiset(choices)[d] == (if d == "all" then 1 else 0) + (if d in Dates(appointments) then 1 else 0)
    ensures choices != [] && choices[|choices| - 1] == "all"
  {
    assert "all" in multiset(choices);
    var i :| 0 <= i < |choices| && choices[i] == "all";
    var last := choices[|choices| - 1];
    if i < |choices| - 1 {
      assert Sorting.StrLe(choices[i], last);
    } else {
      Sorting.StrLeTotal(last, last);
    }
    DigitBeforeAll(last);
    assert last !in Dates(appointments);
    assert last in multiset(choices);
  }

  /** A string that begins with a digit sorts before `'all'`. */
  lemma DigitBeforeAll(x: string)
    ensures x != [] && IsDigit(x[0]) ==> !Sorting.StrLe("all", x)
  {
  }

  // ---------------------------------------------------------------------------
  // Status colour and cancelling

  /** The options of `appointmentsData.js`. */
  const StatusOptions: seq<StatusColors.StatusOption> := [
    StatusColors.StatusOption("confirmed", "Confirmed", "green"),
    StatusColors.StatusOption("pending", "Pending", "yellow"),
    StatusColors.StatusOption("canceled", "Canceled", "red"),
    StatusColors.StatusOption("completed", "Completed", "blue")
  ]

  function StatusColor(status: string): (c: string)
    ensures status == "confirmed" ==> c == "green"
    ensures status == "pending" ==> c == "yellow"
    ensures status == "canceled" ==> c == "red"
    ensures status == "completed" ==> c == "blue"
    ensures status != "confirmed" && status != "pending" && status != "canceled" && status != "completed" ==> c == "gray"
  {
    StatusColors.ColorOf(StatusOptions, status)
  }

  /** The details dialog offers "Cancel Appointment" unless the appointment is
      already canceled, completed ones included. */
  predicate OffersCancel(a: Appointment) {
    a.status != "canceled"
  }

  /** The cancel button shows exactly when the status badge is not red: only
      a canceled appointment has a red badge. */
  lemma CancelUnlessRed(a: Appointment)
    ensures OffersCancel(a) <==> StatusColor(a.status) != "red"
  {
  }
}
