/** The calculations behind the dashboard endpoints: the four stat cards, the
    recent-activity feed, the "time ago" text, the upcoming-appointment list
    and the health metrics (monthly patient growth, appointment purposes and
    age groups). The controller has two near-duplicate variants, the
    `/stats` + `/activity` + `/health-metrics` handlers and the combined
    `/data` handler; `Variant` says which one is meant where they differ.
    File reading, the clock and `Math.random` are left out: the lists, the
    current time, one month ago and the fallback timestamps are inputs. */
module Dashboard {
  import opened Wrappers
  import opened Text
  import opened Seqs
  import Sorting

  // ---------------------------------------------------------------------------
  // Data

  type Month = m: int | 0 <= m < 12

  /** A `createdAt` / `updatedAt` value: milliseconds since the epoch and the
      month (0 to 11) that `getMonth()` reports for it in the server's zone. */
  datatype Stamp = Stamp(ms: int, month: Month)

  /** A patient's `age` field as the JSON file holds it. */
  datatype Age = NoAge | AgeNumber(n: int) | AgeText(s: string)

  datatype Patient = Patient(id: string, name: string, age: Age, createdAt: Option<Stamp>)

  /** `status`, `date`, `time` and `purpose` are "" when missing; a missing
      `waitTime` is 0 (both are falsy); `patientName` is None when missing,
      which a template string prints as "undefined". */
  datatype Appointment = Appointment(id: string, patientId: string, patientName: Option<string>,
                                     status: string, date: string, time: string, purpose: string,
                                     waitTime: int, createdAt: Option<Stamp>)

  datatype MedicalRecord = MedicalRecord(patientName: Option<string>, status: string, updatedAt: Option<Stamp>)

  datatype LabTest = LabTest(patientName: Option<string>, status: string, createdAt: Option<Stamp>)

  /** The `/stats` + `/activity` + `/health-metrics` handlers, or `/data`. */
  datatype Variant = SeparateEndpoints | CombinedEndpoint

  // ---------------------------------------------------------------------------
  // Rounding

  /** `Math.round(a / b)` for `b > 0`: the integer nearest to a/b, halves
      rounded up. */
  function RoundDiv(a: int, b: int): (r: int)
    requires b > 0
    ensures b * (2 * r - 1) <= 2 * a < b * (2 * r + 1)
  {
    var r := (2 * a + b) / (2 * b);
    DivBounds(2 * a + b, 2 * b);
    r
  }

  lemma DivBounds(x: int, y: int)
    requires y > 0
    ensures y * (x / y) <= x < y * (x / y) + y
  {
  }

  /** `Math.round((c / t) * 100)`, the percentage of c out of t. */
  function ChangePercent(c: nat, t: nat): (p: int)
    requires t > 0
    ensures c <= t ==> 0 <= p <= 100
    ensures t * (2 * p - 1) <= 200 * c < t * (2 * p + 1)
  {
    var p := RoundDiv(100 * c, t);
    PercentBounds(c, t, p);
    p
  }

  lemma PercentBounds(c: nat, t: nat, p: int)
    requires 0 < t
    requires t * (2 * p - 1) <= 200 * c < t * (2 * p + 1)
    ensures c <= t ==> 0 <= p <= 100
  {
    if c <= t && p < 0 {
      MulMonotone(t, 2 * p + 1, -1);
    }
    if c <= t && p > 100 {
      MulMonotone(t, 201, 2 * p - 1);
    }
  }

  lemma MulMonotone(t: int, a: int, b: int)
    requires t >= 0 && a <= b
    ensures t * a <= t * b
  {
    assert t * b - t * a == t * (b - a);
  }

  // ---------------------------------------------------------------------------
  // Stat cards

  /** `new Date(x.createdAt) >= lastMonth`; a missing date is an invalid Date,
      and comparisons with it are false. */
  predicate CreatedSince(c: Option<Stamp>, since: int) {
    c.Some? && c.value.ms >= since
  }

  /** `p => new Date(p.createdAt) >= lastMonth` */
  function PatientIsNew(since: int): Patient -> bool {
    (p: Patient) => CreatedSince(p.createdAt, since)
  }

  /** `a => new Date(a.createdAt) >= lastMonth` */
  function AppointmentIsNew(since: int): Appointment -> bool {
    (a: Appointment) => CreatedSince(a.createdAt, since)
  }

  /** The "Total Patients" change: computed only when the first patient has a
      creation date; the separate handler shows the count of patients created
      since `lastMonth` as "+n", the combined one their percentage as "+p%". */
  function PatientChange(v: Variant, patients: seq<Patient>, lastMonth: int): (change: string)
    ensures !(|patients| > 0 && patients[0].createdAt.Some?) ==> change == "0%"
    ensures |patients| > 0 && patients[0].createdAt.Some? ==>
              |change| > 1 && change[0] == '+' &&
              ParseInt(change) == Some(if v == SeparateEndpoints then |Filter(patients, PatientIsNew(lastMonth))|
                                       else ChangePercent(|Filter(patients, PatientIsNew(lastMonth))|, |patients|))
  {
    if |patients| > 0 && patients[0].createdAt.Some? then
      var n := |Filter(patients, PatientIsNew(lastMonth))|;
      if v == SeparateEndpoints then
        ParseIntOfPlus(n, "");
        assert "+" + IntToString(n) + "" == "+" + IntToString(n);
        "+" + IntToString(n)
      else
        var p := ChangePercent(n, |patients|);
        ParseIntOfPlus(p, "%");
        "+" + IntToString(p) + "%"
    else "0%"
  }

  /** The "Appointments" change: the percentage of appointments created since
      `lastMonth`, computed only when the first appointment has a date. */
  function AppointmentChange(appointments: seq<Appointment>, lastMonth: int): (change: string)
    ensures !(|appointments| > 0 && appointments[0].createdAt.Some?) ==> change == "0%"
    ensures |appointments| > 0 && appointments[0].createdAt.Some? ==>
              |change| > 2 && change[0] == '+' && change[|change| - 1] == '%' &&
              ParseInt(change) == Some(ChangePercent(|Filter(appointments, AppointmentIsNew(lastMonth))|, |appointments|))
  {
    if |appointments| > 0 && appointments[0].createdAt.Some? then
      var p := ChangePercent(|Filter(appointments, AppointmentIsNew(lastMonth))|, |appointments|);
      ParseIntOfPlus(p, "%");
      "+" + IntToString(p) + "%"
    else "0%"
  }

  /** `a => a.waitTime`: a missing or zero wait is falsy. */
  predicate HasWait(a: Appointment) {
    a.waitTime != 0
  }

  /** `appointments.filter(a => a.waitTime).map(a => a.waitTime)`: the
      truthy wait times, one per appointment that has one, in input order. */
  function WaitTimes(appointments: seq<Appointment>): (w: seq<int>)
    ensures |w| == |Filter(appointments, HasWait)|
    ensures forall i :: 0 <= i < |w| ==> w[i] == Filter(appointments, HasWait)[i].waitTime
    ensures forall x :: x in w ==> x != 0
  {
    var waiting := Filter(appointments, HasWait);
    assert forall i :: 0 <= i < |waiting| ==> HasWait(waiting[i]) by {
      forall i | 0 <= i < |waiting| ensures HasWait(waiting[i]) {
        assert waiting[i] in waiting;
      }
    }
    seq(|waiting|, i requires 0 <= i < |waiting| => waiting[i].waitTime)
  }

  function Sum(xs: seq<int>): int {
    if xs == [] then 0 else xs[0] + Sum(xs[1..])
  }

  /** The average wait in minutes: computed only when the first appointment has
      a wait time, as the rounded mean of all non-zero wait times. */
  function AverageWait(appointments: seq<Appointment>): (m: Option<int>)
    ensures m.Some? <==> |appointments| > 0 && appointments[0].waitTime != 0
    ensures m.Some? ==>
              var n := |WaitTimes(appointments)|;
              n > 0 && n * (2 * m.value - 1) <= 2 * Sum(WaitTimes(appointments)) < n * (2 * m.value + 1)
  {
    if |appointments| > 0 && appointments[0].waitTime != 0 then
      var w := WaitTimes(appointments);
      assert appointments[0] in Filter(appointments, HasWait);
      Some(RoundDiv(Sum(w), |w|))
    else None
  }

  function AverageWaitText(m: Option<int>): string {
    match m
    case Some(x) => IntToString(x) + " min"
    case None => "0 min"
  }

  /** The "Avg. Wait Time" change: a fixed "-2 min" in the separate handler and
      "0 min" in the combined one, once an average is computed. */
  function WaitTimeChange(v: Variant, m: Option<int>): string {
    if m.Some? && v == SeparateEndpoints then "-2 min" else "0 min"
  }

  /** `record => record.status === "pending"` */
  predicate IsPending(r: MedicalRecord) {
    r.status == "pending"
  }

  /** "+n" when n records are pending, "0" when none is; either way `parseInt`
      reads n back. */
  function PendingChange(n: nat): (change: string)
    ensures change == "0" <==> n == 0
    ensures n > 0 ==> |change| > 1 && change[0] == '+'
    ensures ParseInt(change) == Some(n)
  {
    if n > 0 then
      ParseIntOfPlus(n, "");
      assert "+" + IntToString(n) + "" == "+" + IntToString(n);
      "+" + IntToString(n)
    else
      ParseZero();
      "0"
  }

  lemma ParseZero()
    ensures ParseInt("0") == Some(0)
  {
    ParseIntOfIntToString(0);
    assert IntToString(0) == "0";
  }

  datatype StatValue = CountValue(n: nat) | TextValue(s: string)

  datatype StatCard = StatCard(id: nat, title: string, value: StatValue, change: string,
                               isPositive: bool, icon: string, color: string)

  /** The four stat cards, with ids 1 to 4 in the order patients, appointments,
      average wait, pending reports; only the pending card is negative. */
  function Stats(v: Variant, patients: seq<Patient>, appointments: seq<Appointment>,
                 records: seq<MedicalRecord>, lastMonth: int): (cards: seq<StatCard>)
    ensures |cards| == 4
    ensures cards[0].id == 1 && cards[1].id == 2 && cards[2].id == 3 && cards[3].id == 4
    ensures cards[0].isPositive && cards[1].isPositive && cards[2].isPositive && !cards[3].isPositive
    ensures cards[0].value == CountValue(|patients|) && cards[1].value == CountValue(|appointments|)
    ensures cards[3].value == CountValue(|Filter(records, IsPending)|) && cards[3].change == PendingChange(|Filter(records, IsPending)|)
    ensures cards[3].value.n == 0 <==> forall i :: 0 <= i < |records| ==> records[i].status != "pending"
    ensures cards[2].value == TextValue(AverageWaitText(AverageWait(appointments)))
    ensures cards[0].change == PatientChange(v, patients, lastMonth)
    ensures cards[1].change == AppointmentChange(appointments, lastMonth)
    ensures cards[2].change == WaitTimeChange(v, AverageWait(appointments))
  {
    var wait := AverageWait(appointments);
    var pending := |Filter(records, IsPending)|;
    FilterEmpty(records, IsPending);
    var patientChange := PatientChange(v, patients, lastMonth);
    var appointmentChange := AppointmentChange(appointments, lastMonth);
    [ StatCard(1, "Total Patients", CountValue(|patients|), patientChange, true, "patients", "blue"),
      StatCard(2, "Appointments", CountValue(|appointments|), appointmentChange, true, "calendar", "green"),
      StatCard(3, "Avg. Wait Time", TextValue(AverageWaitText(wait)), WaitTimeChange(v, wait), true, "clock", "indigo"),
      StatCard(4, "Pending Reports", CountValue(pending), PendingChange(pending), false, "document", "red") ]
  }

  // ---------------------------------------------------------------------------
  // "Time ago"

  datatype Ago = SecondsAgo(n: int) | MinutesAgo(n: int) | HoursAgo(n: int) | Yesterday | DaysAgo(n: int)

  /** `getTimeAgo`: seconds, minutes, hours and days, each rounded from the
      previous rounded unit. */
  function TimeAgo(now: int, past: int): Ago {
    var sec := RoundDiv(now - past, 1000);
    var min := RoundDiv(sec, 60);
    var hour := RoundDiv(min, 60);
    var day := RoundDiv(hour, 24);
    if sec < 60 then SecondsAgo(sec)
    else if min < 60 then MinutesAgo(min)
    else if hour < 24 then HoursAgo(hour)
    else if day == 1 then Yesterday
    else DaysAgo(day)
  }

  /** Because of the cascaded rounding, the bands in milliseconds elapsed are:
      under 59.5 s seconds, under 59 min 29.5 s minutes, under 23 h 29 min
      29.5 s hours, under 35 h 29 min 29.5 s "Yesterday", and days beyond;
      each count lies in its unit's range and a day count is at least 2. */
  lemma TimeAgoBands(now: int, past: int)
    ensures var a := TimeAgo(now, past);
            (a.SecondsAgo? <==> now - past < 59500) &&
            (a.MinutesAgo? <==> 59500 <= now - past < 3569500) &&
            (a.HoursAgo? <==> 3569500 <= now - past < 84569500) &&
            (a.Yesterday? <==> 84569500 <= now - past < 127769500) &&
            (a.DaysAgo? <==> 127769500 <= now - past) &&
            (a.SecondsAgo? ==> a.n < 60) &&
            (a.MinutesAgo? ==> 1 <= a.n < 60) &&
            (a.HoursAgo? ==> 1 <= a.n < 24) &&
            (a.DaysAgo? ==> a.n >= 2)
  {
  }

  /** The text `getTimeAgo` returns: the count, read back by `parseInt`,
      followed by its unit; only `Yesterday` renders as "Yesterday". */
  function AgoText(a: Ago): (s: string)
    ensures s == "Yesterday" <==> a.Yesterday?
    ensures !a.Yesterday? ==> ParseInt(s) == Some(a.n)
    ensures a.SecondsAgo? ==> EndsWith(s, " seconds ago")
    ensures a.MinutesAgo? ==> EndsWith(s, " minutes ago")
    ensures a.HoursAgo? ==> EndsWith(s, " hours ago")
    ensures a.DaysAgo? ==> EndsWith(s, " days ago")
  {
    match a
    case SecondsAgo(n) => Counted(n, " seconds ago")
    case MinutesAgo(n) => Counted(n, " minutes ago")
    case HoursAgo(n) => Counted(n, " hours ago")
    case Yesterday => "Yesterday"
    case DaysAgo(n) => Counted(n, " days ago")
  }

  /** A count followed by a unit that starts with a space. */
  function Counted(n: int, unit: string): (s: string)
    requires unit != [] && unit[0] == ' '
    ensures ParseInt(s) == Some(n) && EndsWith(s, unit) && s != "Yesterday"
  {
    ParseIntOfIntSuffix(n, unit);
    var s := IntToString(n) + unit;
    assert s[|s| - |unit|..] == unit;
    assert s[|s| - 1] == unit[|unit| - 1];
    s
  }

  // ---------------------------------------------------------------------------
  // Recent activity

  datatype ActivityKind = AppointmentActivity | RecordActivity | TestActivity

  /** The `type` field of an activity. */
  function KindName(k: ActivityKind): string {
    match k
    case AppointmentActivity => "appointment"
    case RecordActivity => "record"
    case TestActivity => "test"
  }

  /** `time` holds the "time ago" of `timestamp`, which the response renders. */
  datatype Activity = Activity(id: nat, kind: ActivityKind, message: string, time: Ago, timestamp: int)

  /** An activity without its `timestamp`, as the response carries it. */
  datatype ActivityView = ActivityView(id: nat, kind: ActivityKind, message: string, time: string)

  /** What a template string prints for an optional field. */
  function Printed(o: Option<string>): string {
    o.GetOr("undefined")
  }

  function AppointmentMessage(a: Appointment): string {
    "Appointment " + a.status + " for " + Printed(a.patientName)
  }

  function RecordMessage(r: MedicalRecord): string {
    "Medical record " + (if r.status == "" then "updated" else r.status) + " for patient " + Printed(r.patientName)
  }

  function TestMessage(t: LabTest): string {
    "Lab test " + t.status + " for " + Printed(t.patientName)
  }

  /** The timestamp of an item: its own date, or the fallback for its activity
      id. The separate handler draws the fallback at random within the last
      day; the combined one uses the current time. */
  function Resolved(c: Option<Stamp>, fallback: int): int {
    if c.Some? then c.value.ms else fallback
  }

  function NewActivity(id: nat, kind: ActivityKind, message: string, timestamp: int, now: int): Activity {
    Activity(id, kind, message, TimeAgo(now, timestamp), timestamp)
  }

  function FromAppointment(a: Appointment, id: nat, now: int, fallback: nat -> int): Activity {
    NewActivity(id, AppointmentActivity, AppointmentMessage(a), Resolved(a.createdAt, fallback(id)), now)
  }

  function FromRecord(r: MedicalRecord, id: nat, now: int, fallback: nat -> int): Activity {
    NewActivity(id, RecordActivity, RecordMessage(r), Resolved(r.updatedAt, fallback(id)), now)
  }

  function FromTest(t: LabTest, id: nat, now: int, fallback: nat -> int): Activity {
    NewActivity(id, TestActivity, TestMessage(t), Resolved(t.createdAt, fallback(id)), now)
  }

  function AppointmentActivities(appointments: seq<Appointment>, first: nat, now: int, fallback: nat -> int): seq<Activity>
  {
    seq(|appointments|, k requires 0 <= k < |appointments| => FromAppointment(appointments[k], first + k, now, fallback))
  }

  function RecordActivities(records: seq<MedicalRecord>, first: nat, now: int, fallback: nat -> int): seq<Activity>
  {
    seq(|records|, k requires 0 <= k < |records| => FromRecord(records[k], first + k, now, fallback))
  }

  function TestActivities(tests: seq<LabTest>, first: nat, now: int, fallback: nat -> int): seq<Activity>
  {
    seq(|tests|, k requires 0 <= k < |tests| => FromTest(tests[k], first + k, now, fallback))
  }

  /** All activities before sorting: appointments, then records, then lab
      tests, numbered from 1. */
  function Activities(appointments: seq<Appointment>, records: seq<MedicalRecord>, tests: seq<LabTest>,
                      now: int, fallback: nat -> int): seq<Activity>
  {
    var na := |appointments|;
    AppointmentActivities(appointments, 1, now, fallback) +
    RecordActivities(records, na + 1, now, fallback) +
    TestActivities(tests, na + |records| + 1, now, fallback)
  }

  /** The activity ids are 1 to N, and the kinds come in the order
      appointments, records, lab tests. */
  lemma ActivitiesNumbering(appointments: seq<Appointment>, records: seq<MedicalRecord>, tests: seq<LabTest>,
                            now: int, fallback: nat -> int)
    ensures var acts := Activities(appointments, records, tests, now, fallback);
            |acts| == |appointments| + |records| + |tests| &&
            (forall k :: 0 <= k < |acts| ==> acts[k].id == k + 1) &&
            (forall k :: 0 <= k < |acts| ==>
              acts[k].kind == (if k < |appointments| then AppointmentActivity
                               else if k < |appointments| + |records| then RecordActivity
                               else TestActivity))
  {
    var na := |appointments|;
    var nr := |records|;
    var a := AppointmentActivities(appointments, 1, now, fallback);
    var r := RecordActivities(records, na + 1, now, fallback);
    var t := TestActivities(tests, na + nr + 1, now, fallback);
    var acts := a + r + t;
    assert forall k :: 0 <= k < na ==> acts[k] == a[k];
    assert forall k :: na <= k < na + nr ==> acts[k] == r[k - na];
    assert forall k :: na + nr <= k < |acts| ==> acts[k] == t[k - na - nr];
  }

  /** `appointments.forEach(... activities.push({ id: activityId++, ... }))` */
  method PushAppointments(acts: seq<Activity>, appointments: seq<Appointment>, activityId: nat, now: int, fallback: nat -> int)
    returns (acts': seq<Activity>, nextId: nat)
    ensures acts' == acts + AppointmentActivities(appointments, activityId, now, fallback)
    ensures nextId == activityId + |appointments|
  {
    ghost var spec := AppointmentActivities(appointments, activityId, now, fallback);
    acts' := acts;
    nextId := activityId;
    for i := 0 to |appointments|
      invariant acts' == acts + spec[..i] && nextId == activityId + i
    {
      assert spec[..i + 1] == spec[..i] + [spec[i]];
      acts' := acts' + [FromAppointment(appointments[i], nextId, now, fallback)];
      nextId := nextId + 1;
    }
    assert spec[..|appointments|] == spec;
  }

  /** `medicalRecords.forEach(...)` */
  method PushRecords(acts: seq<Activity>, records: seq<MedicalRecord>, activityId: nat, now: int, fallback: nat -> int)
    returns (acts': seq<Activity>, nextId: nat)
    ensures acts' == acts + RecordActivities(records, activityId, now, fallback)
    ensures nextId == activityId + |records|
  {
    ghost var spec := RecordActivities(records, activityId, now, fallback);
    acts' := acts;
    nextId := activityId;
    for i := 0 to |records|
      invariant acts' == acts + spec[..i] && nextId == activityId + i
    {
      assert spec[..i + 1] == spec[..i] + [spec[i]];
      acts' := acts' + [FromRecord(records[i], nextId, now, fallback)];
      nextId := nextId + 1;
    }
    assert spec[..|records|] == spec;
  }

  /** `labTests.forEach(...)` */
  method PushTests(acts: seq<Activity>, tests: seq<LabTest>, activityId: nat, now: int, fallback: nat -> int)
    returns (acts': seq<Activity>, nextId: nat)
    ensures acts' == acts + TestActivities(tests, activityId, now, fallback)
    ensures nextId == activityId + |tests|
  {
    ghost var spec := TestActivities(tests, activityId, now, fallback);
    acts' := acts;
    nextId := activityId;
    for i := 0 to |tests|
      invariant acts' == acts + spec[..i] && nextId == activityId + i
    {
      assert spec[..i + 1] == spec[..i] + [spec[i]];
      acts' := acts' + [FromTest(tests[i], nextId, now, fallback)];
      nextId := nextId + 1;
    }
    assert spec[..|tests|] == spec;
  }

  /** The three `forEach` loops sharing the running `activityId`; the lab-test
      loop is guarded by `labTests.length`, which changes nothing when the
      list is empty. */
  method CollectActivities(appointments: seq<Appointment>, records: seq<MedicalRecord>, tests: seq<LabTest>,
                           now: int, fallback: nat -> int) returns (acts: seq<Activity>)
    ensures acts == Activities(appointments, records, tests, now, fallback)
  {
    var activityId := 1;
    acts, activityId := PushAppointments([], appointments, activityId, now, fallback);
    acts, activityId := PushRecords(acts, records, activityId, now, fallback);
    if |tests| > 0 {
      acts, activityId := PushTests(acts, tests, activityId, now, fallback);
    } else {
      assert TestActivities(tests, activityId, now, fallback) == [];
      assert acts + [] == acts;
    }
  }

  /** The sort key of `(a, b) => b.timestamp - a.timestamp`: newest first. */
  function NewestFirst(a: Activity): int {
    -a.timestamp
  }

  function View(a: Activity): ActivityView {
    ActivityView(a.id, a.kind, a.message, AgoText(a.time))
  }

  /** The activities in the order the sort puts them: every activity once,
      newest first. */
  function Ranked(acts: seq<Activity>): (r: seq<Activity>)
    ensures |r| == |acts| && multiset(r) == multiset(acts)
    ensures forall i, j :: 0 <= i < j < |r| ==> r[i].timestamp >= r[j].timestamp
  {
    Sorting.SortBySortedPermutation(acts, NewestFirst);
    Sorting.SortByLength(acts, NewestFirst);
    Sorting.SortBy(acts, NewestFirst)
  }

  /** Activities with the same timestamp stay in collection order. */
  lemma RankedStable(acts: seq<Activity>, t: int)
    ensures Sorting.WithKey(Ranked(acts), NewestFirst, -t) == Sorting.WithKey(acts, NewestFirst, -t)
  {
    var sorted := Sorting.SortBy(acts, NewestFirst);
    assert Ranked(acts) == sorted;
    Sorting.SortByStable(acts, NewestFirst, -t);
  }

  /** `getRecentActivity`: the first five ranked activities, without their
      timestamps. */
  method RecentActivity(appointments: seq<Appointment>, records: seq<MedicalRecord>, tests: seq<LabTest>,
                        now: int, fallback: nat -> int) returns (recent: seq<ActivityView>)
    ensures |recent| == Min(5, |appointments| + |records| + |tests|)
    ensures forall k :: 0 <= k < |recent| ==>
              recent[k] == View(Ranked(Activities(appointments, records, tests, now, fallback))[k])
  {
    var acts := CollectActivities(appointments, records, tests, now, fallback);
    var ranked := Ranked(acts);
    var top := Take(ranked, 5);
    recent := seq(|top|, k requires 0 <= k < |top| => View(top[k]));
  }

  // ---------------------------------------------------------------------------
  // Upcoming appointments

  datatype UpcomingView = UpcomingView(id: string, patientName: string, patientId: string,
                                       time: string, date: string, purpose: string)

  /** `patients.find(p => p.id === id)` */
  function FindPatient(patients: seq<Patient>, id: string): (r: Option<Patient>)
    ensures r.None? <==> forall i :: 0 <= i < |patients| ==> patients[i].id != id
    ensures r.Some? ==> r.value.id == id && r.value in patients
    ensures forall k :: 0 <= k < |patients| && patients[k].id == id && (forall j :: 0 <= j < k ==> patients[j].id != id) ==>
              r == Some(patients[k])
  {
    if patients == [] then None
    else if patients[0].id == id then Some(patients[0])
    else
      var r := FindPatient(patients[1..], id);
      assert forall i :: 1 <= i < |patients| ==> patients[i] == patients[1..][i - 1];
      r
  }

  /** `appointment.patient_name || "Unknown"` */
  function NameOnAppointment(a: Appointment): (name: string)
    ensures name != ""
    ensures a.patientName.Some? && a.patientName.value != "" ==> name == a.patientName.value
    ensures a.patientName.None? || a.patientName.value == "" ==> name == "Unknown"
  {
    if a.patientName.Some? && a.patientName.value != "" then a.patientName.value else "Unknown"
  }

  /** `patient.name || appointment.patient_name || "Unknown"`, where `patient`
      is the first patient with the appointment's `patient_id`, or `{}`. */
  function DisplayName(patients: seq<Patient>, a: Appointment): (name: string)
    ensures name != ""
    ensures (forall i :: 0 <= i < |patients| ==> patients[i].id != a.patientId) ==> name == NameOnAppointment(a)
    ensures forall k :: 0 <= k < |patients| && patients[k].id == a.patientId &&
                        (forall j :: 0 <= j < k ==> patients[j].id != a.patientId) ==>
              name == if patients[k].name != "" then patients[k].name else NameOnAppointment(a)
  {
    var found := FindPatient(patients, a.patientId);
    if found.Some? && found.value.name != "" then found.value.name
    else NameOnAppointment(a)
  }

  predicate IsSoon(a: Appointment, today: string, tomorrow: string) {
    a.date == today || a.date == tomorrow
  }

  /** The appointments dated today or tomorrow, in their order. */
  function Soon(appointments: seq<Appointment>, today: string, tomorrow: string): seq<Appointment> {
    Filter(appointments, a => IsSoon(a, today, tomorrow))
  }

  function UpcomingOf(patients: seq<Patient>, a: Appointment, today: string): UpcomingView {
    UpcomingView(a.id, DisplayName(patients, a), a.patientId,
                 if a.time == "" then "00:00" else a.time,
                 if a.date == today then "Today" else "Tomorrow",
                 if a.purpose == "" then "Visit" else a.purpose)
  }

  /** `getUpcomingAppointments`: at most four entries, one per appointment of
      today or tomorrow, in input order. */
  function Upcoming(appointments: seq<Appointment>, patients: seq<Patient>, today: string, tomorrow: string): (r: seq<UpcomingView>)
    ensures |r| == Min(4, |Soon(appointments, today, tomorrow)|)
    ensures forall k :: 0 <= k < |r| ==> r[k] == UpcomingOf(patients, Soon(appointments, today, tomorrow)[k], today)
  {
    var soon := Soon(appointments, today, tomorrow);
    Take(seq(|soon|, k requires 0 <= k < |soon| => UpcomingOf(patients, soon[k], today)), 4)
  }

  /** Every upcoming entry stands for an appointment of today or tomorrow, and
      carries a label "Today" or "Tomorrow" and non-empty name, time and
      purpose. */
  lemma UpcomingEntries(appointments: seq<Appointment>, patients: seq<Patient>, today: string, tomorrow: string)
    ensures var r := Upcoming(appointments, patients, today, tomorrow);
            forall k :: 0 <= k < |r| ==>
              (r[k].date == "Today" || r[k].date == "Tomorrow") &&
              r[k].patientName != "" && r[k].time != "" && r[k].purpose != "" &&
              exists a :: a in appointments && IsSoon(a, today, tomorrow) && a.id == r[k].id &&
                          (r[k].date == "Today" <==> a.date == today)
    ensures Subseq(Soon(appointments, today, tomorrow), appointments)
  {
    var soon := Soon(appointments, today, tomorrow);
    var r := Upcoming(appointments, patients, today, tomorrow);
    forall k | 0 <= k < |r|
      ensures exists a :: a in appointments && IsSoon(a, today, tomorrow) && a.id == r[k].id &&
                          (r[k].date == "Today" <==> a.date == today)
    {
      assert soon[k] in soon;
    }
  }

  // ---------------------------------------------------------------------------
  // Health metrics: patient growth per month

  /** Growth is counted only when the first patient has a creation date. */
  predicate GrowthTracked(patients: seq<Patient>) {
    |patients| > 0 && patients[0].createdAt.Some?
  }

  function CreatedIn(patients: seq<Patient>, m: Month): nat {
    if patients == [] then 0
    else
      var p := patients[|patients| - 1];
      CreatedIn(patients[..|patients| - 1], m) + (if p.createdAt.Some? && p.createdAt.value.month == m then 1 else 0)
  }

  function CreatedCount(patients: seq<Patient>): nat {
    if patients == [] then 0
    else CreatedCount(patients[..|patients| - 1]) + (if patients[|patients| - 1].createdAt.Some? then 1 else 0)
  }

  function Total(xs: seq<int>): int {
    if xs == [] then 0 else Total(xs[..|xs| - 1]) + xs[|xs| - 1]
  }

  lemma {:induction false} TotalBump(xs: seq<int>, m: nat)
    requires m < |xs|
    ensures Total(xs[m := xs[m] + 1]) == Total(xs) + 1
    decreases |xs|
  {
    var ys := xs[m := xs[m] + 1];
    if m < |xs| - 1 {
      assert ys[..|ys| - 1] == xs[..|xs| - 1][m := xs[m] + 1];
      TotalBump(xs[..|xs| - 1], m);
    } else {
      assert ys[..|ys| - 1] == xs[..|xs| - 1];
    }
  }

  lemma {:induction false} TotalZeros(n: nat)
    ensures Total(seq(n, _ => 0)) == 0
  {
    if n > 0 {
      assert seq(n, _ => 0)[..n - 1] == seq(n - 1, _ => 0);
      TotalZeros(n - 1);
    }
  }

  /** `counts` holds, month by month, the patients of `done` created in it,
      and adds up to those with a creation date. */
  predicate Tallies(counts: seq<int>, done: seq<Patient>) {
    |counts| == 12 &&
    (forall m :: 0 <= m < 12 ==> counts[m] == CreatedIn(done, m)) &&
    Total(counts) == CreatedCount(done)
  }

  /** `patientGrowth[month]++` for one patient with a creation date. */
  function Tally(counts: seq<int>, p: Patient): seq<int>
    requires |counts| == 12
  {
    if p.createdAt.Some? then counts[p.createdAt.value.month := counts[p.createdAt.value.month] + 1] else counts
  }

  lemma GrowthStep(counts: seq<int>, done: seq<Patient>, p: Patient)
    requires Tallies(counts, done)
    ensures Tallies(Tally(counts, p), done + [p])
  {
    assert (done + [p])[..|done|] == done;
    if p.createdAt.Some? {
      TotalBump(counts, p.createdAt.value.month);
    }
  }

  /** `patientGrowth`: for each month the number of patients created in it, and
      twelve zeros when growth is not tracked; the months add up to the
      number of patients with a creation date. */
  method PatientGrowth(patients: seq<Patient>) returns (growth: seq<int>)
    ensures |growth| == 12
    ensures forall m :: 0 <= m < 12 ==> growth[m] == if GrowthTracked(patients) then CreatedIn(patients, m) else 0
    ensures Total(growth) == if GrowthTracked(patients) then CreatedCount(patients) else 0
  {
    var counts := new int[12](_ => 0);
    assert counts[..] == seq(12, _ => 0);
    TotalZeros(12);
    assert patients[..0] == [];
    if GrowthTracked(patients) {
      for i := 0 to |patients|
        invariant Tallies(counts[..], patients[..i])
      {
        ghost var before := counts[..];
        GrowthStep(before, patients[..i], patients[i]);
        assert patients[..i + 1] == patients[..i] + [patients[i]];
        var p := patients[i];
        if p.createdAt.Some? {
          var month := p.createdAt.value.month;
          counts[month] := counts[month] + 1;
        }
        assert counts[..] == Tally(before, p);
      }
      assert patients[..|patients|] == patients;
    }
    growth := counts[..];
  }

  // ---------------------------------------------------------------------------
  // Health metrics: appointment purposes

  /** One `{ name, value }` entry of `appointmentDistribution`. */
  datatype Entry = Entry(name: string, value: nat)

  function PurposeOf(a: Appointment): string {
    if a.purpose == "" then "Other" else a.purpose
  }

  function Names(entries: seq<Entry>): seq<string> {
    seq(|entries|, k requires 0 <= k < |entries| => entries[k].name)
  }

  /** `acc[name] || 0` */
  function Lookup(entries: seq<Entry>, name: string): nat {
    if entries == [] then 0
    else if entries[0].name == name then entries[0].value
    else Lookup(entries[1..], name)
  }

  function Values(entries: seq<Entry>): int {
    if entries == [] then 0 else entries[0].value + Values(entries[1..])
  }

  predicate DistinctNames(entries: seq<Entry>) {
    forall i, j :: 0 <= i < j < |entries| ==> entries[i].name != entries[j].name
  }

  predicate Positive(entries: seq<Entry>) {
    forall i :: 0 <= i < |entries| ==> entries[i].value >= 1
  }

  /** `acc[name] = (acc[name] || 0) + 1` on an object whose keys keep their
      insertion order. */
  function Bump(entries: seq<Entry>, name: string): (r: seq<Entry>)
    requires DistinctNames(entries) && Positive(entries)
    ensures DistinctNames(r) && Positive(r)
    ensures Names(r) == if name in Names(entries) then Names(entries) else Names(entries) + [name]
    ensures forall n :: Lookup(r, n) == Lookup(entries, n) + (if n == name then 1 else 0)
    ensures Values(r) == Values(entries) + 1
  {
    if entries == [] then [Entry(name, 1)]
    else if entries[0].name == name then
      BumpFound(entries, name);
      [Entry(name, entries[0].value + 1)] + entries[1..]
    else
      DistinctTail(entries);
      var rest := Bump(entries[1..], name);
      BumpPassed(entries, name, rest);
      [entries[0]] + rest
  }

  /** The case where the first entry carries the name. */
  lemma BumpFound(entries: seq<Entry>, name: string)
    requires entries != [] && entries[0].name == name
    requires DistinctNames(entries) && Positive(entries)
    ensures var r := [Entry(name, entries[0].value + 1)] + entries[1..];
            DistinctNames(r) && Positive(r) && Names(r) == Names(entries) && name in Names(entries) &&
            (forall n :: Lookup(r, n) == Lookup(entries, n) + (if n == name then 1 else 0)) &&
            Values(r) == Values(entries) + 1
  {
    var r := [Entry(name, entries[0].value + 1)] + entries[1..];
    assert Names(r) == Names(entries);
    assert Names(entries)[0] == name;
    assert r[1..] == entries[1..];
  }

  /** The case where the name is further on: `rest` is the bumped tail. */
  lemma BumpPassed(entries: seq<Entry>, name: string, rest: seq<Entry>)
    requires entries != [] && entries[0].name != name
    requires DistinctNames(entries) && Positive(entries)
    requires entries[0].name !in Names(entries[1..])
    requires DistinctNames(rest) && Positive(rest)
    requires Names(rest) == if name in Names(entries[1..]) then Names(entries[1..]) else Names(entries[1..]) + [name]
    requires forall n :: Lookup(rest, n) == Lookup(entries[1..], n) + (if n == name then 1 else 0)
    requires Values(rest) == Values(entries[1..]) + 1
    ensures var r := [entries[0]] + rest;
            DistinctNames(r) && Positive(r) &&
            Names(r) == (if name in Names(entries) then Names(entries) else Names(entries) + [name]) &&
            (forall n :: Lookup(r, n) == Lookup(entries, n) + (if n == name then 1 else 0)) &&
            Values(r) == Values(entries) + 1
  {
    var r := [entries[0]] + rest;
    assert r[1..] == rest && r[0] == entries[0];
    PassedNames(entries, name, rest);
    DistinctCons(entries[0], rest);
  }

  lemma PassedNames(entries: seq<Entry>, name: string, rest: seq<Entry>)
    requires entries != [] && entries[0].name != name
    requires Names(rest) == if name in Names(entries[1..]) then Names(entries[1..]) else Names(entries[1..]) + [name]
    ensures var r := [entries[0]] + rest;
            Names(r) == (if name in Names(entries) then Names(entries) else Names(entries) + [name])
  {
    var tail := entries[1..];
    NamesCons(entries[0], tail);
    NamesCons(entries[0], rest);
    assert entries == [entries[0]] + tail;
    assert name !in Names(tail) ==> Names([entries[0]] + rest) == Names(entries) + [name] by {
      assert [entries[0].name] + (Names(tail) + [name]) == ([entries[0].name] + Names(tail)) + [name];
    }
  }

  /** The tail of a list with distinct names has distinct names, none of them
      the head's. */
  lemma DistinctTail(entries: seq<Entry>)
    requires entries != [] && DistinctNames(entries)
    ensures DistinctNames(entries[1..])
    ensures entries[0].name !in Names(entries[1..])
  {
    var tail := entries[1..];
    forall i, j | 0 <= i < j < |tail| ensures tail[i].name != tail[j].name {
      assert tail[i] == entries[i + 1] && tail[j] == entries[j + 1];
    }
    forall k | 0 <= k < |tail| ensures Names(tail)[k] != entries[0].name {
      assert tail[k] == entries[k + 1];
    }
  }

  /** Putting an entry with a new name in front keeps the names distinct. */
  lemma DistinctCons(e: Entry, rest: seq<Entry>)
    requires DistinctNames(rest) && e.name !in Names(rest)
    ensures DistinctNames([e] + rest)
  {
    var r := [e] + rest;
    forall i, j | 0 <= i < j < |r| ensures r[i].name != r[j].name {
      if i == 0 {
        assert r[j].name == Names(rest)[j - 1];
      } else {
        assert r[i] == rest[i - 1] && r[j] == rest[j - 1];
      }
    }
  }

  lemma NamesCons(e: Entry, rest: seq<Entry>)
    ensures Names([e] + rest) == [e.name] + Names(rest)
  {
  }

  /** How many appointments have purpose `name`. */
  function CountPurpose(appointments: seq<Appointment>, name: string): nat {
    if appointments == [] then 0
    else CountPurpose(appointments[..|appointments| - 1], name) + (if PurposeOf(appointments[|appointments| - 1]) == name then 1 else 0)
  }

  /** `appointmentDistribution`: `reduce` over the appointments, then
      `Object.entries`. Each purpose (or "Other") is listed once, in order of
      first appearance, with the number of appointments that have it; the
      counts are positive and add up to the number of appointments. */
  function Purposes(appointments: seq<Appointment>): (r: seq<Entry>)
    ensures DistinctNames(r) && Positive(r)
    ensures forall n :: Lookup(r, n) == CountPurpose(appointments, n)
    ensures forall n :: n in Names(r) <==> CountPurpose(appointments, n) > 0
    ensures Values(r) == |appointments|
  {
    if appointments == [] then []
    else
      var acc := Purposes(appointments[..|appointments| - 1]);
      var r := Bump(acc, PurposeOf(appointments[|appointments| - 1]));
      LookupPositive(acc);
      LookupPositive(r);
      r
  }

  lemma {:induction false} LookupPositive(entries: seq<Entry>)
    requires Positive(entries)
    ensures forall n :: n in Names(entries) <==> Lookup(entries, n) > 0
  {
    if entries != [] {
      var tail := entries[1..];
      assert Positive(tail) by {
        forall i | 0 <= i < |tail| ensures tail[i].value >= 1 {
          assert tail[i] == entries[i + 1];
        }
      }
      LookupPositive(tail);
      assert Names(entries) == [entries[0].name] + Names(tail);
    }
  }

  // ---------------------------------------------------------------------------
  // Health metrics: age groups

  /** `if (patient.age)`: a missing age, 0 and "" are skipped. */
  predicate AgeGiven(a: Age) {
    match a
    case NoAge => false
    case AgeNumber(n) => n != 0
    case AgeText(s) => s != ""
  }

  /** `parseInt(patient.age)`: a number is printed first and read back. */
  function ParsedAge(a: Age): Option<int> {
    match a
    case NoAge => None
    case AgeNumber(n) => ParseInt(IntToString(n))
    case AgeText(s) => ParseInt(s)
  }

  datatype AgeGroup = Upto18 | From19To35 | From36To50 | Over50

  /** The bucket of a parsed age; NaN fails every comparison and lands in "51+". */
  function GroupOf(age: Option<int>): AgeGroup {
    match age
    case None => Over50
    case Some(n) => if n <= 18 then Upto18 else if n <= 35 then From19To35 else if n <= 50 then From36To50 else Over50
  }

  function GroupLabel(g: AgeGroup): string {
    match g
    case Upto18 => "0-18"
    case From19To35 => "19-35"
    case From36To50 => "36-50"
    case Over50 => "51+"
  }

  /** The number of patients with a given age whose age falls in `g`. */
  function InGroup(patients: seq<Patient>, g: AgeGroup): nat {
    if patients == [] then 0
    else
      var p := patients[|patients| - 1];
      InGroup(patients[..|patients| - 1], g) + (if AgeGiven(p.age) && GroupOf(ParsedAge(p.age)) == g then 1 else 0)
  }

  function WithAge(patients: seq<Patient>): nat {
    if patients == [] then 0
    else WithAge(patients[..|patients| - 1]) + (if AgeGiven(patients[|patients| - 1].age) then 1 else 0)
  }

  datatype AgeGroups = AgeGroups(upto18: nat, from19To35: nat, from36To50: nat, over50: nat)

  /** The `forEach` over the patients that increments `ageGroups`. Each patient
      with an age is counted in exactly one group, so the groups add up to the
      number of such patients. */
  method AgeDistribution(patients: seq<Patient>) returns (groups: AgeGroups)
    ensures groups.upto18 == InGroup(patients, Upto18) && groups.from19To35 == InGroup(patients, From19To35)
    ensures groups.from36To50 == InGroup(patients, From36To50) && groups.over50 == InGroup(patients, Over50)
    ensures groups.upto18 + groups.from19To35 + groups.from36To50 + groups.over50 == WithAge(patients)
  {
    groups := AgeGroups(0, 0, 0, 0);
    for i := 0 to |patients|
      invariant groups.upto18 == InGroup(patients[..i], Upto18) && groups.from19To35 == InGroup(patients[..i], From19To35)
      invariant groups.from36To50 == InGroup(patients[..i], From36To50) && groups.over50 == InGroup(patients[..i], Over50)
      invariant groups.upto18 + groups.from19To35 + groups.from36To50 + groups.over50 == WithAge(patients[..i])
    {
      assert patients[..i + 1][..i] == patients[..i];
      var p := patients[i];
      if AgeGiven(p.age) {
        var age := ParsedAge(p.age);
        if age.Some? && age.value <= 18 {
          groups := groups.(upto18 := groups.upto18 + 1);
        } else if age.Some? && age.value <= 35 {
          groups := groups.(from19To35 := groups.from19To35 + 1);
        } else if age.Some? && age.value <= 50 {
          groups := groups.(from36To50 := groups.from36To50 + 1);
        } else {
          groups := groups.(over50 := groups.over50 + 1);
        }
      }
    }
    assert patients[..|patients|] == patients;
  }

  /** A numeric age is grouped by its own value. */
  lemma NumericAgeGroup(n: int)
    ensures ParsedAge(AgeNumber(n)) == Some(n)
    ensures GroupOf(ParsedAge(AgeNumber(n))) == (if n <= 18 then Upto18 else if n <= 35 then From19To35 else if n <= 50 then From36To50 else Over50)
  {
    ParseIntOfIntToString(n);
  }

  // ---------------------------------------------------------------------------
  // The endpoints

  datatype HealthMetrics = HealthMetrics(patientGrowth: seq<int>, appointmentDistribution: seq<Entry>, ageDistribution: AgeGroups)

  /** What the health metrics of these patients and appointments are: the
      monthly growth, the purpose distribution and the age groups, with their
      totals. */
  predicate MetricsOf(h: HealthMetrics, patients: seq<Patient>, appointments: seq<Appointment>) {
    && |h.patientGrowth| == 12
    && (forall m :: 0 <= m < 12 ==> h.patientGrowth[m] == if GrowthTracked(patients) then CreatedIn(patients, m) else 0)
    && Total(h.patientGrowth) == (if GrowthTracked(patients) then CreatedCount(patients) else 0)
    && h.appointmentDistribution == Purposes(appointments)
    && Values(h.appointmentDistribution) == |appointments|
    && h.ageDistribution.upto18 == InGroup(patients, Upto18) && h.ageDistribution.from19To35 == InGroup(patients, From19To35)
    && h.ageDistribution.from36To50 == InGroup(patients, From36To50) && h.ageDistribution.over50 == InGroup(patients, Over50)
    && h.ageDistribution.upto18 + h.ageDistribution.from19To35 + h.ageDistribution.from36To50 + h.ageDistribution.over50 == WithAge(patients)
  }

  /** `getHealthMetrics` */
  method GetHealthMetrics(patients: seq<Patient>, appointments: seq<Appointment>) returns (h: HealthMetrics)
    ensures MetricsOf(h, patients, appointments)
  {
    var growth := PatientGrowth(patients);
    var ages := AgeDistribution(patients);
    h := HealthMetrics(growth, Purposes(appointments), ages);
  }

  /** The combined handler's fallback: every missing timestamp is `now`. */
  function ConstantTime(now: int): nat -> int {
    _ => now
  }

  datatype DashboardData = DashboardData(stats: seq<StatCard>, recentActivity: seq<ActivityView>,
                                         upcomingAppointments: seq<UpcomingView>, healthMetrics: HealthMetrics)

  /** `getDashboardData`: the combined handler, where a missing timestamp is
      the current time. */
  method GetDashboardData(patients: seq<Patient>, appointments: seq<Appointment>, records: seq<MedicalRecord>,
                          tests: seq<LabTest>, now: int, lastMonth: int, today: string, tomorrow: string)
    returns (d: DashboardData)
    ensures d.stats == Stats(CombinedEndpoint, patients, appointments, records, lastMonth)
    ensures |d.recentActivity| == Min(5, |appointments| + |records| + |tests|)
    ensures forall k :: 0 <= k < |d.recentActivity| ==>
              d.recentActivity[k] == View(Ranked(Activities(appointments, records, tests, now, ConstantTime(now)))[k])
    ensures d.upcomingAppointments == Upcoming(appointments, patients, today, tomorrow)
    ensures MetricsOf(d.healthMetrics, patients, appointments)
  {
    var recent := RecentActivity(appointments, records, tests, now, ConstantTime(now));
    var health := GetHealthMetrics(patients, appointments);
    d := DashboardData(Stats(CombinedEndpoint, patients, appointments, records, lastMonth), recent,
                       Upcoming(appointments, patients, today, tomorrow), health);
  }
}
