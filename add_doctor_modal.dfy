/** The Add Doctor dialog (`AddDoctorModal.jsx`): the form's text fields, the
    per-day switches and time slots, the slot being composed for each day, and
    the object handed to `onSave`. The component's state hooks are the fields
    of one object; each handler is a method that updates them. */
module AddDoctorModal {
  import opened Text
  import opened Week
  import Json

  const FieldNames: set<string> := {"name", "specialty", "credentials", "experience", "bio", "email", "phone"}

  const InitialFields: map<string, string> :=
    map["name" := "", "specialty" := "", "credentials" := "MD", "experience" := "",
        "bio" := "", "email" := "", "phone" := ""]

  /** The start, end and `'AM-PM'`-style period of the slot being composed. */
  datatype SlotInput = SlotInput(start: string, end: string, period: string)

  /** `timeSlots[day]`: whether the day is switched on and its slots. */
  datatype DaySlots = DaySlots(active: bool, slots: seq<string>)

  /** Weekdays start with 08:00-12:00, the weekend with 09:00-01:00. */
  function InitialSlotInput(day: string): SlotInput {
    if day == "saturday" || day == "sunday" then SlotInput("09:00", "01:00", "AM-PM")
    else SlotInput("08:00", "12:00", "AM-PM")
  }

  /** `period.split('-')[k]`, printed as `undefined` when there is no such
      piece. */
  function PeriodPart(period: string, k: nat): string {
    var parts := Split(period, '-');
    if k < |parts| then parts[k] else "undefined"
  }

  /** The text `addTimeSlot` stores for a composed slot. */
  function FormatSlot(slot: SlotInput): string {
    slot.start + " " + PeriodPart(slot.period, 0) + " - " + slot.end + " " + PeriodPart(slot.period, 1)
  }

  /** For a period `first-second` the slot reads `start first - end second`. */
  lemma FormatSlotOfPeriod(start: string, end: string, first: string, second: string)
    requires '-' !in first && '-' !in second
    ensures FormatSlot(SlotInput(start, end, first + "-" + second)) == start + " " + first + " - " + end + " " + second
  {
    SplitOfJoin([first, second], '-');
    assert Join([first, second], "-") == first + "-" + second by {
      JoinCons(first, [second], "-");
    }
  }

  /** A period without a dash prints its second half as `undefined`. */
  lemma FormatSlotWithoutDash(start: string, end: string, period: string)
    requires '-' !in period
    ensures FormatSlot(SlotInput(start, end, period)) == start + " " + period + " - " + end + " undefined"
  {
    assert IndexOf(period, '-') == |period|;
    assert period[..|period|] == period;
  }

  /** `slots.filter((_, i) => i !== index)`. */
  function RemoveAt(slots: seq<string>, index: int): (r: seq<string>)
    ensures 0 <= index < |slots| ==> |r| == |slots| - 1 &&
                                     (forall k :: 0 <= k < index ==> r[k] == slots[k]) &&
                                     (forall k :: index <= k < |r| ==> r[k] == slots[k + 1])
    ensures !(0 <= index < |slots|) ==> r == slots
  {
    if 0 <= index < |slots| then slots[..index] + slots[index + 1..] else slots
  }

  /** Removing the slot just appended gives the slots back. */
  lemma RemoveLastAdded(slots: seq<string>, slot: string)
    ensures RemoveAt(slots + [slot], |slots|) == slots
  {
    assert (slots + [slot])[..|slots|] == slots;
  }

  /** A list of strings as a JavaScript array value. */
  function Strings(xs: seq<string>): (v: seq<Json.Value>)
    ensures |v| == |xs| && forall k :: 0 <= k < |xs| ==> v[k] == Json.Str(xs[k])
  {
    seq(|xs|, k requires 0 <= k < |xs| => Json.Str(xs[k]))
  }

  class DoctorForm {
    var fields: map<string, string>
    var availability: map<string, seq<string>>
    var timeSlots: map<string, DaySlots>
    var newSlots: map<string, SlotInput>

    /** Every day has its entries, and a day's saved availability is either
        empty or exactly its slots. */
    predicate Valid()
      reads this
    {
      fields.Keys == FieldNames && availability.Keys == DaySet && timeSlots.Keys == DaySet &&
      newSlots.Keys == DaySet &&
      forall d :: d in DaySet ==> availability[d] == [] || availability[d] == timeSlots[d].slots
    }

    /** What the dialog shows is what it saves: an active day's availability
        is its list of slots. */
    predicate ShownIsSaved()
      reads this
      requires Valid()
    {
      forall d :: d in DaySet && timeSlots[d].active ==> availability[d] == timeSlots[d].slots
    }

    constructor ()
      ensures Valid() && ShownIsSaved()
      ensures fields == InitialFields
      ensures forall d :: d in DaySet ==> availability[d] == [] && timeSlots[d] == DaySlots(false, [])
      ensures forall d :: d in DaySet ==> newSlots[d] == InitialSlotInput(d)
    {
      fields := InitialFields;
      availability := map d | d in DaySet :: [];
      timeSlots := map d | d in DaySet :: DaySlots(false, []);
      newSlots := map d | d in DaySet :: InitialSlotInput(d);
    }

    /** `handleChange` for one of the text inputs. */
    method HandleChange(name: string, value: string)
      requires Valid() && name in FieldNames
      modifies this
      ensures Valid()
      ensures fields == old(fields)[name := value]
      ensures availability == old(availability) && timeSlots == old(timeSlots) && newSlots == old(newSlots)
    {
      fields := fields[name := value];
    }

    /** `handleDayToggle`: flip the day's switch; switching it off empties its
        saved availability, switching it on leaves that alone. The day's slots
        stay as they are. */
    method HandleDayToggle(day: string)
      requires Valid() && day in DaySet
      modifies this
      ensures Valid()
      ensures timeSlots == old(timeSlots)[day := DaySlots(!old(timeSlots[day].active), old(timeSlots[day].slots))]
      ensures availability == if old(timeSlots[day].active) then old(availability)[day := []] else old(availability)
      ensures fields == old(fields) && newSlots == old(newSlots)
    {
      var now := !timeSlots[day].active;
      timeSlots := timeSlots[day := timeSlots[day].(active := now)];
      if !now {
        availability := availability[day := []];
      }
    }

    /** `handleSlotChange`: set one part of the slot being composed for a day. */
    method HandleSlotChange(day: string, field: string, value: string)
      requires Valid() && day in DaySet && field in {"start", "end", "period"}
      modifies this
      ensures Valid()
      ensures newSlots == old(newSlots)[day := if field == "start" then old(newSlots[day]).(start := value)
                                               else if field == "end" then old(newSlots[day]).(end := value)
                                               else old(newSlots[day]).(period := value)]
      ensures fields == old(fields) && availability == old(availability) && timeSlots == old(timeSlots)
    {
      var slot := newSlots[day];
      if field == "start" {
        slot := slot.(start := value);
      } else if field == "end" {
        slot := slot.(end := value);
      } else {
        slot := slot.(period := value);
      }
      newSlots := newSlots[day := slot];
    }

    /** `addTimeSlot`: append the composed slot to the day's slots and save
        them as the day's availability. */
    method AddTimeSlot(day: string)
      requires Valid() && day in DaySet
      modifies this
      ensures Valid()
      ensures timeSlots == old(timeSlots)[day := old(timeSlots[day]).(slots := old(timeSlots[day].slots) + [FormatSlot(newSlots[day])])]
      ensures availability == old(availability)[day := timeSlots[day].slots]
      ensures old(ShownIsSaved()) ==> ShownIsSaved()
      ensures fields == old(fields) && newSlots == old(newSlots)
    {
      var slots := timeSlots[day].slots + [FormatSlot(newSlots[day])];
      timeSlots := timeSlots[day := timeSlots[day].(slots := slots)];
      availability := availability[day := slots];
    }

    /** `removeTimeSlot`: drop the slot at `index`, if there is one, and save
        the rest as the day's availability. */
    method RemoveTimeSlot(day: string, index: int)
      requires Valid() && day in DaySet
      modifies this
      ensures Valid()
      ensures timeSlots == old(timeSlots)[day := old(timeSlots[day]).(slots := RemoveAt(old(timeSlots[day].slots), index))]
      ensures availability == old(availability)[day := timeSlots[day].slots]
      ensures old(ShownIsSaved()) ==> ShownIsSaved()
      ensures fields == old(fields) && newSlots == old(newSlots)
    {
      var slots := RemoveAt(timeSlots[day].slots, index);
      timeSlots := timeSlots[day := timeSlots[day].(slots := slots)];
      availability := availability[day := slots];
    }

    /** Switching a day twice restores its switch and its slots but leaves its
        saved availability empty: an active day with slots goes on showing
        them while saving none. */
    method ToggleTwice(day: string)
      requires Valid() && day in DaySet
      modifies this
      ensures Valid()
      ensures timeSlots == old(timeSlots)
      ensures availability == old(availability)[day := []]
      ensures old(timeSlots[day].active) && old(timeSlots[day].slots) != [] ==> !ShownIsSaved()
      ensures fields == old(fields) && newSlots == old(newSlots)
    {
      HandleDayToggle(day);
      HandleDayToggle(day);
    }

    /** The toggle with the day's slots saved again when it is switched on. */
    method HandleDayToggleSavingSlots(day: string)
      requires Valid() && day in DaySet
      modifies this
      ensures Valid()
      ensures timeSlots == old(timeSlots)[day := DaySlots(!old(timeSlots[day].active), old(timeSlots[day].slots))]
      ensures availability == old(availability)[day := if timeSlots[day].active then timeSlots[day].slots else []]
      ensures old(ShownIsSaved()) ==> ShownIsSaved()
      ensures fields == old(fields) && newSlots == old(newSlots)
    {
      var now := !timeSlots[day].active;
      timeSlots := timeSlots[day := timeSlots[day].(active := now)];
      availability := availability[day := if now then timeSlots[day].slots else []];
    }

    /** `handleSubmit`: the object given to `onSave`, the text fields and the
        availability per day. */
    function Submitted(): (form: Json.Object)
      reads this
      requires Valid()
      ensures form.Keys == FieldNames + {"availability"}
      ensures forall k :: k in FieldNames ==> form[k] == Json.Str(fields[k])
      ensures form["availability"].Obj? && form["availability"].fields.Keys == DaySet
      ensures forall d :: d in DaySet ==> form["availability"].fields[d] == Json.Arr(Strings(availability[d]))
    {
      var texts := map k | k in fields :: Json.Str(fields[k]);
      texts["availability" := Json.Obj(map d | d in availability :: Json.Arr(Strings(availability[d])))]
    }
  }

  /** An object with exactly the form's keys has no `id` and no
      `qualification`, and carries the name and specialty as text. */
  lemma SubmittedKeys(form: Json.Object, fields: map<string, string>)
    requires fields.Keys == FieldNames
    requires form.Keys == FieldNames + {"availability"}
    requires forall k :: k in FieldNames ==> form[k] == Json.Str(fields[k])
    ensures "id" !in form && "qualification" !in form
    ensures form["name"] == Json.Str(fields["name"])
    ensures form["specialty"] == Json.Str(fields["specialty"])
  {
    assert "name" in FieldNames && "specialty" in FieldNames;
  }
}
