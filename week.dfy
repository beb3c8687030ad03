/** The seven day keys the doctor forms and pages use, in calendar order. */
module Week {
  const Days: seq<string> := ["monday", "tuesday", "wednesday", "thursday", "friday", "saturday", "sunday"]

  const DaySet: set<string> := {"monday", "tuesday", "wednesday", "thursday", "friday", "saturday", "sunday"}
}
