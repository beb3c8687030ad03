/** The prescription controller (`prescriptionController.js`): the existence
    check of the patient and the doctor, the id a new prescription receives,
    and the record built for it. */
module PrescriptionController {
  import opened Wrappers
  import opened Text
  import Json
  import Ids

  /** The id as the controller computes it: `PR1001` for the first
      prescription, otherwise `PR` and the successor of the number after the
      first two characters of the id that sorts last. */
  function NewPrescriptionId(last: Option<string>): (id: string)
    ensures last.None? ==> id == "PR1001"
    ensures forall n :: last == Some("PR" + IntToString(n)) ==> id == "PR" + IntToString(n + 1)
  {
    forall n | last == Some("PR" + IntToString(n)) ensures Ids.NextIdAsWritten("PR", "PR1001", last) == "PR" + IntToString(n + 1) {
      Ids.NextIdContinues("PR", "PR1001", n);
    }
    Ids.NextIdAsWritten("PR", "PR1001", last)
  }

  /** The id that cannot collide with one in use. */
  function FreshPrescriptionId(ids: seq<string>): (id: string)
    ensures ids == [] ==> id == "PR1001"
    ensures id !in ids
  {
    assert IntToString(1001) == "1001" by {
      assert NatToString(1) == "1" && NatToString(10) == "10" && NatToString(100) == "100";
    }
    Ids.FreshId("PR", ids, 1000)
  }

  /** `Array.isArray(medications) ? medications : [medications]`; an absent
      value becomes a one-element list holding `undefined`. */
  function MedicationList(medications: Option<Json.Value>): (r: seq<Option<Json.Value>>)
    ensures medications.Some? && medications.value.Arr? ==>
              |r| == |medications.value.items| &&
              forall k :: 0 <= k < |r| ==> r[k] == Some(medications.value.items[k])
    ensures !(medications.Some? && medications.value.Arr?) ==> r == [medications]
  {
    if medications.Some? && medications.value.Arr? then
      var items := medications.value.items;
      seq(|items|, k requires 0 <= k < |items| => Some(items[k]))
    else [medications]
  }

  datatype Prescription = Prescription(id: string, patientId: string, doctorId: string,
                                       medications: seq<Option<Json.Value>>,
                                       instructions: Option<Json.Value>, date: string)

  datatype Outcome = NotFound(message: string) | Saved(prescription: Prescription)

  /** `addPrescription`: a 404 when either the patient or the doctor is not on
      file, and nothing is saved; otherwise the new prescription. */
  function AddPrescription(patients: set<string>, doctors: set<string>, patientId: string, doctorId: string,
                           medications: Option<Json.Value>, instructions: Option<Json.Value>,
                           newId: string, today: string): (o: Outcome)
    ensures o.NotFound? <==> patientId !in patients || doctorId !in doctors
    ensures o.NotFound? ==> o.message == "Patient or Doctor not found"
    ensures o.Saved? ==> o.prescription.id == newId && o.prescription.patientId == patientId &&
                         o.prescription.doctorId == doctorId && o.prescription.date == today &&
                         o.prescription.medications == MedicationList(medications) &&
                         o.prescription.instructions == instructions
  {
    if patientId !in patients || doctorId !in doctors then NotFound("Patient or Doctor not found")
    else Saved(Prescription(newId, patientId, doctorId, MedicationList(medications), instructions, today))
  }
}
