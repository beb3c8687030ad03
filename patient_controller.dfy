/** The patient controller (`patientController.js`): the id a new patient
    receives, the record built from the request body, and the update of a
    patient's AI response. */
module PatientController {
  import opened Wrappers
  import opened Text
  import Json
  import Ids

  /** The id as the controller computes it from the id that sorts last:
      `P1001` for the first patient, otherwise `P` and the successor of the
      number after the first character. */
  function NewPatientId(last: Option<string>): (id: string)
    ensures last.None? ==> id == "P1001"
    ensures forall n :: last == Some("P" + IntToString(n)) ==> id == "P" + IntToString(n + 1)
  {
    forall n | last == Some("P" + IntToString(n)) ensures Ids.NextIdAsWritten("P", "P1001", last) == "P" + IntToString(n + 1) {
      Ids.NextIdContinues("P", "P1001", n);
    }
    Ids.NextIdAsWritten("P", "P1001", last)
  }

  /** The id that cannot collide: the successor of the greatest number any
      patient id carries, `P1001` for the first patient. */
  function FreshPatientId(ids: seq<string>): (id: string)
    ensures ids == [] ==> id == "P1001"
    ensures id !in ids
  {
    assert IntToString(1001) == "1001" by {
      assert NatToString(1) == "1" && NatToString(10) == "10" && NatToString(100) == "100";
    }
    Ids.FreshId("P", ids, 1000)
  }

  /** The new patient: the generated id first, then the body's fields (a body
      `_id` replaces the generated one), then the visit date, the condition
      `Stable` and an empty AI response, which replace whatever the body
      says. */
  function PatientRecord(newId: string, body: Json.Object, today: string): (r: Json.Object)
    ensures r.Keys == body.Keys + {"_id", "last_visit", "condition", "aiSupportResponse"}
    ensures r["condition"] == Json.Str("Stable") && r["aiSupportResponse"] == Json.Str("")
    ensures r["last_visit"] == Json.Str(today)
    ensures r["_id"] == if "_id" in body then body["_id"] else Json.Str(newId)
    ensures forall k :: k in body && k !in {"_id", "last_visit", "condition", "aiSupportResponse"} ==> r[k] == body[k]
  {
    map["_id" := Json.Str(newId)] + body +
    map["last_visit" := Json.Str(today), "condition" := Json.Str("Stable"), "aiSupportResponse" := Json.Str("")]
  }

  /** `updatePatientAIResponse`: only that patient's `aiSupportResponse`
      changes; an unknown id changes nothing. */
  function UpdateAIResponse(patients: map<string, Json.Object>, id: string, response: string): (r: map<string, Json.Object>)
    ensures r.Keys == patients.Keys
    ensures id in patients ==> r[id] == patients[id]["aiSupportResponse" := Json.Str(response)]
    ensures forall other :: other in patients && other != id ==> r[other] == patients[other]
  {
    if id in patients then patients[id := patients[id]["aiSupportResponse" := Json.Str(response)]] else patients
  }

  /** Updating the response touches no other field of the patient. */
  lemma UpdateAIResponseFrame(patients: map<string, Json.Object>, id: string, response: string)
    requires id in patients
    ensures UpdateAIResponse(patients, id, response)[id].Keys == patients[id].Keys + {"aiSupportResponse"}
    ensures forall k :: k in patients[id] && k != "aiSupportResponse" ==>
              UpdateAIResponse(patients, id, response)[id][k] == patients[id][k]
  {
  }
}
