/** The `/generate-recommendation` handler of the AI service (`AI/server.js`):
    the checks that end the request early, the patient lookup, and the reply.
    The patients file, its parsed contents, the research results and the
    generated text are inputs. */
module AiServer {
  import opened Wrappers
  import opened Text
  import Json
  import Retrieval
  import opened ResearchPrompt

  /** The position of the first patient with that id, or the length. */
  function FindIndex(data: seq<Json.Object>, patientId: Json.Value): (i: nat)
    ensures i <= |data|
    ensures i < |data| ==> Json.Get(data[i], "id") == Some(patientId)
    ensures forall j :: 0 <= j < i ==> Json.Get(data[j], "id") != Some(patientId)
  {
    if data == [] then 0
    else if Json.Get(data[0], "id") == Some(patientId) then 0
    else
      var i := 1 + FindIndex(data[1..], patientId);
      assert forall j :: 1 <= j < |data| ==> data[j] == data[1..][j - 1];
      i
  }

  /** `data.find(patient => patient.id === patientId)`: the first patient
      with that id. */
  function FindPatient(data: seq<Json.Object>, patientId: Json.Value): (p: Option<Json.Object>)
    ensures p.None? <==> forall k :: 0 <= k < |data| ==> Json.Get(data[k], "id") != Some(patientId)
    ensures p.Some? ==> exists k :: 0 <= k < |data| && data[k] == p.value &&
                                    Json.Get(data[k], "id") == Some(patientId) &&
                                    forall j :: 0 <= j < k ==> Json.Get(data[j], "id") != Some(patientId)
  {
    var i := FindIndex(data, patientId);
    if i < |data| then Some(data[i]) else None
  }

  /** The handler. `file` is the patients file, None when it does not exist;
      `parsed` is the array of patients in its trimmed text, None when
      `JSON.parse` throws and also when the text parses to something `find`
      throws on (a value that is not an array, or an array with a `null` entry
      before the first patient with that id); `generated` is the model's
      text, None when the call fails. Each of these throws lands in the
      catch, which answers 500. */
  function GenerateRecommendation(patientId: Option<Json.Value>, file: Option<string>,
                                  parsed: Option<seq<Json.Object>>,
                                  research: seq<Retrieval.Metadata>, generated: Option<string>): (r: Reply)
    ensures r.status == 400 <==> !Json.Truthy(patientId)
    ensures r.status == 400 ==> r.body == Failure("Missing patientId in request body")
    ensures Json.Truthy(patientId) && file.None? ==> r == Reply(404, Failure("Patient data file not found"))
    ensures Json.Truthy(patientId) && file.Some? && Trim(file.value) == [] ==>
              r == Reply(404, Failure("Patient data file is empty"))
    ensures (Json.Truthy(patientId) && file.Some? && Trim(file.value) != [] && parsed.Some? &&
             FindPatient(parsed.value, patientId.value).None?) ==>
              r == Reply(404, Failure("Patient not found"))
    ensures r.status == 200 <==>
              (Json.Truthy(patientId) && file.Some? && Trim(file.value) != [] && parsed.Some? &&
               FindPatient(parsed.value, patientId.value).Some? && generated.Some?)
    ensures r.status == 200 ==> r.body == Recommendation(generated.value, research)
    ensures r.status == 500 <==>
              (Json.Truthy(patientId) && file.Some? && Trim(file.value) != [] &&
               (parsed.None? || (FindPatient(parsed.value, patientId.value).Some? && generated.None?)))
    ensures r.status == 500 ==> r.body == Failure("Error generating recommendation")
    ensures r.status in {200, 400, 404, 500}
  {
    if !Json.Truthy(patientId) then Reply(400, Failure("Missing patientId in request body"))
    else if file.None? then Reply(404, Failure("Patient data file not found"))
    else if Trim(file.value) == [] then Reply(404, Failure("Patient data file is empty"))
    else if parsed.None? then Reply(500, Failure("Error generating recommendation"))
    else if FindPatient(parsed.value, patientId.value).None? then Reply(404, Failure("Patient not found"))
    else if generated.None? then Reply(500, Failure("Error generating recommendation"))
    else Reply(200, Recommendation(generated.value, research))
  }

  /** A file of white space only counts as empty. */
  lemma BlankFileIsEmpty(patientId: Json.Value, file: string, parsed: Option<seq<Json.Object>>,
                         research: seq<Retrieval.Metadata>, generated: Option<string>)
    requires Json.Truthy(Some(patientId))
    requires forall k :: 0 <= k < |file| ==> IsJsSpace(file[k])
    ensures GenerateRecommendation(Some(patientId), Some(file), parsed, research, generated) ==
            Reply(404, Failure("Patient data file is empty"))
  {
    TrimEmptyIffBlank(file);
  }
}
