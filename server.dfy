/** The `/generate-recommendation` handler of the backend service
    (`server.js`): the check of the request, the prompt, and the reply. The
    research results and the generated text are inputs; `patientText` is the
    text the template string makes of the request's `patientData`. */
module RecommendationServer {
  import opened Wrappers
  import opened Text
  import Json
  import Retrieval
  import opened ResearchPrompt

  const PromptHead := "Patient information: "
  const ResearchHeading := "\n\nRelevant research:\n"
  const PromptTail := "\n\nBased on the above, provide a detailed clinical recommendation with reasoning."

  function Prompt(patientText: string, research: seq<Retrieval.Metadata>): string {
    PromptHead + patientText + ResearchHeading + ResearchContent(research) + PromptTail
  }

  /** The prompt starts with the heading and the patient, ends with the fixed
      instruction, and holds the research block between them, so that the
      block can be read back from it. */
  lemma PromptParts(patientText: string, research: seq<Retrieval.Metadata>)
    ensures var p := Prompt(patientText, research);
            var start := |PromptHead| + |patientText| + |ResearchHeading|;
            start + |PromptTail| <= |p| &&
            p[..|PromptHead|] == PromptHead &&
            p[|PromptHead|..|PromptHead| + |patientText|] == patientText &&
            p[|p| - |PromptTail|..] == PromptTail &&
            p[start..|p| - |PromptTail|] == ResearchContent(research)
  {
    var p := Prompt(patientText, research);
    var c := ResearchContent(research);
    assert p == PromptHead + patientText + ResearchHeading + c + PromptTail;
  }

  /** The same patient with different research gives different prompts. */
  lemma PromptDeterminesResearch(patientText: string, a: seq<Retrieval.Metadata>, b: seq<Retrieval.Metadata>)
    requires ResearchContent(a) != ResearchContent(b)
    ensures Prompt(patientText, a) != Prompt(patientText, b)
  {
    PromptParts(patientText, a);
    PromptParts(patientText, b);
  }

  /** The handler: a falsy `patientData` is refused with 400; otherwise the
      generated text and the research it drew on, or 500 when generation
      fails. */
  function GenerateRecommendation(patientData: Option<Json.Value>, research: seq<Retrieval.Metadata>,
                                  generated: Option<string>): (r: Reply)
    ensures r.status == 400 <==> !Json.Truthy(patientData)
    ensures r.status == 400 ==> r.body == Failure("Missing patientData in request body")
    ensures r.status == 200 <==> Json.Truthy(patientData) && generated.Some?
    ensures r.status == 200 ==> r.body == Recommendation(generated.value, research)
    ensures r.status != 200 && r.status != 400 ==> r == Reply(500, Failure("Error generating recommendation"))
  {
    if !Json.Truthy(patientData) then Reply(400, Failure("Missing patientData in request body"))
    else if generated.None? then Reply(500, Failure("Error generating recommendation"))
    else Reply(200, Recommendation(generated.value, research))
  }
}
