/** The research block both recommendation services put into their prompt,
    and the replies they send. */
module ResearchPrompt {
  import opened Text
  import Retrieval

  const NoFindings := "No research findings available."

  /** `` `Source ${i + 1}: ${doc.title} - ${doc.abstract}` `` */
  function SourceLine(k: nat, doc: Retrieval.Metadata): string {
    "Source " + IntToString(k + 1) + ": " + doc.title + " - " + doc.abstractText
  }

  function SourceLines(results: seq<Retrieval.Metadata>): (lines: seq<string>)
    ensures |lines| == |results|
    ensures forall k :: 0 <= k < |results| ==> lines[k] == SourceLine(k, results[k])
  {
    seq(|results|, k requires 0 <= k < |results| => SourceLine(k, results[k]))
  }

  /** The numbered lines joined by newlines, or the fixed notice when there
      are no results. */
  function ResearchContent(results: seq<Retrieval.Metadata>): string {
    if |results| > 0 then Join(SourceLines(results), "\n") else NoFindings
  }

  /** When no title or abstract holds a line break, the block splits back
      into one line per result, line `k` numbered `k + 1`. */
  lemma ResearchContentLines(results: seq<Retrieval.Metadata>)
    requires |results| > 0
    requires forall k :: 0 <= k < |results| ==> '\n' !in results[k].title && '\n' !in results[k].abstractText
    ensures Split(ResearchContent(results), '\n') == SourceLines(results)
    ensures |Split(ResearchContent(results), '\n')| == |results|
  {
    var lines := SourceLines(results);
    forall k | 0 <= k < |lines|
      ensures '\n' !in lines[k]
    {
      var n := IntToString(k + 1);
      assert lines[k] == "Source " + n + ": " + results[k].title + " - " + results[k].abstractText;
      assert '\n' !in n;
    }
    SplitOfJoin(lines, '\n');
  }

  /** An error reply's body, or the recommendation with the research it drew
      on. */
  datatype ReplyBody =
    | Failure(error: string)
    | Recommendation(recommendation: string, sources: seq<Retrieval.Metadata>)

  datatype Reply = Reply(status: int, body: ReplyBody)
}
