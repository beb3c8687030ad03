/** The local logic of `retrieval.js`: the records prepared for the vector
    index, the batches they are sent in, and the projection of a query's
    matches. The index, its similarity search and the embedding service are
    outside the model; their answers are inputs. */
module Retrieval {
  import opened Wrappers
  import opened Text
  import opened Seqs

  datatype ResearchItem = ResearchItem(title: string, abstractText: string, embedding: seq<real>)

  datatype Metadata = Metadata(title: string, abstractText: string)

  /** A match of a query: the stored record's id, its score and metadata. */
  datatype Match = Match(id: string, score: real, metadata: Metadata)

  datatype IndexRecord = IndexRecord(id: string, values: seq<real>, metadata: Metadata)

  /** `researchData.map((item, i) => ...)`: one record per item, in order,
      item `i` under the id `doc-i`. */
  function UpsertData(items: seq<ResearchItem>): (r: seq<IndexRecord>)
    ensures |r| == |items|
    ensures forall i :: 0 <= i < |items| ==>
              r[i] == IndexRecord("doc-" + IntToString(i), items[i].embedding, Metadata(items[i].title, items[i].abstractText))
  {
    seq(|items|, i requires 0 <= i < |items| =>
      IndexRecord("doc-" + IntToString(i), items[i].embedding, Metadata(items[i].title, items[i].abstractText)))
  }

  /** No two prepared records share an id. */
  lemma UpsertIdsDistinct(items: seq<ResearchItem>)
    ensures forall i, j :: 0 <= i < j < |items| ==> UpsertData(items)[i].id != UpsertData(items)[j].id
  {
    var r := UpsertData(items);
    forall i, j | 0 <= i < j < |items|
      ensures r[i].id != r[j].id
    {
      IntToStringInjective(i, j);
      assert r[i].id[4..] == IntToString(i) && r[j].id[4..] == IntToString(j);
    }
  }

  const BatchSize: nat := 100

  /** The batches laid end to end. */
  function Flatten<T>(batches: seq<seq<T>>): seq<T> {
    if batches == [] then [] else Flatten(batches[..|batches| - 1]) + batches[|batches| - 1]
  }

  /** The upsert loop: `slice(i, i + 100)` for `i = 0, 100, 200, ...` while
      `i` is below the length; each batch is handed to the index in turn. */
  method Batches<T>(data: seq<T>) returns (batches: seq<seq<T>>)
    ensures |batches| == (|data| + BatchSize - 1) / BatchSize
    ensures Flatten(batches) == data
    ensures forall k :: 0 <= k < |batches| ==>
              batches[k] == data[BatchSize * k .. Min(BatchSize * k + BatchSize, |data|)]
    ensures forall k :: 0 <= k < |batches| ==> 0 < |batches[k]| <= BatchSize
    ensures forall k :: 0 <= k < |batches| - 1 ==> |batches[k]| == BatchSize
  {
    batches := [];
    var i := 0;
    while i < |data|
      invariant i == BatchSize * |batches|
      invariant |batches| > 0 ==> BatchSize * (|batches| - 1) < |data|
      invariant Flatten(batches) == data[..Min(i, |data|)]
      invariant forall k :: 0 <= k < |batches| ==>
                  batches[k] == data[BatchSize * k .. Min(BatchSize * k + BatchSize, |data|)]
      invariant forall k :: 0 <= k < |batches| ==> BatchSize * k < |data|
    {
      var batch := data[i..Min(i + BatchSize, |data|)];
      assert data[..Min(i + BatchSize, |data|)] == data[..i] + batch;
      assert (batches + [batch])[..|batches|] == batches;
      batches := batches + [batch];
      i := i + BatchSize;
    }
    assert data[..Min(i, |data|)] == data;
  }

  /** `retrieveRelevantResearch`: no query without an embedding, and no
      results when the query fails; otherwise each match's metadata, in the
      order of the matches. */
  function RelevantResearch(queryEmbedding: Option<seq<real>>, matches: Option<seq<Match>>): (r: seq<Metadata>)
    ensures queryEmbedding.None? || matches.None? ==> r == []
    ensures queryEmbedding.Some? && matches.Some? ==>
              |r| == |matches.value| && forall k :: 0 <= k < |r| ==> r[k] == matches.value[k].metadata
  {
    if queryEmbedding.None? then []
    else
      match matches
      case None => []
      case Some(m) => seq(|m|, k requires 0 <= k < |m| => m[k].metadata)
  }
}
