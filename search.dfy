// The search-trigger chunker of internal/app/app.go: the identifiers of a
// scan's matches are sent to the service in consecutive sub-batches of at
// most ten, one command per sub-batch, in order; a refused command is
// skipped and the remaining ones are still sent.

module SearchTrigger {
  import opened Types
  import opened Clients

  /** How many identifiers one search command carries at most. */
  const ChunkSize := 10

  function Min(a: int, b: int): int {
    if a <= b then a else b
  }

  /** The identifiers split into consecutive sub-batches of ChunkSize, the last one possibly shorter. */
  function Chunks(ids: seq<int>): seq<seq<int>>
    decreases |ids|
  {
    if |ids| == 0 then []
    else if |ids| <= ChunkSize then [ids]
    else [ids[..ChunkSize]] + Chunks(ids[ChunkSize..])
  }

  /** The sub-batches laid end to end. */
  function Flatten(chunks: seq<seq<int>>): seq<int>
    decreases |chunks|
  {
    if chunks == [] then [] else chunks[0] + Flatten(chunks[1..])
  }

  /** K identifiers make ceil(K / 10) sub-batches. */
  lemma {:induction false} ChunkCount(ids: seq<int>)
    ensures |Chunks(ids)| == (|ids| + ChunkSize - 1) / ChunkSize
    decreases |ids|
  {
    if |ids| > ChunkSize {
      ChunkCount(ids[ChunkSize..]);
    }
  }

  /** The k-th sub-batch is the slice the loop `for i := 0; i < n; i += 10` cuts at i = 10k. */
  lemma {:induction false} ChunkAt(ids: seq<int>, k: nat)
    requires k < |Chunks(ids)|
    ensures ChunkSize * k < |ids|
    ensures Chunks(ids)[k] == ids[ChunkSize * k .. Min(ChunkSize * k + ChunkSize, |ids|)]
    decreases k
  {
    ChunkCount(ids);
    if k > 0 {
      assert |ids| > ChunkSize;
      var rest := ids[ChunkSize..];
      assert Chunks(ids)[k] == Chunks(rest)[k - 1];
      ChunkAt(rest, k - 1);
      assert rest[ChunkSize * (k - 1) .. Min(ChunkSize * (k - 1) + ChunkSize, |rest|)]
          == ids[ChunkSize * k .. Min(ChunkSize * k + ChunkSize, |ids|)];
    }
  }

  /** Every sub-batch holds between one and ten identifiers, and all but the last exactly ten. */
  lemma {:induction false} ChunkSizes(ids: seq<int>, k: nat)
    requires k < |Chunks(ids)|
    ensures 1 <= |Chunks(ids)[k]| <= ChunkSize
    ensures k + 1 < |Chunks(ids)| ==> |Chunks(ids)[k]| == ChunkSize
    decreases k
  {
    if k > 0 {
      ChunkSizes(ids[ChunkSize..], k - 1);
    }
  }

  /** The sub-batches concatenate back to the identifier list: nothing lost,
      nothing repeated, order kept. */
  lemma {:induction false} FlattenChunks(ids: seq<int>)
    ensures Flatten(Chunks(ids)) == ids
    decreases |ids|
  {
    if |ids| > ChunkSize {
      FlattenChunks(ids[ChunkSize..]);
      assert ids == ids[..ChunkSize] + ids[ChunkSize..];
    } else if |ids| > 0 {
      assert Flatten(Chunks(ids)) == ids + Flatten([]);
    }
  }

  /** The commands sent for a list of sub-batches: the k-th carries the k-th sub-batch
      and gets the answer the service gives to the k-th command. */
  function Dispatch(sink: CommandSink, name: string, chunks: seq<seq<int>>): (sent: seq<SentCommand>)
    ensures |sent| == |chunks|
  {
    seq(|chunks|, k requires 0 <= k < |chunks| =>
      Sent(CommandRequest(name, chunks[k]), TriggerSearch(sink, k, chunks[k])))
  }

  /** Everything sent to the service when searching for `ids`. */
  function SearchLog(sink: CommandSink, name: string, ids: seq<int>): seq<SentCommand> {
    Dispatch(sink, name, Chunks(ids))
  }

  /** The identifier lists of the commands, in sending order. */
  function RequestIds(sent: seq<SentCommand>): (chunks: seq<seq<int>>)
    ensures |chunks| == |sent|
    ensures forall k :: 0 <= k < |sent| ==> chunks[k] == sent[k].request.ids
  {
    seq(|sent|, k requires 0 <= k < |sent| => sent[k].request.ids)
  }

  /** The shape of a search: ceil(K / 10) commands of the given name, each with one
      to ten identifiers (so the client never refuses one as empty), together
      covering the identifiers in order; every command is sent whatever the
      service answered to the earlier ones. */
  lemma SearchLogShape(sink: CommandSink, name: string, ids: seq<int>)
    ensures |SearchLog(sink, name, ids)| == (|ids| + ChunkSize - 1) / ChunkSize
    ensures Flatten(RequestIds(SearchLog(sink, name, ids))) == ids
    ensures forall k :: 0 <= k < |SearchLog(sink, name, ids)| ==>
      var c := SearchLog(sink, name, ids)[k];
      c.request.name == name && 1 <= |c.request.ids| <= ChunkSize &&
      c.outcome == TriggerSearch(sink, k, c.request.ids) && c.outcome != Err(NoIdsProvided)
  {
    ChunkCount(ids);
    FlattenChunks(ids);
    assert RequestIds(SearchLog(sink, name, ids)) == Chunks(ids);
    forall k | 0 <= k < |Chunks(ids)|
      ensures 1 <= |Chunks(ids)[k]| <= ChunkSize
    {
      ChunkSizes(ids, k);
    }
  }

  /** Failure isolation: which identifiers are sent, and in which commands, does not
      depend on how the service answers. */
  lemma SearchIgnoresAnswers(s1: CommandSink, s2: CommandSink, name: string, ids: seq<int>)
    ensures RequestIds(SearchLog(s1, name, ids)) == RequestIds(SearchLog(s2, name, ids))
  {
    assert RequestIds(SearchLog(s1, name, ids)) == Chunks(ids);
    assert RequestIds(SearchLog(s2, name, ids)) == Chunks(ids);
  }

  /** No identifiers, no command. */
  lemma NothingToSearch(sink: CommandSink, name: string)
    ensures SearchLog(sink, name, []) == []
  {
  }

  /** The chunk loop: `for i := 0; i < len(ids); i += 10`, one command per slice,
      a failed command skipped. */
  method TriggerInChunks(sink: CommandSink, name: string, ids: seq<int>) returns (sent: seq<SentCommand>)
    ensures sent == SearchLog(sink, name, ids)
  {
    ChunkCount(ids);
    sent := [];
    var i := 0;
    while i < |ids|
      invariant i == ChunkSize * |sent|
      invariant |sent| <= |Chunks(ids)|
      invariant sent == SearchLog(sink, name, ids)[..|sent|]
    {
      var end := Min(i + ChunkSize, |ids|);
      var batch := ids[i..end];
      ChunkAt(ids, |sent|);
      var resp := TriggerSearch(sink, |sent|, batch);
      sent := sent + [Sent(CommandRequest(name, batch), resp)];
      i := i + ChunkSize;
    }
  }
}
