/** The statistics of a streamed request: wrapStream of client.go. */
module StreamStats {
  import opened Options
  import opened Stream
  import opened StreamResult
  import Statistics

  predicate AllGood(chunks: Chunks) {
    forall k | 0 <= k < |chunks| :: chunks[k].error.None?
  }

  /** wrapStream: forwards the chunks and makes one record when the stream ends or, before
      chunk cancelAt, the context is seen as ended. */
  method WrapStream(stats: Statistics.Stats, chunks: Chunks, cancelAt: Option<nat>) returns (out: Chunks, cut: bool)
    modifies stats
    ensures cut <==> cancelAt.Some? && cancelAt.value <= |chunks|
    ensures out == if cut then chunks[..cancelAt.value] else chunks
    ensures stats.total == old(stats.total) + 1
    ensures var good := !cut && AllGood(chunks);
      && stats.succeeded == old(stats.succeeded) + (if good then 1 else 0)
      && stats.failed == old(stats.failed) + (if good then 0 else 1)
    ensures stats.created == old(stats.created) + if cut then 0 else LastCreated(chunks)
    ensures var u := if cut then NO_USAGE else LastUsage(chunks);
      && stats.input == old(stats.input) + u.input && stats.output == old(stats.output) + u.output
      && stats.tokens == old(stats.tokens) + u.input + u.output && stats.read == old(stats.read) + u.cached
  {
    var success := true;
    var usage, created := NO_USAGE, 0;
    out := [];
    for i := 0 to |chunks|
      invariant out == chunks[..i] && usage == LastUsage(chunks[..i]) && created == LastCreated(chunks[..i])
      invariant success <==> forall k | 0 <= k < i :: chunks[k].error.None?
      invariant cancelAt.Some? ==> i <= cancelAt.value
    {
      if cancelAt == Some(i) {
        stats.RecordRequest(Statistics.Record(false, 0, 0, 0, 0));
        return out, true;
      }
      var chunk := chunks[i];
      assert chunks[..i + 1][..i] == chunks[..i];
      if chunk.error.Some? {
        success := false;
      }
      if chunk.done {
        usage, created := chunk.usage, chunk.created;
      }
      out := out + [chunk];
    }
    if cancelAt == Some(|chunks|) {
      stats.RecordRequest(Statistics.Record(false, 0, 0, 0, 0));
      return out, true;
    }
    assert chunks[..|chunks|] == chunks;
    stats.RecordRequest(Statistics.Record(success, usage.input, usage.output, created, usage.cached));
    return out, false;
  }

  /** A stream read to its end counts as a success exactly when collecting it gives no
      error, and the tokens counted are those the collector reports. */
  lemma CountedAsCollected(es: seq<Event>, broken: bool)
    ensures var chunks, r := Parse(es, broken), Collected(EMPTY, Parse(es, broken));
      && (r.err.None? <==> AllGood(chunks))
      && LastUsage(chunks).input == r.usage.input && LastUsage(chunks).output == r.usage.output
      && LastUsage(chunks).cached == r.usage.cached && LastCreated(chunks) == r.created
  {
    OrderlyFrom(false, START, es, broken);
    CollectedOrderly(EMPTY, Parse(es, broken));
    ErrorsFound(Parse(es, broken));
  }

  lemma {:induction false} ErrorsFound(chunks: Chunks)
    ensures FirstError(chunks).None? <==> AllGood(chunks)
  {
    if chunks != [] {
      ErrorsFound(chunks[1..]);
      assert AllGood(chunks) ==> AllGood(chunks[1..]);
      assert forall k | 0 < k < |chunks| :: chunks[k] == chunks[1..][k - 1];
    }
  }
}
