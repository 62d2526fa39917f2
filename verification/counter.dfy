/** A concrete processor function that counts its invocations in its state
    and emits the running count as a one-byte chunk. Fed N chunks, the
    adapter yields the counts 1, 2, ..., N in order (each count modulo 256,
    since it is emitted as one byte). */
module RunningCount {
  import opened Wrappers
  import opened StreamProcessor
  import opened ProcessorRun

  function CountByte(n: nat): Byte
  {
    (n % 256) as Byte
  }

  /** Increments the count and emits the new count; it never fails. */
  function Count(chunk: Chunk, count: nat): (Result<Chunk, string>, nat)
  {
    (Ok([CountByte(count + 1)]), count + 1)
  }

  /** The error conversion used with `Count`; it is never applied. */
  function Identity(e: string): string
  {
    e
  }

  lemma {:induction false} ScanCount(s: nat, chunks: seq<Chunk>)
    ensures forall i :: 0 <= i < |chunks| ==> Scan<nat, string>(Count, s, chunks)[i] == Ok([CountByte(s + i + 1)])
    decreases |chunks|
  {
    if chunks != [] {
      ScanCount(s + 1, chunks[1..]);
      var scan := Scan<nat, string>(Count, s, chunks);
      assert scan == [Ok([CountByte(s + 1)])] + Scan<nat, string>(Count, s + 1, chunks[1..]);
      forall i | 0 <= i < |chunks|
        ensures scan[i] == Ok([CountByte(s + i + 1)])
      {
        if i > 0 {
          assert scan[i] == Scan<nat, string>(Count, s + 1, chunks[1..])[i - 1];
        }
      }
    }
  }

  /** An upstream whose polls deliver exactly `chunks`, in order. */
  function ChunkPolls(chunks: seq<Chunk>): seq<StreamPoll<string>>
  {
    seq(|chunks|, i requires 0 <= i < |chunks| => Ready(Some(Ok(chunks[i]))))
  }

  /** Fed N chunks, a fresh adapter around `Count` yields the i-th chunk as
      the single byte i + 1, and ends holding N. */
  lemma CountsChunks<S>(stream: S, chunks: seq<Chunk>)
    ensures var r := Run(Process(stream, Count, 0), ChunkPolls(chunks), Identity);
            && (forall i :: 0 <= i < |chunks| ==> r.0[i] == Ready(Some(Ok([CountByte(i + 1)]))))
            && r.1.state == |chunks|
  {
    var p := Process(stream, Count, 0);
    var ups := ChunkPolls(chunks);
    assert forall i :: 0 <= i < |ups| ==> IsChunk(ups[i]);
    var outs := Run(p, ups, Identity).0;
    RunOverChunksIsScan(p, ups, Identity);
    ScanCount(0, Chunks(ups));
    forall i | 0 <= i < |ups|
      ensures outs[i] == Ready(Some(Ok([CountByte(i + 1)])))
    {
      var scanned := Scan<nat, string>(Count, 0, Chunks(ups))[i];
      assert outs[i] == Ready(Some(scanned.MapErr(Identity)));
      assert scanned == Ok([CountByte(i + 1)]);
    }
    RunState(p, ups, Identity);
    FoldCount(0, Chunks(ups));
  }

  lemma {:induction false} FoldCount(s: nat, chunks: seq<Chunk>)
    ensures FoldState<nat, string>(Count, s, chunks) == s + |chunks|
    decreases |chunks|
  {
    if chunks != [] {
      FoldCount(s + 1, chunks[1..]);
    }
  }
}
