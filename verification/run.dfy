/** Polling the adapter repeatedly. `Run` folds `Step` over a sequence of
    upstream poll outcomes; `Drive` calls `PollNext` a number of times on a
    real (abstract) upstream. The lemmas relate the outputs and the final
    state to the inputs: one output per upstream poll, of the same kind, in
    order, and the state threaded through the chunks as a left fold. */
module ProcessorRun {
  import opened Wrappers
  import opened StreamProcessor

  /** The outputs of polling the adapter once per element of `ups`, in
      order, and the adapter left at the end. */
  function Run<S, St, E, IOE>(p: Processor<S, St, E>, ups: seq<StreamPoll<IOE>>, into: E -> IOE)
    : (r: (seq<StreamPoll<IOE>>, Processor<S, St, E>))
    ensures |r.0| == |ups|
    ensures r.1.stream == p.stream && r.1.processorFn == p.processorFn
    decreases |ups|
  {
    if ups == [] then ([], p)
    else
      var (out, p1) := Step(p, ups[0], into);
      var (outs, p2) := Run(p1, ups[1..], into);
      ([out] + outs, p2)
  }

  /** The chunks among the upstream poll outcomes, in order. */
  function Chunks<IOE>(ups: seq<StreamPoll<IOE>>): seq<Chunk>
    decreases |ups|
  {
    if ups == [] then []
    else (if IsChunk(ups[0]) then [ChunkOf(ups[0])] else []) + Chunks(ups[1..])
  }

  /** The state component of `f` folded left over `chunks`, from `s`. */
  function FoldState<St, E>(f: ProcessorFn<St, E>, s: St, chunks: seq<Chunk>): St
    decreases |chunks|
  {
    if chunks == [] then s else FoldState(f, f(chunks[0], s).1, chunks[1..])
  }

  /** Polling over `a` and then over `b` is polling over `a + b`. */
  lemma {:induction false} RunAppend<S, St, E, IOE>(
    p: Processor<S, St, E>, a: seq<StreamPoll<IOE>>, b: seq<StreamPoll<IOE>>, into: E -> IOE)
    ensures Run(p, a + b, into).0 == Run(p, a, into).0 + Run(Run(p, a, into).1, b, into).0
    ensures Run(p, a + b, into).1 == Run(Run(p, a, into).1, b, into).1
    decreases |a|
  {
    if a == [] {
      assert a + b == b;
    } else {
      var ab := a + b;
      assert ab[0] == a[0];
      assert ab[1..] == a[1..] + b;
      var p1 := Step(p, a[0], into).1;
      RunAppend(p1, a[1..], b, into);
    }
  }

  /** State threading: after any sequence of upstream polls the adapter's
      state is the left fold of the processor function's state component over
      the chunks delivered, starting from the state it had. Pending polls,
      the end of the stream and upstream errors leave the state alone. */
  lemma {:induction false} RunState<S, St, E, IOE>(
    p: Processor<S, St, E>, ups: seq<StreamPoll<IOE>>, into: E -> IOE)
    ensures Run(p, ups, into).1.state == FoldState(p.processorFn, p.state, Chunks(ups))
    decreases |ups|
  {
    if ups != [] {
      var p1 := Step(p, ups[0], into).1;
      RunState(p1, ups[1..], into);
      var rest := Chunks(ups[1..]);
      if IsChunk(ups[0]) {
        assert Chunks(ups) == [ChunkOf(ups[0])] + rest;
        assert ([ChunkOf(ups[0])] + rest)[1..] == rest;
        assert p1.state == p.processorFn(ChunkOf(ups[0]), p.state).1;
      } else {
        assert Chunks(ups) == rest;
      }
    }
  }

  /** The i-th output is what one `Step` yields on the i-th upstream outcome,
      from the adapter left by the first i polls. */
  lemma {:induction false} RunOutputAt<S, St, E, IOE>(
    p: Processor<S, St, E>, ups: seq<StreamPoll<IOE>>, into: E -> IOE, i: nat)
    requires i < |ups|
    ensures Run(p, ups, into).0[i] == Step(Run(p, ups[..i], into).1, ups[i], into).0
  {
    assert ups == ups[..i] + ups[i..];
    RunAppend(p, ups[..i], ups[i..], into);
    var q := Run(p, ups[..i], into).1;
    assert ups[i..][0] == ups[i];
    assert Run(q, ups[i..], into).0[0] == Step(q, ups[i], into).0;
  }

  /** One output per upstream poll, in order and of the same kind: a pending
      poll stays pending, the end of the stream stays the end, and an upstream
      error is forwarded unchanged. */
  lemma RunCorrespondsOneToOne<S, St, E, IOE>(
    p: Processor<S, St, E>, ups: seq<StreamPoll<IOE>>, into: E -> IOE)
    ensures var outs := Run(p, ups, into).0;
            && |outs| == |ups|
            && (forall i :: 0 <= i < |ups| ==> KindOf(outs[i]) == KindOf(ups[i]))
            && (forall i :: 0 <= i < |ups| && ups[i].Pending? ==> outs[i].Pending?)
            && (forall i :: 0 <= i < |ups| && ups[i] == Ready(None) ==> outs[i] == Ready(None))
            && (forall i :: 0 <= i < |ups| && IsError(ups[i]) ==> outs[i] == ups[i])
  {
    var outs := Run(p, ups, into).0;
    forall i | 0 <= i < |ups|
      ensures KindOf(outs[i]) == KindOf(ups[i])
      ensures ups[i].Pending? ==> outs[i].Pending?
      ensures ups[i] == Ready(None) ==> outs[i] == Ready(None)
      ensures IsError(ups[i]) ==> outs[i] == ups[i]
    {
      RunOutputAt(p, ups, into, i);
    }
  }

  /** The i-th chunk goes to the processor function exactly once, with the
      state left by the chunks before it, and the i-th output is that call's
      result with its error converted. */
  lemma ChunkProcessedWithPriorState<S, St, E, IOE>(
    p: Processor<S, St, E>, ups: seq<StreamPoll<IOE>>, into: E -> IOE, i: nat)
    requires i < |ups| && IsChunk(ups[i])
    ensures var before := FoldState(p.processorFn, p.state, Chunks(ups[..i]));
            var call := p.processorFn(ChunkOf(ups[i]), before);
            Run(p, ups, into).0[i] == Ready(Some(call.0.MapErr(into)))
  {
    RunOutputAt(p, ups, into, i);
    RunState(p, ups[..i], into);
  }

  /** The results of applying `f` to `chunks` one after the other, each call
      made with the state the previous call left: the reference definition of
      what a chunk-only stream yields. */
  function Scan<St, E>(f: ProcessorFn<St, E>, s: St, chunks: seq<Chunk>): (r: seq<Result<Chunk, E>>)
    ensures |r| == |chunks|
    decreases |chunks|
  {
    if chunks == [] then []
    else
      var (result, s') := f(chunks[0], s);
      [result] + Scan(f, s', chunks[1..])
  }

  /** Over an upstream that only delivers chunks, the outputs are the scan of
      the processor function over those chunks from the adapter's state, each
      error converted. */
  lemma {:induction false} RunOverChunksIsScan<S, St, E, IOE>(
    p: Processor<S, St, E>, ups: seq<StreamPoll<IOE>>, into: E -> IOE)
    requires forall i :: 0 <= i < |ups| ==> IsChunk(ups[i])
    ensures |Chunks(ups)| == |ups|
    ensures forall i :: 0 <= i < |ups| ==>
              Run(p, ups, into).0[i] == Ready(Some(Scan(p.processorFn, p.state, Chunks(ups))[i].MapErr(into)))
    decreases |ups|
  {
    if ups != [] {
      var (result, s') := p.processorFn(ChunkOf(ups[0]), p.state);
      var p1 := Step(p, ups[0], into).1;
      assert p1 == p.(state := s');
      RunOverChunksIsScan(p1, ups[1..], into);
      var rest := Chunks(ups[1..]);
      assert Chunks(ups) == [ChunkOf(ups[0])] + rest;
      assert ([ChunkOf(ups[0])] + rest)[1..] == rest;
      var outs := Run(p, ups, into).0;
      var scan := Scan(p.processorFn, p.state, Chunks(ups));
      assert scan == [result] + Scan(p.processorFn, s', rest);
      forall i | 0 <= i < |ups|
        ensures outs[i] == Ready(Some(scan[i].MapErr(into)))
      {
        if i > 0 {
          assert outs[i] == Run(p1, ups[1..], into).0[i - 1];
        }
      }
    }
  }

  /** From a freshly constructed adapter, the state after the polls `ups`
      is the fold over their chunks from the default state. */
  lemma FreshRunState<S, St, E, IOE>(
    stream: S, f: ProcessorFn<St, E>, default: St, ups: seq<StreamPoll<IOE>>, into: E -> IOE)
    ensures Run(Process(stream, f, default), ups, into).1.state == FoldState(f, default, Chunks(ups))
  {
    RunState(Process(stream, f, default), ups, into);
  }

  /** The stage does not become terminal after the end of the stream: a
      `Ready(None)` leaves the adapter as it was, so whatever the upstream
      returns on the next poll is handled as if the end had not been seen,
      both in what is yielded and in the adapter left behind. */
  lemma ResumesAfterEnd<S, St, E, IOE>(
    p: Processor<S, St, E>, next: StreamPoll<IOE>, into: E -> IOE)
    ensures Run(p, [Ready(None), next], into).0 == [Ready(None), Step(p, next, into).0]
    ensures Run(p, [Ready(None), next], into).1 == Step(p, next, into).1
  {
    assert [Ready(None), next][1..] == [next];
    assert [next][1..] == [];
    var q := Step(p, next, into).1;
    assert Run(q, [], into).1 == q;
    assert Run(p, [next], into).1 == Run(q, [next][1..], into).1;
  }

  /** The outcomes of polling the upstream `n` times from `s`, and the
      upstream left behind. */
  function UpstreamPolls<S, IOE>(pollUpstream: S -> (StreamPoll<IOE>, S), s: S, n: nat)
    : (r: (seq<StreamPoll<IOE>>, S))
    ensures |r.0| == n
  {
    if n == 0 then ([], s)
    else
      var (u, s1) := pollUpstream(s);
      var (us, s2) := UpstreamPolls(pollUpstream, s1, n - 1);
      ([u] + us, s2)
  }

  /** The outputs of `n` calls to `poll_next`, and the adapter left behind. */
  function Drive<S, St, E, IOE>(
    p: Processor<S, St, E>, pollUpstream: S -> (StreamPoll<IOE>, S), into: E -> IOE, n: nat)
    : (r: (seq<StreamPoll<IOE>>, Processor<S, St, E>))
    ensures |r.0| == n
    ensures r.1.processorFn == p.processorFn
    decreases n
  {
    if n == 0 then ([], p)
    else
      var (out, p1) := PollNext(p, pollUpstream, into);
      var (outs, p2) := Drive(p1, pollUpstream, into, n - 1);
      ([out] + outs, p2)
  }

  /** What `Run` computes does not depend on the stream field. */
  lemma {:induction false} RunIgnoresStream<S, St, E, IOE>(
    p: Processor<S, St, E>, t: S, ups: seq<StreamPoll<IOE>>, into: E -> IOE)
    ensures Run(p.(stream := t), ups, into).0 == Run(p, ups, into).0
    ensures Run(p.(stream := t), ups, into).1 == Run(p, ups, into).1.(stream := t)
    decreases |ups|
  {
    if ups != [] {
      var p1 := Step(p, ups[0], into).1;
      assert Step(p.(stream := t), ups[0], into).1 == p1.(stream := t);
      RunIgnoresStream(p1, t, ups[1..], into);
    }
  }

  /** One upstream poll per `poll_next`: `n` calls to `poll_next` produce
      exactly the outputs of `Run` over the outcomes of `n` upstream polls,
      and leave the upstream where those `n` polls leave it. */
  lemma {:induction false} DriveIsRunOverUpstreamPolls<S, St, E, IOE>(
    p: Processor<S, St, E>, pollUpstream: S -> (StreamPoll<IOE>, S), into: E -> IOE, n: nat)
    ensures var (ups, s') := UpstreamPolls(pollUpstream, p.stream, n);
            var run := Run(p, ups, into);
            Drive(p, pollUpstream, into, n) == (run.0, run.1.(stream := s'))
    decreases n
  {
    if n > 0 {
      var (u, s1) := pollUpstream(p.stream);
      var (us, s2) := UpstreamPolls(pollUpstream, s1, n - 1);
      var q := Step(p, u, into).1;
      var q' := q.(stream := s1);
      assert PollNext(p, pollUpstream, into) == (Step(p, u, into).0, q');
      DriveIsRunOverUpstreamPolls(q', pollUpstream, into, n - 1);
      RunIgnoresStream(q, s1, us, into);
      assert ([u] + us)[1..] == us;
      assert q.stream == p.stream;
      assert Run(q, us, into).1.(stream := s2) == Run(q, us, into).1.(stream := s1).(stream := s2);
    }
  }
}
