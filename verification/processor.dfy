/** The chunked transform stage: a `Processor` wraps an upstream stream of
    `Result<Chunk, IOE>` items, owns one value of the caller's state type, and
    on every poll hands each upstream chunk, together with that state, to the
    caller's processor function.

    Pinning, the task context and wakers are not modelled: a poll of the
    upstream is either an input value (`Step`) or one application of an
    abstract poll function (`PollNext`). */
module StreamProcessor {
  import opened Wrappers

  type Byte = bv8

  /** A contiguous span of bytes (a `Bytes` value without its sharing). */
  type Chunk = seq<Byte>

  /** One item of the stream: a chunk, or an I/O error of kind `IOE`. */
  type Item<IOE> = Result<Chunk, IOE>

  /** What one poll of a stream of items returns: not ready yet, the end of
      the stream (`Ready(None)`), or an item (`Ready(Some(_))`). */
  type StreamPoll<IOE> = Poll<Option<Item<IOE>>>

  /** The caller's processor function. Rust's `&mut State` argument is
      threaded explicitly: the function returns the state it leaves behind
      alongside its result, whether that result is a chunk or an error. */
  type ProcessorFn<!St, E> = (Chunk, St) -> (Result<Chunk, E>, St)

  /** The adapter: the upstream stream, the state it owns and the
      processor function it applies. */
  datatype Processor<S, !St, E> = Processor(stream: S, state: St, processorFn: ProcessorFn<St, E>)

  /** The three kinds of poll outcome; the stage never changes the kind. */
  datatype PollKind = NotReady | End | Yielded

  function KindOf<T>(p: Poll<Option<T>>): PollKind
  {
    match p
    case Pending => NotReady
    case Ready(None) => End
    case Ready(Some(_)) => Yielded
  }

  /** The upstream poll delivered a chunk (`Ready(Some(Ok(_)))`). */
  predicate IsChunk<IOE>(p: StreamPoll<IOE>)
  {
    match p
    case Ready(Some(Ok(_))) => true
    case _ => false
  }

  /** The upstream poll delivered an I/O error (`Ready(Some(Err(_)))`). */
  predicate IsError<IOE>(p: StreamPoll<IOE>)
  {
    match p
    case Ready(Some(Err(_))) => true
    case _ => false
  }

  function ChunkOf<IOE>(p: StreamPoll<IOE>): Chunk
    requires IsChunk(p)
  {
    match p
    case Ready(Some(Ok(chunk))) => chunk
  }

  /** Builds an adapter over `stream` with `processorFn`; its state starts
      as `default`, the state type's `Default::default()`. */
  function New<S, St, E>(stream: S, processorFn: ProcessorFn<St, E>, default: St): (p: Processor<S, St, E>)
    ensures p.state == default
    ensures p.stream == stream && p.processorFn == processorFn
  {
    Processor(stream, default, processorFn)
  }

  /** The `process` extension method every stream has: it attaches an
      adapter to the stream by delegating to `New`. */
  function Process<S, St, E>(stream: S, processorFn: ProcessorFn<St, E>, default: St): (p: Processor<S, St, E>)
    ensures p == New(stream, processorFn, default)
    ensures p.state == default
    ensures p.stream == stream && p.processorFn == processorFn
  {
    New(stream, processorFn, default)
  }

  /** What the adapter yields once the upstream poll has returned `upstream`,
      and the adapter it leaves behind. Only a chunk reaches the processor
      function; its error is converted with `into` (Rust's `Into<IOError>`). */
  function Step<S, St, E, IOE>(p: Processor<S, St, E>, upstream: StreamPoll<IOE>, into: E -> IOE)
    : (r: (StreamPoll<IOE>, Processor<S, St, E>))
    ensures KindOf(r.0) == KindOf(upstream)
    ensures r.1.stream == p.stream && r.1.processorFn == p.processorFn
    ensures upstream.Pending? ==> r.0.Pending? && r.1 == p
    ensures upstream == Ready(None) ==> r.0 == Ready(None) && r.1 == p
    ensures IsError(upstream) ==> r.0 == upstream && r.1 == p
    ensures IsChunk(upstream) ==>
              var call := p.processorFn(ChunkOf(upstream), p.state);
              && r.0 == Ready(Some(call.0.MapErr(into)))
              && r.1 == p.(state := call.1)
  {
    match upstream
    case Pending => (Pending, p)
    case Ready(None) => (Ready(None), p)
    case Ready(Some(Err(e))) => (Ready(Some(Err(e))), p)
    case Ready(Some(Ok(bytes))) =>
      var (result, state') := p.processorFn(bytes, p.state);
      (Ready(Some(result.MapErr(into))), p.(state := state'))
  }

  /** On any poll outcome other than a chunk the processor function is not
      consulted: replacing it by any other function changes neither the
      output nor the state. */
  lemma StepIgnoresFnUnlessChunk<S, St, E, IOE>(
    p: Processor<S, St, E>, upstream: StreamPoll<IOE>, into: E -> IOE, other: ProcessorFn<St, E>)
    requires !IsChunk(upstream)
    ensures Step(p.(processorFn := other), upstream, into).0 == Step(p, upstream, into).0
    ensures Step(p.(processorFn := other), upstream, into).1.state == p.state
    ensures Step(p, upstream, into).1.state == p.state
  {
  }

  /** A failing call to the processor function still leaves its state
      mutation in place: the adapter keeps the state the call returned. */
  lemma FailedCallKeepsState<S, St, E, IOE>(
    p: Processor<S, St, E>, upstream: StreamPoll<IOE>, into: E -> IOE)
    requires IsChunk(upstream)
    requires p.processorFn(ChunkOf(upstream), p.state).0.Err?
    ensures var e := p.processorFn(ChunkOf(upstream), p.state).0.error;
            Step(p, upstream, into).0 == Ready(Some(Err(into(e))))
    ensures Step(p, upstream, into).1.state == p.processorFn(ChunkOf(upstream), p.state).1
  {
  }

  /** One `poll_next` of the adapter: exactly one poll of the upstream
      (`pollUpstream` applied once to the current stream), followed by
      `Step` on its outcome. */
  function PollNext<S, St, E, IOE>(
    p: Processor<S, St, E>, pollUpstream: S -> (StreamPoll<IOE>, S), into: E -> IOE)
    : (r: (StreamPoll<IOE>, Processor<S, St, E>))
    ensures r.1.stream == pollUpstream(p.stream).1
    ensures KindOf(r.0) == KindOf(pollUpstream(p.stream).0)
    ensures r.0 == Step(p, pollUpstream(p.stream).0, into).0
    ensures r.1.state == Step(p, pollUpstream(p.stream).0, into).1.state
    ensures r.1.processorFn == p.processorFn
  {
    var (upstream, stream') := pollUpstream(p.stream);
    var (out, p') := Step(p, upstream, into);
    (out, p'.(stream := stream'))
  }
}
