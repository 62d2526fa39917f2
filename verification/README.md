# stream-processor: the chunked transform stage, in Dafny

This project models the chunked transform stage of the `stream-processor`
Rust library. The stage is the `Processor` stream adapter, its `poll_next`,
its constructor `Processor::new`, and the `Process::process` extension that
attaches it to any stream.

A `Processor` wraps an upstream stream of `Result<Bytes, IOError>` items. It
owns one value of a caller-chosen `State` type, which starts as
`State::default()`. Each poll of the adapter polls the upstream once:

- a pending upstream gives a pending output;
- the end of the upstream gives the end of the output;
- an upstream error is forwarded unchanged;
- an upstream chunk goes to the caller's function
  `Fn(Bytes, &mut State) -> Result<Bytes, Error>`, and that call's result is
  yielded with its error converted through `Into<IOError>`.

With pinning and the task context stripped away, one poll is a pure function
from the upstream's outcome and the adapter to the output and the next
adapter. Polling repeatedly is a fold of that function over the upstream's
outcomes.

Modules and files:

- `wrappers.dfy`, module `Wrappers`: `Option`, `Result` (with `MapErr`, Rust's
  `map_err`) and `Poll`.
- `processor.dfy`, module `StreamProcessor`: chunks, the `Processor` record,
  `New`, `Process`, `Step` and `PollNext`. `Step` is `poll_next` once the
  upstream poll has returned. `PollNext` is the whole of `poll_next`: one
  application of an abstract upstream poll function, then `Step`.
- `run.dfy`, module `ProcessorRun`: `Run` folds `Step` over a sequence of
  upstream outcomes, and `Drive` calls `PollNext` `n` times. The lemmas cover
  the one-to-one correspondence of inputs and outputs, and how the state is
  threaded through the chunks. `Scan` is the reference definition of a
  chunk-only run.
- `counter.dfy`, module `RunningCount`: a processor function that counts its
  calls and emits the running count as one byte. Fed N chunks, it yields
  1, 2, …, N, each modulo 256.

Representation choices:

- A chunk is `seq<bv8>`.
- The processor function is a total Dafny function
  `(Chunk, St) -> (Result<Chunk, E>, St)`. The `&mut State` argument becomes
  an explicit returned state, and the function returns it whether the call
  succeeded or failed. That is how a failing call's mutation survives in the
  source.
- `State::default()` and the `Into<IOError>` conversion are type-level in
  Rust. Here they are value parameters: `default: St` and `into: E -> IOE`.
- The upstream stream is an opaque value of type `S`. `PollNext` polls it
  through a parameter `pollUpstream: S -> (StreamPoll<IOE>, S)`.
- A pure function cannot record whether it "called" the processor function.
  So "not called" is stated as: the output and the state do not depend on
  the processor function (`StepIgnoresFnUnlessChunk`). "Called once with
  chunk c and state s" is stated as: the output and the next state are the
  two halves of the single value `processorFn(c, s)` (`Step`,
  `ChunkProcessedWithPriorState`).

The stage does not become terminal once the upstream is exhausted:
`poll_next` keeps no such flag and forwards whatever the upstream returns on
the next poll. `ProcessorRun.ResumesAfterEnd` states what the code does.

## Model

| member | source | states |
|---|---|---|
| `StreamProcessor.New` | src/lib.rs:42-49 | a new adapter holds the given stream and function, and its state is the state type's default |
| `StreamProcessor.Process` | src/lib.rs:85-91 | `process` delegates to `new` with the same stream and function, so the adapter it returns starts from the default state |
| `StreamProcessor.Step` | src/lib.rs:62-73 | the output is the same kind as the upstream outcome; Pending, end of stream and an upstream error pass through with the adapter unchanged; a chunk yields the function's result on (chunk, current state), error converted by `into`, and the adapter keeps the state that call returned; stream and function never change |
| `StreamProcessor.StepIgnoresFnUnlessChunk` | src/lib.rs:62-70 | on a pending poll, the end of the stream or an upstream error, the processor function is not consulted: swapping it for any other function changes neither the output nor the state, and the state stays as it was |
| `StreamProcessor.FailedCallKeepsState` | src/lib.rs:67-69 | when the function fails on a chunk, the output is `Ready(Some(Err(into(e))))` and the adapter still keeps the state the failing call left |
| `StreamProcessor.PollNext` | src/lib.rs:60-74 | one `poll_next` polls the upstream exactly once, so the stream becomes what that one poll leaves; it yields an output of the same kind, equal to `Step` on that poll's outcome |
| `ProcessorRun.Run` | src/lib.rs:60-74 | polling over a sequence of upstream outcomes gives exactly one output per outcome and keeps the function; the outcomes are given as values, so the stream field is carried unchanged here and only `Drive` advances it |
| `ProcessorRun.RunAppend` | src/lib.rs:60-74 | polling over `a + b` is polling over `a` and then over `b` from the adapter `a` left: outputs concatenate and the final adapters agree |
| `ProcessorRun.RunOutputAt` | src/lib.rs:60-74 | the i-th output is one `Step` on the i-th upstream outcome, taken from the adapter left by the first i polls |
| `ProcessorRun.RunCorrespondsOneToOne` | src/lib.rs:60-74 | outputs and upstream outcomes correspond one to one and in order: same count, same kind at every position, Pending to Pending, end to end, and each upstream error forwarded unchanged at its position |
| `ProcessorRun.RunState` | src/lib.rs:68 | after any sequence of polls the state is the left fold of the function's state component over the chunks delivered, in order, from the starting state; Pending, end and upstream errors do not touch it |
| `ProcessorRun.ChunkProcessedWithPriorState` | src/lib.rs:67-69 | the i-th chunk is handed to the function with the state left by the chunks before it, and the i-th output is that call's result with its error converted |
| `ProcessorRun.RunOverChunksIsScan` | src/lib.rs:67-69 | on an upstream of chunks only, the outputs are the reference scan of the function over those chunks, each call seeing the previous call's state, errors converted |
| `ProcessorRun.FreshRunState` | src/lib.rs:42-49 | from an adapter built by `process`, the state after any polls is the fold over the delivered chunks starting from the default state |
| `ProcessorRun.ResumesAfterEnd` | src/lib.rs:64-65 | the end of the stream leaves the adapter untouched: the poll after it yields, and leaves behind, exactly what a poll of the adapter as it was before the end would |
| `ProcessorRun.DriveIsRunOverUpstreamPolls` | src/lib.rs:60-74 | n calls to `poll_next` make n upstream polls: they yield exactly what `Run` yields over those n outcomes, and leave the upstream where those polls left it |
| `RunningCount.CountsChunks` | src/lib.rs:67-69 | a function that counts its calls and emits the count, fed N chunks from a fresh adapter, yields the counts 1..N (each modulo 256) in order and ends holding N |

## Left out

- `process_stream` (src/lib.rs:11-26) is not modelled. It composes `tokio_util`'s `ReaderStream` and `StreamReader` with `tokio::io::copy`, and that code is not part of this model. Chunk boundaries, copying into the sink, flushing and sink errors all live there. The pipeline-level properties go with it: fail-fast on the first error, concatenated sink output, and chunk-size independence.
- Pinning, `Context`, wakers and `pin_project!` are async plumbing. A poll of the upstream is modelled as a value (`Step`) or as one application of an abstract poll function (`PollNext`).
- `Bytes` reference counting and zero-copy sharing are not modelled: a chunk is a plain byte sequence.
- `PhantomData` and the trait-bound machinery of `Process` are not modelled. `State::default()` and `Into<IOError>` are passed in as values.
- No claim is made that the stage stops for good after the end of the stream or after an error. The code makes no such promise (see `ProcessorRun.ResumesAfterEnd`).
- RunningCount.CountsChunks: the count is emitted as one byte, so counts wrap modulo 256. The byte encoding of the count is this model's choice.
- The processor function is modelled as a deterministic, total function of (chunk, state). A Rust `Fn` may panic, or use interior mutability (`Cell`, `RefCell`) so that two calls with the same chunk and state differ; neither is modelled, and `RunState` and `RunOverChunksIsScan` rely on that determinism.
