# Response streams of go-ipfs-cmds, modelled in Dafny

go-ipfs-cmds runs a command and hands its output to a transport through a
response emitter. This project models two emitters as pure state machines.
Each call becomes a function from a state to a pair of the next state and
the call's result.

- **The in-process stream of `chan.go`** (modules `ChanStream`, `ChanTraces`).
  One `chanStream` record is shared by the emitter half (`Emit`,
  `SetLength`, `Close`, `CloseWithError`) and the response half (`Next`,
  `Error`, `Length`). The record holds:
  - the `closed` flag;
  - the one-shot `wait` latch (`ready`);
  - the terminal error;
  - the declared length;
  - the values sent on the channel and not yet read (`queue`).

  Calls that block in Go return `Blocks`. Cancellation of the request
  context is a boolean input: it means the `select` took its `ctx.Done()`
  branch.
- **The terminal emitter of `cli/responseemitter.go`** (modules
  `CliEmitter`, `CliTraces`). It holds:
  - the open/closed state;
  - the exit code and the channel that reports it once to the program's main
    function;
  - the two writers.

  What stdout and stderr receive is recorded as sequences. The errors
  returned by writes and by `Sync` are inputs.

Shared definitions:
- `Errors`: the Go error values and the `cmdkit.Error` record, with
  `Message` (the text of `err.Error()`), the conversion `ToCmdkit`, and the
  sync-failure filter `IgnoreError`.
- `Values`: the emitted values, including the `Single` envelope.
- `Wrappers`: `Option`, used for Go's nil.

Where the two emitters differ, the model follows the code:
- In `chan.go`, a `Single` closes the stream after `Emit`. This also happens
  when the send was abandoned on cancellation, because the close is deferred.
- In the CLI emitter, a `Single` is only unwrapped. It never closes the
  emitter.
- `SetLength` on the CLI emitter is always recorded. On the stream, it is
  ignored once the latch has fired.
- The stream's `Emit` fires the latch before it checks `closed`. On a valid
  stream this changes nothing, because a closed stream's latch has already
  fired.

## Model

| member | source | states |
|---|---|---|
| `Errors.ToCmdkit` | chan.go:76-80 | a `*cmdkit.Error` comes back unchanged; any other error becomes a cmdkit error with the same message and the normal code |
| `Errors.IgnoreErrorExactly` | cli/responseemitter.go:132-140 | the tolerated sync failures are exactly the `*os.PathError`s of op `"sync"` caused by EINVAL or ENOTSUP, on any path |
| `Values.Unwrap` | chan.go:111-116 | a `Single` yields its inner value; every other value is returned as it is |
| `ChanStream.NewChanResponsePair` | chan.go:13-26 | a new stream is open and empty; `Length`, `Error` and `Next` all block on it |
| `ChanStream.Normalize` | chan.go:203-209 | nil is recorded as io.EOF; a cmdkit.Error value is recorded as a pointer to the same record, code included; any other error is recorded unchanged |
| `ChanStream.CloseChannel` | chan.go:200-220 | closeWithError panics exactly when the channel is already closed; otherwise it closes, records the normalised error and fires the latch, keeping queue and length |
| `ChanStream.CloseWithError` | chan.go:188-198 | a second close fails with "close of closed emitter" and leaves the whole state unchanged; a first close succeeds, records the normalised error, fires the latch and keeps the queue; the stream invariant is preserved |
| `ChanStream.Close` | chan.go:172-174 | on an open stream, close succeeds, records io.EOF, keeps queue and length and fires the latch, so Length reports the length and Error reports none; on a closed one it fails with "close of closed emitter" and changes nothing; the invariant is preserved |
| `ChanStream.SetLength` | chan.go:176-186 | the length is recorded only while the latch has not fired; nothing but the length ever changes |
| `ChanStream.EmitAsWritten` | chan.go:124-170 | Emit as written panics exactly when a Single is emitted on a closed stream |
| `ChanStream.Emit` | chan.go:124-170 | the latch fires; on a closed stream the result is ErrClosedEmitter with nothing queued; on cancellation the result is the context error with nothing queued; otherwise the value is queued last; the stream ends up closed iff it was closed or the value is a Single, and then with io.EOF |
| `ChanStream.EmitAgreesUnlessPanic` | chan.go:136-160 | the Emit used by the model and Emit as written agree on every input except a Single on a closed stream |
| `ChanStream.EmitSingleAfterClosePanics` | chan.go:200-212 | Close followed by Emit of a Single panics with "close of closed channel" as written; the corrected Emit returns ErrClosedEmitter |
| `ChanStream.Next` | chan.go:89-120 | a nil response yields io.EOF at once; on cancellation the result is the context error and nothing changes; otherwise Next takes the oldest queued value with its Single unwrapped; once the stream is closed and drained it yields the recorded error; an open, empty stream blocks |
| `ChanStream.Error` | chan.go:69-81 | blocks exactly until the latch fires; then reports none iff the stored error is nil or io.EOF, and otherwise the stored error converted to a cmdkit error |
| `ChanStream.Length` | chan.go:83-87 | blocks exactly until the latch fires, then reports the recorded length |
| `ChanStream.ErrorAfterClose` | chan.go:203-211 | after a first close with e, Error reports none iff e is nil or io.EOF; a cmdkit error (value or pointer) comes back unchanged, code included; any other error comes back with its message and the normal code |
| `ChanTraces.RunKeepsValid` | chan.go:188-212 | every sequence of writer calls keeps the invariant: closed implies latch fired; an error is recorded iff the stream is closed; it is never a cmdkit.Error value |
| `ChanTraces.ClosedIsFinal` | chan.go:188-198 | once closed, any later writer calls leave `closed`, the error and the queue unchanged, and none of their closes succeeds |
| `ChanTraces.AtMostOneClose` | chan.go:188-198 | in any sequence of writer calls at most one Close/CloseWithError succeeds, and none does on an already-closed stream |
| `ChanTraces.ReadyIsFinal` | chan.go:180-185 | once the latch has fired it stays fired, and no later call changes the length |
| `ChanTraces.LatchAndLength` | chan.go:146-151 | from an unfired latch, the latch fires iff some call is an Emit or a Close; the length is the last one set before the first such call |
| `ChanTraces.LengthOfFreshStream` | chan.go:83-87 | on a new stream, Length blocks until an Emit or Close has happened; after that it reports the last length set before it, or 0 |
| `ChanTraces.EmitsQueueInOrder` | chan.go:162-169 | emitting non-Single values on an open stream, without cancellation, appends them to the queue in emission order; the stream stays open |
| `ChanTraces.DrainClosed` | chan.go:105-116 | reading a closed stream yields each queued value unwrapped, in order, and then the recorded error |
| `ChanTraces.DrainOpenBlocks` | chan.go:105-119 | reading an open stream without cancellation ends up blocking |
| `ChanTraces.EmitsThenCloseDrainInOrder` | chan.go:164-166 | values emitted and then a close with e: the reader gets exactly those values in order, then io.EOF for success or the normalised error |
| `ChanTraces.SingleEndsStream` | chan.go:136-138 | a Single emitted on an open stream is read as its inner value after the values already queued; then the stream ends with io.EOF without any Close, and a later Close fails |
| `CliEmitter.NewResponseEmitter` | cli/responseemitter.go:18-37 | a new emitter is open, holds both writers and exit code 0, has written nothing, and keeps the invariant |
| `CliEmitter.SetLength` | cli/responseemitter.go:66-68 | the length is recorded in every state, and nothing else changes |
| `CliEmitter.CloseInner` | cli/responseemitter.go:117-160 | on a closed emitter, an error and no change; otherwise the exit code is sent once and the channel closed; the emitter ends closed with both writers dropped, even when a sync fails; the result is the first sync error of a file outside the tolerated class, stderr before stdout, or nil when there is none |
| `CliEmitter.Close` | cli/responseemitter.go:110-115 | a closed emitter is left as it is and Close fails with "closing closed responseemitter"; an open one ends closed with its exit code reported, both writers dropped and nothing more written; it returns the first sync error of a file outside the tolerated class, stderr before stdout, or nil when there is none; the invariant is preserved |
| `CliEmitter.CloseWithError` | cli/responseemitter.go:74-101 | nil behaves as Close; on a closed emitter the result is an error and no change; if the stderr write fails, that error comes back and the emitter stays open with exit code 1; otherwise `Error: <message>` is appended to stderr, stdout is unchanged, and the emitter closes having reported 1, returning the first non-tolerated sync error, stderr before stdout, or nil |
| `CliEmitter.Exit` | cli/responseemitter.go:226-232 | the exit code becomes `code`; an open emitter closes and reports `code`; a closed one reports nothing more and writes nothing |
| `CliEmitter.Prepare` | cli/responseemitter.go:163-190 | after one Single is removed, a `*string` or `*int` becomes the string or int it points to and any other value passes unchanged; no pointer survives, and a Single survives only when it was wrapped in another Single |
| `CliEmitter.Emit` | cli/responseemitter.go:162-213 | on a closed emitter: ErrClosedEmitter and nothing written; otherwise the write's error is returned and only stdout changes; a failed write adds nothing; a successful one adds exactly one chunk: the reader's bytes, else the encoded value, else a text line |
| `CliEmitter.EmitSingleIsInner` | cli/responseemitter.go:163-166 | emitting Single(x) is emitting x; it does not close the emitter |
| `CliEmitter.EmitDereferences` | cli/responseemitter.go:185-190 | emitting a `*string` or `*int`, bare or inside a Single, is emitting the string or int it points to |
| `CliEmitter.EmitPlainValue` | cli/responseemitter.go:204-209 | a value that is not a Single, pointer or reader, bare or inside a Single, reaches the encoder, or the line printer, unchanged |
| `CliEmitter.EmitReaderBypassesEncoder` | cli/responseemitter.go:198-203 | a reader's bytes go to stdout verbatim, with or without an encoder |
| `CliEmitter.CloseTwiceReportsOnce` | cli/responseemitter.go:117-123 | after a first Close, any further Close or CloseWithError fails and sends nothing; the first Close sent the exit code once |
| `CliEmitter.SyncFailureStillCloses` | cli/responseemitter.go:125-148 | a non-tolerated stderr sync failure is returned; the emitter is still closed with both writers dropped |
| `CliEmitter.UnsupportedSyncTolerated` | cli/responseemitter.go:131-157 | sync failures of op "sync" caused by EINVAL or ENOTSUP on both writers do not make close fail |
| `CliTraces.ExitCodeReportedAtMostOnce` | cli/responseemitter.go:117-129 | over any sequence of calls and I/O results, the exit code is reported at most once; it has been reported, and the channel closed, exactly when the emitter is closed |
| `CliTraces.ClosedIsFinal` | cli/responseemitter.go:192-194 | once closed, no sequence of calls writes to stdout or stderr, reports again or brings the writers back |
| `CliTraces.EmitsWriteInOrder` | cli/responseemitter.go:196-212 | successful emits on an open emitter write one chunk per value, in order; nothing else changes, so the emitter stays open even after a Single |
| `CliTraces.EmitsThenExit` | cli/responseemitter.go:226-232 | a new emitter that emits values and then exits with `code` has written one chunk per value and reported exactly `[code]`; a later Exit reports nothing more |

## Findings

| source | as written | input that shows it | evidently intended | confidence | as-written member | corrected member |
|---|---|---|---|---|---|---|
| chan.go:136-138 | `Emit` defers the auto-close of a `Single` before checking `closed`. `closeWithError` closes the channel without checking `closed` (chan.go:200-212). On a closed stream the deferred close therefore closes a closed channel. | `Close()`, then `Emit(Single{x})` | `Emit` returns ErrClosedEmitter and leaves the stream as it is, like any other value on a closed stream | high; not executed | `ChanStream.EmitAsWritten` | `ChanStream.Emit` |

`ChanStream.EmitSingleAfterClosePanics` exhibits the panic on that input.
`ChanStream.Emit` returns ErrClosedEmitter and leaves a valid closed stream
unchanged (its contract). `ChanStream.EmitAgreesUnlessPanic` proves it equals
the code as written on every other input. The trace lemmas use `ChanStream.Emit`.

## Left out

- Goroutines, the `rl`/`wl`/`l` mutexes and channel rendezvous: every call is one atomic transition. The unbuffered channel `ch` becomes a queue of values sent and not yet read. Blocking is the `Blocks` outcome.
- Contexts: cancellation is an input. The error it yields is always `context canceled`; a deadline's error is not told apart. A request with a nil context is not modelled.
- `EmitChan` and channel values are not part of this model: no `Value` is a channel, so nested-stream flattening is absent from both emitters.
- `debug.AssertNotError` is not part of this model: no `Value` is an error, which stands in for its precondition.
- The encoder, `io.Copy`, `fmt.Fprintln` and `os.File.Sync` are I/O. Their error results are inputs. A failed write is taken to have written nothing; partial writes are not modelled.
- A stdout line is recorded as the value printed (`Line(v)`), not as Go's `%v` text of it.
- Go's panic ends the call: the fields `closeWithError` writes before its panic are not kept.
- `ErrClosedEmitter` is defined outside `chan.go` and the CLI emitter. The model tells it apart by its own constructor. Its message text in `Errors.Message` is assumed.
- Errno messages other than those of EINVAL and ENOTSUP are placeholders. EINVAL and ENOTSUP take their Linux values.
- A nil emitted value is not modelled: `Value` has no nil. In Go, `Next` returns nil with a nil error for it, which would break the rule that Next returns a value exactly when it returns no error.
- Nil `*string` and `*int` values: the model's pointers always point to a value. Emitting a nil one makes the CLI emitter panic when it dereferences it.
- `Request()`, `Type()`, `SetEncoder`, `Stdout()`, `Stderr()` and `isClosed`: trivial accessors or plumbing. `isClosed` is folded into `CliEmitter.Emit`.
- The encoding type from `GetEncoding`: plumbing. Only whether an encoder is set is kept.
- `http/http_test.go`: an end-to-end test over an HTTP client and server that is not part of this model.
- `ChanStream.Emit`: differs from the code as written on a Single emitted on a closed stream; see Findings.
