/**
 * The terminal emitter of cli/responseemitter.go: an open/closed emitter
 * writing to two output streams, holding an exit code that it reports once,
 * on close, over a channel the program's main function waits on. Writes and
 * syncs are I/O: their error results are inputs, and a write that fails is
 * taken to have written nothing.
 */
module CliEmitter {
  import opened Wrappers
  import opened Errors
  import opened Values

  /** An io.Writer held by the emitter; close syncs it when it is an *os.File. */
  datatype Writer = Writer(isFile: bool)

  /** One piece of output on stdout. */
  datatype Chunk =
    | Raw(bytes: seq<byte>)   // copied verbatim from an io.Reader
    | Encoded(v: Value)       // handed to the encoder
    | Line(v: Value)          // printed as one line by fmt.Fprintln

  /** What f.Sync() returns for stderr and for stdout, should close call it. */
  datatype SyncResults = SyncResults(stderr: Option<GoError>, stdout: Option<GoError>)

  /**
   * The responseEmitter fields, plus what the two output streams and the
   * exit-code channel have received: `out`, `errOut` (whole lines),
   * `reported` (the values sent on ch) and `reportClosed` (ch closed).
   */
  datatype Emitter = Emitter(
    stdout: Option<Writer>,
    stderr: Option<Writer>,
    hasEncoder: bool,
    length: uint64,
    exit: int,
    closed: bool,
    out: seq<Chunk>,
    errOut: seq<string>,
    reported: seq<int>,
    reportClosed: bool)

  /** What a call hands back: the emitter after the call and the error it returns. */
  datatype Outcome = Outcome(next: Emitter, result: Option<GoError>)

  const ClosingClosedEmitter: GoError := Plain("closing closed emitter")
  const ClosingClosedResponseEmitter: GoError := Plain("closing closed responseemitter")

  /**
   * What every reachable emitter satisfies: the exit code has been reported,
   * once, and the channel closed exactly when the emitter is closed, and a
   * closed emitter holds no writers.
   */
  predicate Valid(re: Emitter)
  {
    && (re.closed <==> re.reportClosed)
    && (re.closed ==> |re.reported| == 1 && re.stdout.None? && re.stderr.None?)
    && (!re.closed ==> re.reported == [])
  }

  /** NewResponseEmitter: an open emitter with exit code 0 and nothing written. */
  function NewResponseEmitter(stdout: Writer, stderr: Writer, hasEncoder: bool): (re: Emitter)
    ensures Valid(re) && !re.closed && re.exit == 0
    ensures re.stdout == Some(stdout) && re.stderr == Some(stderr)
    ensures re.out == [] && re.errOut == [] && re.reported == []
  {
    Emitter(Some(stdout), Some(stderr), hasEncoder, 0, 0, false, [], [], [], false)
  }

  /** SetLength: recorded whatever the state, nothing else changes. */
  function SetLength(re: Emitter, l: uint64): (re': Emitter)
    ensures re'.length == l
    ensures re'.(length := re.length) == re
  {
    re.(length := l)
  }

  /** A sync on writer `w` that returned `result` makes close fail. */
  predicate SyncFails(w: Option<Writer>, result: Option<GoError>)
  {
    w.Some? && w.value.isFile && result.Some? && !IgnoreError(result.value)
  }

  /**
   * close(): on a closed emitter, an error and nothing else. Otherwise the
   * exit code is sent and the channel closed, then stderr and stdout are
   * synced if they are files; the first sync error outside the tolerated
   * class is returned. Whatever the syncs do, the emitter ends closed with
   * both writers dropped.
   */
  function CloseInner(re: Emitter, syncs: SyncResults): (t: Outcome)
    ensures re.closed ==> t == Outcome(re, Some(ClosingClosedResponseEmitter))
    ensures !re.closed ==>
      && t.next.closed && t.next.reportClosed && t.next.reported == re.reported + [re.exit]
      && t.next.stdout.None? && t.next.stderr.None?
      && t.next.out == re.out && t.next.errOut == re.errOut
      && t.next.exit == re.exit && t.next.length == re.length && t.next.hasEncoder == re.hasEncoder
    ensures !re.closed ==>
      && (t.result.None? <==> !SyncFails(re.stderr, syncs.stderr) && !SyncFails(re.stdout, syncs.stdout))
      && (SyncFails(re.stderr, syncs.stderr) ==> t.result == syncs.stderr)
      && (!SyncFails(re.stderr, syncs.stderr) && SyncFails(re.stdout, syncs.stdout) ==> t.result == syncs.stdout)
    ensures Valid(re) ==> Valid(t.next)
  {
    if re.closed then Outcome(re, Some(ClosingClosedResponseEmitter))
    else
      var sent := re.(reported := re.reported + [re.exit], reportClosed := true);
      var done := sent.(stdout := None, stderr := None, closed := true);
      var r :=
        if re.stderr.Some? && re.stderr.value.isFile && syncs.stderr.Some? && !IgnoreError(syncs.stderr.value)
        then syncs.stderr
        else if re.stdout.Some? && re.stdout.value.isFile && syncs.stdout.Some? && !IgnoreError(syncs.stdout.value)
        then syncs.stdout
        else None;
      Outcome(done, r)
  }

  /** Close: close() under the emitter's lock. */
  function Close(re: Emitter, syncs: SyncResults): (t: Outcome)
    ensures re.closed ==> t.next == re && t.result.Some?
    ensures re.closed ==> t.result == Some(ClosingClosedResponseEmitter)
    ensures !re.closed ==> t.next.closed && t.next.reported == re.reported + [re.exit]
    ensures !re.closed ==> t.next.stdout.None? && t.next.stderr.None? && t.next.out == re.out && t.next.errOut == re.errOut
    ensures !re.closed ==> (t.result.None? <==> !SyncFails(re.stderr, syncs.stderr) && !SyncFails(re.stdout, syncs.stdout))
    ensures !re.closed && SyncFails(re.stderr, syncs.stderr) ==> t.result == syncs.stderr
    ensures !re.closed && !SyncFails(re.stderr, syncs.stderr) && SyncFails(re.stdout, syncs.stdout) ==> t.result == syncs.stdout
    ensures Valid(re) ==> Valid(t.next)
  {
    CloseInner(re, syncs)
  }

  /** The line CloseWithError prints on stderr for `e`. */
  function ErrorLine(e: GoError): string
  {
    "Error: " + ToCmdkit(e).message + "\n"
  }

  /**
   * CloseWithError: nil means Close. Otherwise, on an open emitter, the exit
   * code becomes 1, the error's message is printed on stderr and the emitter
   * is closed; if printing fails, that error is returned and the emitter
   * stays open with exit code 1.
   */
  function CloseWithError(re: Emitter, e: Option<GoError>, writeErr: Option<GoError>, syncs: SyncResults): (t: Outcome)
    ensures e.None? ==> t == Close(re, syncs)
    ensures e.Some? && re.closed ==> t == Outcome(re, Some(ClosingClosedEmitter))
    ensures e.Some? && !re.closed && writeErr.Some? ==> t == Outcome(re.(exit := 1), writeErr)
    ensures e.Some? && !re.closed && writeErr.None? ==>
      && t.next.errOut == re.errOut + ["Error: " + Message(e.value) + "\n"]
      && t.next.out == re.out
      && t.next.closed && t.next.exit == 1 && t.next.reported == re.reported + [1]
      && (t.result.None? <==> !SyncFails(re.stderr, syncs.stderr) && !SyncFails(re.stdout, syncs.stdout))
      && (SyncFails(re.stderr, syncs.stderr) ==> t.result == syncs.stderr)
      && (!SyncFails(re.stderr, syncs.stderr) && SyncFails(re.stdout, syncs.stdout) ==> t.result == syncs.stdout)
    ensures Valid(re) ==> Valid(t.next)
  {
    if e.None? then Close(re, syncs)
    else if re.closed then Outcome(re, Some(ClosingClosedEmitter))
    else
      var failing := re.(exit := 1);
      if writeErr.Some? then Outcome(failing, writeErr)
      else CloseInner(failing.(errOut := failing.errOut + [ErrorLine(e.value)]), syncs)
  }

  /**
   * Exit: sets the exit code, then closes and discards Close's error. On an
   * open emitter the reported code is `code`; on a closed one nothing is
   * sent again.
   */
  function Exit(re: Emitter, code: int, syncs: SyncResults): (re': Emitter)
    ensures re'.exit == code
    ensures !re.closed ==> re'.closed && re'.reported == re.reported + [code]
    ensures re.closed ==> re' == re.(exit := code)
    ensures re'.out == re.out && re'.errOut == re.errOut
    ensures Valid(re) ==> Valid(re')
  {
    Close(re.(exit := code), syncs).next
  }

  /**
   * The first two dispatch steps of Emit: one Single envelope is removed
   * (without closing anything), then a *string or *int is dereferenced.
   */
  function Prepare(v: Value): (u: Value)
    ensures !u.StrRef? && !u.IntRef?
    ensures u.Single? ==> v.Single? && v.inner.Single?
    ensures Unwrap(v).StrRef? ==> u == Str(Unwrap(v).text)
    ensures Unwrap(v).IntRef? ==> u == Int(Unwrap(v).num)
    ensures !Unwrap(v).StrRef? && !Unwrap(v).IntRef? ==> u == Unwrap(v)
  {
    match Unwrap(v)
    case StrRef(s) => Str(s)
    case IntRef(n) => Int(n)
    case u => u
  }

  /**
   * The last dispatch steps: a reader is copied verbatim, anything else goes
   * to the encoder if there is one, or is printed as one line.
   */
  function Render(u: Value, hasEncoder: bool): Chunk
  {
    if u.Reader? then Raw(u.data)
    else if hasEncoder then Encoded(u)
    else Line(u)
  }

  /**
   * Emit: refused on a closed emitter without writing. Otherwise one chunk is
   * written to stdout, or nothing when the write fails with `ioErr`, which is
   * then returned. Emit never closes the emitter, not even for a Single.
   */
  function Emit(re: Emitter, v: Value, ioErr: Option<GoError>): (t: Outcome)
    ensures re.closed ==> t == Outcome(re, Some(ClosedEmitter))
    ensures !re.closed ==> t.result == ioErr
    ensures t.next.(out := re.out) == re
    ensures !re.closed && ioErr.Some? ==> t.next == re
    ensures !re.closed && ioErr.None? ==> |t.next.out| == |re.out| + 1 && t.next.out[..|re.out|] == re.out
    ensures !re.closed && ioErr.None? && Prepare(v).Reader? ==> t.next.out[|re.out|] == Raw(Prepare(v).data)
    ensures !re.closed && ioErr.None? && !Prepare(v).Reader? ==>
      t.next.out[|re.out|] == (if re.hasEncoder then Encoded(Prepare(v)) else Line(Prepare(v)))
  {
    var u := Prepare(v);
    if re.closed then Outcome(re, Some(ClosedEmitter))
    else if ioErr.Some? then Outcome(re, ioErr)
    else Outcome(re.(out := re.out + [Render(u, re.hasEncoder)]), None)
  }

  /** A Single is emitted as its inner value, and the emitter stays as open as it was. */
  lemma EmitSingleIsInner(re: Emitter, x: Value, ioErr: Option<GoError>)
    requires !x.Single?
    ensures Emit(re, Single(x), ioErr) == Emit(re, x, ioErr)
    ensures Emit(re, Single(x), ioErr).next.closed == re.closed
  {
  }

  /** A pointer to a string or an int is emitted as the string or int itself. */
  lemma EmitDereferences(re: Emitter, s: string, n: int, ioErr: Option<GoError>)
    ensures Emit(re, StrRef(s), ioErr) == Emit(re, Str(s), ioErr)
    ensures Emit(re, IntRef(n), ioErr) == Emit(re, Int(n), ioErr)
    ensures Emit(re, Single(StrRef(s)), ioErr) == Emit(re, Str(s), ioErr)
    ensures Emit(re, Single(IntRef(n)), ioErr) == Emit(re, Int(n), ioErr)
  {
  }

  /**
   * A value that needs no unwrapping or dereferencing, and is not a reader,
   * reaches the encoder, or the line printer, as it is.
   */
  lemma EmitPlainValue(re: Emitter, x: Value)
    requires !re.closed && !x.Single? && !x.StrRef? && !x.IntRef? && !x.Reader?
    ensures Emit(re, x, None).next.out == re.out + [if re.hasEncoder then Encoded(x) else Line(x)]
    ensures Emit(re, Single(x), None).next.out == re.out + [if re.hasEncoder then Encoded(x) else Line(x)]
  {
  }

  /** A reader's bytes reach stdout unchanged whether or not an encoder is set. */
  lemma EmitReaderBypassesEncoder(re: Emitter, data: seq<byte>)
    requires !re.closed
    ensures Emit(re, Reader(data), None).next.out == re.out + [Raw(data)]
    ensures Emit(re.(hasEncoder := !re.hasEncoder), Reader(data), None).next.out == re.out + [Raw(data)]
  {
  }

  /** CloseWithError(nil) is Close, and a second close of either kind sends nothing. */
  lemma CloseTwiceReportsOnce(re: Emitter, e: Option<GoError>, writeErr: Option<GoError>, s1: SyncResults, s2: SyncResults)
    requires !re.closed
    ensures var first := Close(re, s1).next;
      && CloseWithError(first, e, writeErr, s2).next == first
      && CloseWithError(first, e, writeErr, s2).result.Some?
      && first.reported == re.reported + [re.exit]
  {
  }

  /** A sync error closes the emitter all the same. */
  lemma SyncFailureStillCloses(re: Emitter, syncs: SyncResults)
    requires !re.closed && SyncFails(re.stderr, syncs.stderr)
    ensures Close(re, syncs).result == syncs.stderr
    ensures Close(re, syncs).next.closed && Close(re, syncs).next.stdout.None? && Close(re, syncs).next.stderr.None?
  {
  }

  /** A sync of a file failing with EINVAL or ENOTSUP does not make close fail. */
  lemma UnsupportedSyncTolerated(re: Emitter, path: string, code: nat)
    requires !re.closed && (code == EINVAL || code == ENOTSUP)
    ensures var err := Some(PathError("sync", path, Errno(code)));
      Close(re, SyncResults(err, err)).result.None?
  {
  }
}
