/**
 * The in-process response stream of chan.go. One record is shared by the
 * emitter (write) half and the response (read) half; every call on either
 * half is one atomic transition. Blocking becomes an explicit outcome, and
 * cancellation of the request context is an input saying that the select
 * took its ctx.Done() branch.
 */
module ChanStream {
  import opened Wrappers
  import opened Errors
  import opened Values

  /**
   * The state of a chanStream. `closed` also records whether the channel ch
   * has been closed, since both change in the same step. `ready` records
   * whether the one-shot channel wait has been closed. `queue` holds the
   * values sent on ch that the reader has not received yet.
   */
  datatype Stream = Stream(
    closed: bool,
    ready: bool,
    err: Option<GoError>,
    length: uint64,
    queue: seq<Value>)

  /** A writer-side call either returns or makes the Go runtime panic. */
  datatype Step<+R> = Done(next: Stream, result: R) | Panic(reason: string)

  /** A reader-side call either returns or blocks until another call happens. */
  datatype Call<+R> = Returns(value: R) | Blocks

  /** What a writer call hands back: the state after the call and the error it returns. */
  datatype Outcome = Outcome(next: Stream, result: Option<GoError>)

  /** What Next hands back: the state after the call, the value and the error. */
  datatype Read = Read(next: Option<Stream>, value: Option<Value>, err: Option<GoError>)

  const CloseOfClosedEmitter: GoError := Plain("close of closed emitter")
  const CloseOfClosedChannel: string := "close of closed channel"

  /** What every reachable stream satisfies. */
  predicate Valid(s: Stream)
  {
    && (s.closed ==> s.ready)
    && (s.err.Some? <==> s.closed)
    && (s.err.Some? ==> !s.err.value.Cmdkit?)
  }

  /** NewChanResponsePair: an open stream on which nothing has happened. */
  function NewChanResponsePair(): (s: Stream)
    ensures Valid(s) && !s.closed && s.queue == []
    ensures Length(s) == Blocks && Error(s) == Blocks
    ensures Next(Some(s), false) == Blocks
  {
    Stream(false, false, None, 0, [])
  }

  /**
   * The error a stream closed with `e` records: nil becomes io.EOF, a
   * cmdkit.Error value is stored behind a pointer, anything else as it is.
   */
  function Normalize(e: Option<GoError>): (r: GoError)
    ensures !r.Cmdkit?
    ensures e.None? ==> r == EOF
    ensures e.Some? ==> Message(r) == Message(e.value)
    ensures e.Some? && e.value.Cmdkit? ==> r == CmdkitRef(e.value.e)
    ensures e.Some? && !e.value.Cmdkit? ==> r == e.value
  {
    match e
    case None => EOF
    case Some(Cmdkit(c)) => CmdkitRef(c)
    case Some(x) => x
  }

  /**
   * closeWithError: marks the stream closed, records the normalised error,
   * closes ch and fires the latch. It does not look at `closed` itself, so on
   * a stream whose channel is already closed it panics.
   */
  function CloseChannel(s: Stream, e: Option<GoError>): (st: Step<()>)
    ensures st.Panic? <==> s.closed
    ensures st.Done? ==> st.next.closed && st.next.ready && st.next.err == Some(Normalize(e))
    ensures st.Done? ==> st.next.queue == s.queue && st.next.length == s.length
  {
    if s.closed then Panic(CloseOfClosedChannel)
    else Done(s.(closed := true, ready := true, err := Some(Normalize(e))), ())
  }

  /**
   * CloseWithError: a second close fails and changes nothing; the first one
   * records the outcome, ends the stream and releases Error and Length.
   */
  function CloseWithError(s: Stream, e: Option<GoError>): (t: Outcome)
    ensures s.closed ==> t == Outcome(s, Some(CloseOfClosedEmitter))
    ensures !s.closed ==> t.result.None? && t.next.closed && t.next.ready && t.next.err == Some(Normalize(e))
    ensures !s.closed ==> t.next.queue == s.queue && t.next.length == s.length
    ensures Valid(s) ==> Valid(t.next)
  {
    if s.closed then Outcome(s, Some(CloseOfClosedEmitter))
    else Outcome(CloseChannel(s, e).next, None)
  }

  /** Close is CloseWithError(nil): success is recorded as io.EOF. */
  function Close(s: Stream): (t: Outcome)
    ensures s.closed ==> t.next == s && t.result.Some?
    ensures s.closed ==> t.result == Some(CloseOfClosedEmitter)
    ensures !s.closed ==> t.result.None? && t.next.closed && t.next.err == Some(EOF) && t.next.queue == s.queue
    ensures !s.closed ==> t.next.ready && t.next.length == s.length
    ensures !s.closed ==> Length(t.next) == Returns(s.length) && Error(t.next) == Returns(None)
    ensures Valid(s) ==> Valid(t.next)
  {
    CloseWithError(s, None)
  }

  /** SetLength: records the length until the latch fires, and is ignored after. */
  function SetLength(s: Stream, l: uint64): (s': Stream)
    ensures s.ready ==> s' == s
    ensures !s.ready ==> s'.length == l
    ensures s'.(length := s.length) == s
  {
    if s.ready then s else s.(length := l)
  }

  /** Sending v on ch: refused on a closed stream, abandoned on cancellation, else delivered. */
  function Send(s: Stream, v: Value, cancelled: bool): Outcome
  {
    if s.closed then Outcome(s, Some(ClosedEmitter))
    else if cancelled then Outcome(s, Some(ContextCanceled))
    else Outcome(s.(queue := s.queue + [v]), None)
  }

  /**
   * Emit exactly as chan.go writes it: the auto-close of a Single is deferred
   * before the closed check, so it also runs when Emit refuses the value, and
   * on a closed stream it closes ch a second time.
   */
  function EmitAsWritten(s: Stream, v: Value, cancelled: bool): (st: Step<Option<GoError>>)
    ensures st.Panic? <==> v.Single? && s.closed
  {
    var sent := Send(s.(ready := true), v, cancelled);
    if v.Single? then
      match CloseChannel(sent.next, None)
      case Done(closed, _) => Done(closed, sent.result)
      case Panic(why) => Panic(why)
    else Done(sent.next, sent.result)
  }

  /**
   * Emit with the auto-close of a Single taken only on a stream that was open
   * when Emit was called. On every other input it is EmitAsWritten.
   */
  function Emit(s: Stream, v: Value, cancelled: bool): (t: Outcome)
    ensures t.next.ready
    ensures t.next.length == s.length
    ensures s.closed ==> t == Outcome(s.(ready := true), Some(ClosedEmitter))
    ensures Valid(s) && s.closed ==> t == Outcome(s, Some(ClosedEmitter))
    ensures !s.closed && cancelled ==> t.result == Some(ContextCanceled) && t.next.queue == s.queue
    ensures !s.closed && !cancelled ==> t.result.None? && t.next.queue == s.queue + [v]
    ensures t.next.closed <==> s.closed || v.Single?
    ensures !s.closed ==> t.next.err == (if v.Single? then Some(EOF) else s.err)
    ensures Valid(s) ==> Valid(t.next)
  {
    if s.closed then Outcome(s.(ready := true), Some(ClosedEmitter))
    else
      var st := EmitAsWritten(s, v, cancelled);
      Outcome(st.next, st.result)
  }

  /** The two Emits differ only where the one as written panics. */
  lemma EmitAgreesUnlessPanic(s: Stream, v: Value, cancelled: bool)
    ensures EmitAsWritten(s, v, cancelled).Done? <==> !(v.Single? && s.closed)
    ensures EmitAsWritten(s, v, cancelled).Done? ==>
      EmitAsWritten(s, v, cancelled) == Done(Emit(s, v, cancelled).next, Emit(s, v, cancelled).result)
  {
  }

  /** Closing a stream and then emitting a Single on it panics in chan.go. */
  lemma EmitSingleAfterClosePanics(x: Value)
    ensures EmitAsWritten(Close(NewChanResponsePair()).next, Single(x), false) == Panic(CloseOfClosedChannel)
    ensures Emit(Close(NewChanResponsePair()).next, Single(x), false).result == Some(ClosedEmitter)
  {
  }

  /**
   * Next: on a nil response, EOF at once; otherwise cancellation, the oldest
   * queued value with its Single envelope removed, the recorded error once the
   * stream is closed and drained, or blocking.
   */
  function Next(r: Option<Stream>, cancelled: bool): (c: Call<Read>)
    ensures r.None? ==> c == Returns(Read(None, None, Some(EOF)))
    ensures c.Blocks? <==> r.Some? && !cancelled && r.value.queue == [] && !r.value.closed
    ensures c.Returns? && c.value.value.Some? ==>
      && r.Some? && r.value.queue != [] && !cancelled
      && c.value.value.value == Unwrap(r.value.queue[0])
      && c.value.err.None?
      && c.value.next == Some(r.value.(queue := r.value.queue[1..]))
    ensures c.Returns? && c.value.value.None? ==> c.value.next == r
    ensures r.Some? && Valid(r.value) && c.Returns? ==> (c.value.value.None? <==> c.value.err.Some?)
    ensures r.Some? && cancelled ==> c == Returns(Read(r, None, Some(ContextCanceled)))
    ensures r.Some? && !cancelled && r.value.queue != [] ==>
      c == Returns(Read(Some(r.value.(queue := r.value.queue[1..])), Some(Unwrap(r.value.queue[0])), None))
    ensures r.Some? && !cancelled && r.value.queue == [] && r.value.closed ==>
      c == Returns(Read(r, None, r.value.err))
  {
    match r
    case None => Returns(Read(None, None, Some(EOF)))
    case Some(s) =>
      if cancelled then Returns(Read(r, None, Some(ContextCanceled)))
      else if s.queue != [] then Returns(Read(Some(s.(queue := s.queue[1..])), Some(Unwrap(s.queue[0])), None))
      else if s.closed then Returns(Read(r, None, s.err))
      else Blocks
  }

  /**
   * Error: blocks until the latch fires, then reports nothing for nil and
   * io.EOF and the stored error as a *cmdkit.Error otherwise.
   */
  function Error(s: Stream): (c: Call<Option<CmdkitError>>)
    ensures c.Blocks? <==> !s.ready
    ensures c.Returns? ==> (c.value.None? <==> s.err.None? || s.err == Some(EOF))
    ensures c.Returns? && c.value.Some? ==> c.value.value == ToCmdkit(s.err.value)
  {
    if !s.ready then Blocks
    else match s.err
      case None => Returns(None)
      case Some(EOF) => Returns(None)
      case Some(e) => Returns(Some(ToCmdkit(e)))
  }

  /** Length: blocks until the latch fires, then reports the recorded length. */
  function Length(s: Stream): (c: Call<uint64>)
    ensures c.Blocks? <==> !s.ready
    ensures c.Returns? ==> c.value == s.length
  {
    if s.ready then Returns(s.length) else Blocks
  }

  /**
   * What Error reports after the first close with `e`: none for nil and
   * io.EOF; a cmdkit.Error, as a value or a pointer, comes back unchanged;
   * any other error comes back as a cmdkit.Error with its message.
   */
  lemma ErrorAfterClose(s: Stream, e: Option<GoError>)
    requires !s.closed
    ensures var c := Error(CloseWithError(s, e).next);
      && c.Returns?
      && (c.value.None? <==> e.None? || e == Some(EOF))
      && (c.value.Some? ==> c.value.value.message == Message(e.value))
      && (e.Some? && (e.value.Cmdkit? || e.value.CmdkitRef?) ==> c.value == Some(e.value.e))
      && (e.Some? && !e.value.Cmdkit? && !e.value.CmdkitRef? && e.value != EOF ==>
            c.value == Some(CmdkitError(Message(e.value), ErrNormal)))
  {
  }
}
