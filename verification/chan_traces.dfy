/**
 * Sequences of writer-side calls on a chan.go stream, and what the reader
 * observes after them.
 */
module ChanTraces {
  import opened Wrappers
  import opened Errors
  import opened Values
  import opened ChanStream

  /** One call on the emitter half. */
  datatype WriterOp =
    | EmitOp(v: Value, cancelled: bool)
    | SetLengthOp(l: uint64)
    | CloseOp(e: Option<GoError>)

  /** One writer call and what it returns (SetLength returns nothing, shown as nil). */
  function Apply(s: Stream, op: WriterOp): Outcome
  {
    match op
    case EmitOp(v, c) => Emit(s, v, c)
    case SetLengthOp(l) => Outcome(SetLength(s, l), None)
    case CloseOp(e) => CloseWithError(s, e)
  }

  /** The stream after the writer calls `ops`, in order. */
  function Run(s: Stream, ops: seq<WriterOp>): Stream
    decreases |ops|
  {
    if ops == [] then s else Run(Apply(s, ops[0]).next, ops[1..])
  }

  /** How many of the Close/CloseWithError calls in `ops` succeed. */
  function SuccessfulCloses(s: Stream, ops: seq<WriterOp>): nat
    decreases |ops|
  {
    if ops == [] then 0
    else
      var t := Apply(s, ops[0]);
      (if ops[0].CloseOp? && t.result.None? then 1 else 0) + SuccessfulCloses(t.next, ops[1..])
  }

  /** One non-cancelled Emit call per value. */
  function Emits(vs: seq<Value>): (ops: seq<WriterOp>)
    ensures |ops| == |vs|
    ensures forall i :: 0 <= i < |vs| ==> ops[i] == EmitOp(vs[i], false)
  {
    if vs == [] then [] else [EmitOp(vs[0], false)] + Emits(vs[1..])
  }

  /**
   * The length Length() reports: the argument of the last SetLength that comes
   * before the first Emit or Close, or `current` when there is none.
   */
  function DeclaredLength(ops: seq<WriterOp>, current: uint64): uint64
    decreases |ops|
  {
    if ops == [] || !ops[0].SetLengthOp? then current
    else DeclaredLength(ops[1..], ops[0].l)
  }

  /** Some call of `ops` is an Emit or a Close. */
  predicate FiresLatch(ops: seq<WriterOp>)
  {
    exists i :: 0 <= i < |ops| && !ops[i].SetLengthOp?
  }

  /**
   * Calls Next without cancellation until it hands back no value: the values
   * received, in order, and the error that ended the stream.
   */
  function Drain(s: Stream): Call<(seq<Value>, Option<GoError>)>
    decreases |s.queue|
  {
    var c := Next(Some(s), false);
    if c.Blocks? then Blocks
    else if c.value.value.None? || c.value.next.None? then Returns(([], c.value.err))
    else
      match Drain(c.value.next.value)
      case Blocks => Blocks
      case Returns(rest) => Returns(([c.value.value.value] + rest.0, rest.1))
  }

  lemma {:induction false} RunAppend(s: Stream, a: seq<WriterOp>, b: seq<WriterOp>)
    ensures Run(s, a + b) == Run(Run(s, a), b)
    decreases |a|
  {
    if a == [] {
      assert a + b == b;
    } else {
      assert (a + b)[1..] == a[1..] + b;
      RunAppend(Apply(s, a[0]).next, a[1..], b);
    }
  }

  /** Every writer call keeps the stream invariant. */
  lemma {:induction false} RunKeepsValid(s: Stream, ops: seq<WriterOp>)
    requires Valid(s)
    ensures Valid(Run(s, ops))
    decreases |ops|
  {
    if ops != [] {
      RunKeepsValid(Apply(s, ops[0]).next, ops[1..]);
    }
  }

  /**
   * Once closed, a stream stays closed with the same error and the same
   * queue, and no later close succeeds.
   */
  lemma {:induction false} ClosedIsFinal(s: Stream, ops: seq<WriterOp>)
    requires s.closed
    ensures var s' := Run(s, ops);
      s'.closed && s'.err == s.err && s'.queue == s.queue
    ensures SuccessfulCloses(s, ops) == 0
    decreases |ops|
  {
    if ops != [] {
      ClosedIsFinal(Apply(s, ops[0]).next, ops[1..]);
    }
  }

  /** At most one close succeeds, and none on a stream that is already closed. */
  lemma {:induction false} AtMostOneClose(s: Stream, ops: seq<WriterOp>)
    ensures SuccessfulCloses(s, ops) <= 1
    ensures s.closed ==> SuccessfulCloses(s, ops) == 0
    decreases |ops|
  {
    if s.closed {
      ClosedIsFinal(s, ops);
    } else if ops != [] {
      var t := Apply(s, ops[0]);
      if ops[0].CloseOp? && t.result.None? {
        ClosedIsFinal(t.next, ops[1..]);
      } else {
        AtMostOneClose(t.next, ops[1..]);
      }
    }
  }

  /** Once the latch has fired it stays fired and the length no longer changes. */
  lemma {:induction false} ReadyIsFinal(s: Stream, ops: seq<WriterOp>)
    requires s.ready
    ensures Run(s, ops).ready && Run(s, ops).length == s.length
    decreases |ops|
  {
    if ops != [] {
      ReadyIsFinal(Apply(s, ops[0]).next, ops[1..]);
    }
  }

  /**
   * From a stream whose latch has not fired, the latch fires exactly when
   * some call is an Emit or a Close, and the length is then the last one set
   * before the first such call.
   */
  lemma {:induction false} LatchAndLength(s: Stream, ops: seq<WriterOp>)
    requires Valid(s) && !s.ready
    ensures Run(s, ops).ready <==> FiresLatch(ops)
    ensures Run(s, ops).length == DeclaredLength(ops, s.length)
    decreases |ops|
  {
    if ops == [] {
    } else if ops[0].SetLengthOp? {
      var s1 := Apply(s, ops[0]).next;
      LatchAndLength(s1, ops[1..]);
      if FiresLatch(ops[1..]) {
        var i :| 0 <= i < |ops[1..]| && !ops[1..][i].SetLengthOp?;
        assert !ops[i + 1].SetLengthOp?;
      }
      if FiresLatch(ops) {
        var i :| 0 <= i < |ops| && !ops[i].SetLengthOp?;
        assert !ops[1..][i - 1].SetLengthOp?;
      }
    } else {
      ReadyIsFinal(Apply(s, ops[0]).next, ops[1..]);
      assert !ops[0].SetLengthOp?;
    }
  }

  /**
   * On a fresh stream Length blocks until an Emit or a Close happens, and
   * then reports the last length set before it, or 0 when none was set.
   */
  lemma LengthOfFreshStream(ops: seq<WriterOp>)
    ensures Length(Run(NewChanResponsePair(), ops)) ==
      if FiresLatch(ops) then Returns(DeclaredLength(ops, 0)) else Blocks
  {
    LatchAndLength(NewChanResponsePair(), ops);
  }

  /** Emitting values that are not Singles on an open stream queues them in order. */
  lemma {:induction false} EmitsQueueInOrder(s: Stream, vs: seq<Value>)
    requires !s.closed && NoSingles(vs)
    ensures var s' := Run(s, Emits(vs));
      !s'.closed && s'.err == s.err && s'.queue == s.queue + vs
    decreases |vs|
  {
    if vs != [] {
      assert Emits(vs)[1..] == Emits(vs[1..]);
      EmitsQueueInOrder(Apply(s, EmitOp(vs[0], false)).next, vs[1..]);
      assert s.queue + [vs[0]] + vs[1..] == s.queue + vs;
    }
  }

  /** Reading a closed stream yields its queue, unwrapped, then the recorded error. */
  lemma {:induction false} DrainClosed(s: Stream)
    requires s.closed
    ensures Drain(s) == Returns((UnwrapAll(s.queue), s.err))
    decreases |s.queue|
  {
    if s.queue != [] {
      DrainClosed(s.(queue := s.queue[1..]));
    }
  }

  /** Reading an open stream, without cancellation, ends up blocking. */
  lemma {:induction false} DrainOpenBlocks(s: Stream)
    requires !s.closed
    ensures Drain(s) == Blocks
    decreases |s.queue|
  {
    if s.queue != [] {
      DrainOpenBlocks(s.(queue := s.queue[1..]));
    }
  }

  lemma {:induction false} UnwrapAllNoSingles(vs: seq<Value>)
    requires NoSingles(vs)
    ensures UnwrapAll(vs) == vs
  {
  }

  /**
   * Emitting values (none a Single) and then closing with `e`: the reader
   * gets exactly those values in order, then io.EOF on success or the
   * normalised error.
   */
  lemma EmitsThenCloseDrainInOrder(vs: seq<Value>, e: Option<GoError>)
    requires NoSingles(vs)
    ensures Drain(Run(NewChanResponsePair(), Emits(vs) + [CloseOp(e)])) == Returns((vs, Some(Normalize(e))))
  {
    var s0 := NewChanResponsePair();
    RunAppend(s0, Emits(vs), [CloseOp(e)]);
    EmitsQueueInOrder(s0, vs);
    var s1 := Run(s0, Emits(vs));
    assert !s1.closed && s1.queue == vs;
    var s2 := CloseWithError(s1, e).next;
    assert Run(s1, [CloseOp(e)]) == Run(s2, []) == s2;
    assert s2.closed && s2.queue == vs && s2.err == Some(Normalize(e));
    DrainClosed(s2);
    UnwrapAllNoSingles(vs);
  }

  /**
   * Emitting a Single on an open stream delivers its inner value after the
   * values already queued, and then the stream ends with io.EOF without any
   * Close call; a later Close fails.
   */
  lemma SingleEndsStream(s: Stream, x: Value)
    requires !s.closed
    ensures Drain(Emit(s, Single(x), false).next) == Returns((UnwrapAll(s.queue) + [x], Some(EOF)))
    ensures CloseWithError(Emit(s, Single(x), false).next, None).result == Some(CloseOfClosedEmitter)
  {
    var s' := Emit(s, Single(x), false).next;
    DrainClosed(s');
    assert UnwrapAll(s.queue + [Single(x)]) == UnwrapAll(s.queue) + [x];
  }
}
