/** Sequences of calls on the terminal emitter. */
module CliTraces {
  import opened Wrappers
  import opened Errors
  import opened Values
  import opened CliEmitter

  /** One call on the emitter, with the I/O results it will meet. */
  datatype CliOp =
    | EmitOp(v: Value, ioErr: Option<GoError>)
    | CloseOp(syncs: SyncResults)
    | CloseWithErrorOp(e: Option<GoError>, writeErr: Option<GoError>, syncs: SyncResults)
    | ExitOp(code: int, syncs: SyncResults)
    | SetLengthOp(l: uint64)

  function Apply(re: Emitter, op: CliOp): Emitter
  {
    match op
    case EmitOp(v, w) => Emit(re, v, w).next
    case CloseOp(s) => Close(re, s).next
    case CloseWithErrorOp(e, w, s) => CloseWithError(re, e, w, s).next
    case ExitOp(c, s) => Exit(re, c, s)
    case SetLengthOp(l) => SetLength(re, l)
  }

  function Run(re: Emitter, ops: seq<CliOp>): Emitter
    decreases |ops|
  {
    if ops == [] then re else Run(Apply(re, ops[0]), ops[1..])
  }

  /** One successful Emit call per value. */
  function Emits(vs: seq<Value>): (ops: seq<CliOp>)
    ensures |ops| == |vs|
  {
    if vs == [] then [] else [EmitOp(vs[0], None)] + Emits(vs[1..])
  }

  /**
   * Whatever the calls and I/O results, the exit code is reported at most
   * once, and it has been reported and the channel closed exactly when the
   * emitter is closed.
   */
  lemma {:induction false} ExitCodeReportedAtMostOnce(re: Emitter, ops: seq<CliOp>)
    requires Valid(re)
    ensures var re' := Run(re, ops);
      && |re'.reported| <= 1
      && (re'.closed <==> re'.reported != [])
      && (re'.closed <==> re'.reportClosed)
    decreases |ops|
  {
    if ops != [] {
      ExitCodeReportedAtMostOnce(Apply(re, ops[0]), ops[1..]);
    }
  }

  /** After close nothing more is written, sent or closed, whatever is called. */
  lemma {:induction false} ClosedIsFinal(re: Emitter, ops: seq<CliOp>)
    requires re.closed
    ensures var re' := Run(re, ops);
      && re'.closed && re'.out == re.out && re'.errOut == re.errOut
      && re'.reported == re.reported && re'.reportClosed == re.reportClosed
      && re'.stdout == re.stdout && re'.stderr == re.stderr
    decreases |ops|
  {
    if ops != [] {
      ClosedIsFinal(Apply(re, ops[0]), ops[1..]);
    }
  }

  /** What successful emits of `vs` write, in order. */
  function Written(vs: seq<Value>, hasEncoder: bool): (out: seq<Chunk>)
    ensures |out| == |vs|
  {
    if vs == [] then [] else [Render(Prepare(vs[0]), hasEncoder)] + Written(vs[1..], hasEncoder)
  }

  /**
   * Successful emits on an open emitter write one chunk per value, in order,
   * and leave it open, Singles included.
   */
  lemma {:induction false} EmitsWriteInOrder(re: Emitter, vs: seq<Value>)
    requires !re.closed
    ensures var re' := Run(re, Emits(vs));
      re' == re.(out := re.out + Written(vs, re.hasEncoder))
    decreases |vs|
  {
    if vs == [] {
      assert re.out + Written(vs, re.hasEncoder) == re.out;
    } else {
      var w := Render(Prepare(vs[0]), re.hasEncoder);
      var rest := Written(vs[1..], re.hasEncoder);
      var re1 := re.(out := re.out + [w]);
      assert Run(re, Emits(vs)) == Run(re1, Emits(vs[1..])) by {
        assert Emits(vs)[1..] == Emits(vs[1..]);
        EmitStep(re, vs[0]);
      }
      EmitsWriteInOrder(re1, vs[1..]);
      assert re.out + [w] + rest == re.out + Written(vs, re.hasEncoder) by {
        assert Written(vs, re.hasEncoder) == [w] + rest;
      }
    }
  }

  /** One successful Emit on an open emitter appends its chunk. */
  lemma EmitStep(re: Emitter, v: Value)
    requires !re.closed
    ensures Apply(re, EmitOp(v, None)) == re.(out := re.out + [Render(Prepare(v), re.hasEncoder)])
  {
  }

  lemma {:induction false} RunAppend(re: Emitter, a: seq<CliOp>, b: seq<CliOp>)
    ensures Run(re, a + b) == Run(Run(re, a), b)
    decreases |a|
  {
    if a == [] {
      assert a + b == b;
    } else {
      assert (a + b)[1..] == a[1..] + b;
      RunAppend(Apply(re, a[0]), a[1..], b);
    }
  }

  /**
   * A fresh emitter that emits `vs` and then exits with `code` has written
   * one chunk per value and reported `code`, once; a later Exit changes the
   * code it holds but reports nothing more.
   */
  lemma EmitsThenExit(stdout: Writer, stderr: Writer, hasEncoder: bool, vs: seq<Value>, code: int, later: int, s1: SyncResults, s2: SyncResults)
    ensures var re := Run(NewResponseEmitter(stdout, stderr, hasEncoder), Emits(vs) + [ExitOp(code, s1)]);
      && re.closed && re.out == Written(vs, hasEncoder) && re.reported == [code]
      && Exit(re, later, s2).reported == [code]
  {
    var re0 := NewResponseEmitter(stdout, stderr, hasEncoder);
    RunAppend(re0, Emits(vs), [ExitOp(code, s1)]);
    EmitsWriteInOrder(re0, vs);
    var re1 := Run(re0, Emits(vs));
    assert re1.out == Written(vs, hasEncoder) && !re1.closed && re1.reported == [];
    assert Run(re1, [ExitOp(code, s1)]) == Run(Exit(re1, code, s1), []);
  }
}
