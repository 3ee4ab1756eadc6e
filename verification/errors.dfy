/**
 * The Go error values the stream and the CLI emitter produce, compare against
 * or store, and the go-ipfs-cmdkit error record they convert errors into.
 */
module Errors {

  /** cmdkit.ErrNormal, the code a freshly wrapped error gets. */
  const ErrNormal: nat := 0

  /** Linux values of syscall.EINVAL and syscall.ENOTSUP. */
  const EINVAL: nat := 22
  const ENOTSUP: nat := 95

  /** The cmdkit.Error record: a message and an error code. */
  datatype CmdkitError = CmdkitError(message: string, code: nat)

  /**
   * A non-nil Go error, told apart by the identity or dynamic type the code
   * under study inspects.
   */
  datatype GoError =
    | EOF                                          // io.EOF
    | ContextCanceled                              // ctx.Err() after cancellation
    | ClosedEmitter                                // cmds.ErrClosedEmitter
    | Cmdkit(e: CmdkitError)                       // a cmdkit.Error value
    | CmdkitRef(e: CmdkitError)                    // a *cmdkit.Error
    | Errno(code: nat)                             // a syscall.Errno
    | PathError(op: string, path: string, err: GoError)  // an *os.PathError
    | Plain(msg: string)                           // errors.New(msg) or any other error

  /** Decimal rendering of a natural number. */
  function Decimal(n: nat): (s: string)
    ensures |s| > 0
    ensures forall i :: 0 <= i < |s| ==> '0' <= s[i] <= '9'
  {
    var d := ['0' + (n % 10) as char];
    if n < 10 then d else Decimal(n / 10) + d
  }

  /** The text err.Error() returns. */
  function Message(e: GoError): string
  {
    match e
    case EOF => "EOF"
    case ContextCanceled => "context canceled"
    case ClosedEmitter => "cmds: emit on closed emitter"
    case Cmdkit(c) => c.message
    case CmdkitRef(c) => c.message
    case Errno(n) =>
      if n == EINVAL then "invalid argument"
      else if n == ENOTSUP then "operation not supported"
      else "errno " + Decimal(n)
    case PathError(op, path, inner) => op + " " + path + ": " + Message(inner)
    case Plain(m) => m
  }

  /**
   * The conversion both emitters apply to an arbitrary error: a *cmdkit.Error
   * is kept as it is, anything else becomes a new cmdkit.Error carrying the
   * error's message and the normal code.
   */
  function ToCmdkit(e: GoError): (c: CmdkitError)
    ensures c.message == Message(e)
    ensures e.CmdkitRef? ==> c == e.e
    ensures !e.CmdkitRef? ==> c.code == ErrNormal
  {
    match e
    case CmdkitRef(c) => c
    case _ => CmdkitError(Message(e), ErrNormal)
  }

  /**
   * The close-time sync failures the CLI emitter tolerates: an *os.PathError
   * from the "sync" operation whose cause is EINVAL or ENOTSUP.
   */
  predicate IgnoreError(e: GoError)
  {
    match e
    case PathError(op, _, inner) => op == "sync" && (inner == Errno(EINVAL) || inner == Errno(ENOTSUP))
    case _ => false
  }

  /** The tolerated class, stated as the set of errors it admits for each path. */
  lemma IgnoreErrorExactly(e: GoError)
    ensures IgnoreError(e) <==>
      exists path: string :: e == PathError("sync", path, Errno(EINVAL)) || e == PathError("sync", path, Errno(ENOTSUP))
  {
    if IgnoreError(e) {
      assert e == PathError("sync", e.path, Errno(EINVAL)) || e == PathError("sync", e.path, Errno(ENOTSUP));
    }
  }
}
