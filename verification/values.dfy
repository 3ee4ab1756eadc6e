/** The values commands emit, as far as the emitters tell them apart. */
module Values {

  /** Go's uint64, the type of a declared response length. */
  type uint64 = x: int | 0 <= x < 0x1_0000_0000_0000_0000

  type byte = x: int | 0 <= x < 256

  /**
   * An emitted value. Channels and error values are not values here: nested
   * channels are flattened by code outside this model, and emitting an error
   * value is a programming error that panics before any state is touched.
   */
  datatype Value =
    | Str(s: string)             // a string
    | Int(n: int)                // an int
    | StrRef(text: string)       // a *string
    | IntRef(num: int)           // an *int
    | Reader(data: seq<byte>)    // an io.Reader yielding these bytes
    | Single(inner: Value)       // a cmds.Single envelope
    | Other(name: string)        // any other value, known by name

  /** Strips one Single envelope, as both emitters do. */
  function Unwrap(v: Value): (u: Value)
    ensures v.Single? ==> u == v.inner
    ensures !v.Single? ==> u == v
  {
    if v.Single? then v.inner else v
  }

  /** Unwrap applied to each value of a sequence. */
  function UnwrapAll(vs: seq<Value>): (us: seq<Value>)
    ensures |us| == |vs|
    ensures forall i :: 0 <= i < |vs| ==> us[i] == Unwrap(vs[i])
  {
    if vs == [] then [] else [Unwrap(vs[0])] + UnwrapAll(vs[1..])
  }

  /** No value of the sequence is a Single envelope. */
  predicate NoSingles(vs: seq<Value>)
  {
    forall i :: 0 <= i < |vs| ==> !vs[i].Single?
  }
}
