/** Go's "nil or a value" as a datatype. */
module Wrappers {

  /** None stands for Go's nil; Some(v) for a non-nil value. */
  datatype Option<+T> = None | Some(value: T)
}
