/** Small failure-carrying datatypes shared by the whole model. */
module Wrappers {

  /** A value that may be absent (Go's nil pointer or nil error). */
  datatype Option<+T> = None | Some(value: T)

  /** A driver or library call that either yields a value or fails with an error. */
  datatype Result<+T, +E> = Ok(value: T) | Err(error: E)

  /** How a Go call ended: it returned normally, or it panicked (the Go runtime unwinds). */
  datatype Outcome = Returned | Panicked(reason: string)

  /** The runtime's message for a call through a nil value. */
  const NilDereference := "runtime error: invalid memory address or nil pointer dereference"
}
