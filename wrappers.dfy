/** An optional value (Go's nil-or-value) and a value-or-fault result (Go's
    panic, made explicit). */
module Wrappers {

  datatype Option<+T> = None | Some(value: T)

  datatype Result<+T, +E> = Success(value: T) | Failure(error: E)
}
