/** Option and Result, the two failure-compatible wrappers the model uses.
    Result stands for a C++ call that either returns a value or throws. */
module Wrappers {

  datatype Option<+T> = None | Some(value: T)

  datatype Result<+T, +E> = Success(value: T) | Error(error: E) {

    predicate IsFailure() {
      Error?
    }

    function PropagateFailure<U>(): Result<U, E>
      requires Error?
    {
      Error(error)
    }

    function Extract(): T
      requires Success?
    {
      value
    }
  }
}
