/** Failure-compatible result type used for every fallible step of the decoder,
    so that `:-` propagates the first error as Rust's `?` and `unwrap` do. */
module Wrappers {

  datatype Result<+T, +E> = Ok(value: T) | Err(error: E) {

    predicate IsFailure() {
      Err?
    }

    function PropagateFailure<U>(): Result<U, E>
      requires Err?
    {
      Err(error)
    }

    function Extract(): T
      requires Ok?
    {
      value
    }
  }

  datatype Option<+T> = None | Some(value: T)
}
