/** Optional values and results that carry either a value or an error. */
module Outcomes {

  datatype Option<+T> = None | Some(value: T)

  /** A failure-compatible result, usable with `:-` inside functions. */
  datatype Result<+T, +E> = Ok(value: T) | Err(error: E) {
    predicate IsFailure() {
      Err?
    }

    function PropagateFailure<U>(): Result<U, E>
      requires Err?
    {
      Err(error)
    }

    function Extract(): T
      requires Ok?
    {
      value
    }
  }

  /** The outcome of a check that computes no value. */
  datatype Check<+E> = Pass | Reject(error: E) {
    predicate IsFailure() {
      Reject?
    }

    function PropagateFailure<U>(): Result<U, E>
      requires Reject?
    {
      Err(error)
    }
  }
}
