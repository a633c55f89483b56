/** Failure-carrying results used by every module: the source reports errors by
    throwing, which the model turns into an error value. */
module Wrappers {

  datatype Option<+T> = None | Some(value: T)

  datatype Result<+T, +E> = Ok(value: T) | Err(error: E) {
    predicate IsFailure() { Err? }
    function PropagateFailure<U>(): Result<U, E>
      requires Err?
    {
      Err(error)
    }
    function Extract(): T
      requires Ok?
    {
      value
    }
  }

  /** An operation that either completes or fails, with no value. */
  datatype Outcome<+E> = Pass | Fail(error: E)
}
