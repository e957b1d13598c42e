/** Failure-compatible result types shared by every module of the model.
    A C++ `TRTORCH_CHECK`/`TRTORCH_THROW_ERROR` or a Python `raise` becomes an `Err`. */
module Outcomes {

  datatype Option<+T> = None | Some(value: T)

  datatype Result<+T, +E> = Ok(value: T) | Err(error: E) {
    predicate IsFailure() { Err? }

    function PropagateFailure<U>(): Result<U, E>
      requires Err?
    {
      Err(error)
    }

    function Extract(): T
      requires Ok?
    {
      value
    }
  }
}
