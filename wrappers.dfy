/** Failure-carrying results. A C++ `CB_ENSURE`, `Y_VERIFY` or `ythrow` that aborts the
    caller is modelled as an `Err`/`Fail` value naming the failed check. */
module Wrappers {

  datatype Result<T, E> = Ok(value: T) | Err(error: E) {
    predicate IsFailure() { Err? }

    function PropagateFailure<U>(): Result<U, E>
      requires Err?
    {
      Err(error)
    }

    function Extract(): T
      requires Ok?
    {
      value
    }
  }

  datatype Outcome<E> = Pass | Fail(error: E)

  datatype Option<T> = None | Some(value: T)
}
