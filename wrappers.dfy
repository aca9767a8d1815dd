/** Values shared by every module of the model. */
module Wrappers {

  /** A value that may be absent: a null pointer, a missing map entry, an unset optional argument. */
  datatype Option<T> = None | Some(value: T)

  /** How an operation that can throw ends. `Fail` is a bare `throw;` with no exception in flight,
      which ends the program; the operation has then changed nothing. */
  datatype Outcome = Ok | Fail
}
