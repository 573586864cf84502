/** Outcome and Result datatypes standing for Python's "returns normally or raises". */
module Wrappers {

  datatype Option<+T> = None | Some(value: T)

  /** A call that returns nothing of interest: it either passes or raises `error`. */
  datatype Outcome<+E> = Pass | Fail(error: E)

  /** A call that either returns `value` or raises `error`. */
  datatype Result<+R, +E> = Success(value: R) | Failure(error: E)
}
