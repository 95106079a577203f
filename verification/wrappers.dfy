/** Optional values and Python-style failures shared by every module of the model. */
module Wrappers {

  /** A value that may be missing: Python's `None` next to a float. */
  datatype Option<+T> = None | Some(value: T)

  /** The Python exceptions the calculation engines can raise on numeric input. */
  datatype Fault =
    | ZeroDivisionError   // a float divided by 0.0
    | TypeError           // arithmetic on a `None` value

  /** Either a computed value or the exception the source raises instead. */
  datatype Result<+T> = Success(value: T) | Failure(error: Fault)
}
