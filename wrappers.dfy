/** Failure-carrying values shared by the engine's components: the source
    signals every failure with an assertion or an exception, the model returns
    one of these instead. */
module Wrappers {

  datatype Option<+T> = None | Some(value: T)

  /** `Some` of the first argument when it has one, otherwise the second. */
  function OrElse<T>(a: Option<T>, b: Option<T>): Option<T>
  {
    if a.Some? then a else b
  }

  /** A check that either passes or fails with an error. */
  datatype Outcome<+E> = Pass | Fail(error: E)

  /** A computation that either yields a value or fails with an error. */
  datatype Result<+R, +E> = Success(value: R) | Failure(error: E)
}
