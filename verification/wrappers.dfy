/** Option, Result and Outcome: the model's stand-ins for PHP's `null` and exceptions. */
module Wrappers {

  /** A value that may be absent (PHP `null`). */
  datatype Option<+T> = None | Some(value: T)

  /** A computation that returns a value or raises an error. */
  datatype Result<+T, +E> = Success(value: T) | Failure(error: E)

  /** A computation with no value that either completes or raises an error. */
  datatype Outcome<+E> = Pass | Fail(error: E)

  /** PHP's `??`: the left value unless it is null. */
  function OrElse<T>(a: Option<T>, b: Option<T>): Option<T> {
    if a.Some? then a else b
  }
}
