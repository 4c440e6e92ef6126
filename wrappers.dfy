/** Option and Result values used for the JavaScript `undefined`/`null` cases and for
    thrown errors. */
module Wrappers {

  datatype Option<+T> = None | Some(value: T)

  /** The outcome of a server function: either its return value or the error it throws. */
  datatype Result<+R, +E> = Success(value: R) | Failure(error: E)

  /** JavaScript truthiness of a string that may be `undefined`: set and non-empty. */
  predicate Truthy(s: Option<string>) {
    s.Some? && s.value != ""
  }
}
