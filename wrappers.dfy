/** Option and Result values standing for JavaScript's `null` and thrown errors. */
module Wrappers {

  /** `None` plays the part of `null` (or `undefined`) in the source. */
  datatype Option<+T> = None | Some(value: T)

  /** `Failure` plays the part of a thrown `Error` or a rejected promise. */
  datatype Result<+R, +E> = Success(value: R) | Failure(error: E)

  function Min(a: int, b: int): int
  {
    if a <= b then a else b
  }
}
