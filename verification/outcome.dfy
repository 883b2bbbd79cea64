/** Optional values and results with an error branch, used wherever the
    modelled code can produce `undefined`/`null` or fault. */
module Outcome {

  /** A value that may be absent (`null` or `undefined` in the modelled code). */
  datatype Option<+T> = None | Some(value: T)

  /** Either a computed value or the fault that prevents computing it. */
  datatype Result<+T, +E> = Success(value: T) | Failure(error: E)
}
