/** Optional values and success-or-error results, used wherever the reporter
    either yields a value or leaves it `undefined`, or either returns or throws. */
module Wrappers {

  /** `None` stands for JavaScript's `undefined`. */
  datatype Option<+T> = None | Some(value: T)

  /** `Failure` stands for a thrown error or a rejected promise. */
  datatype Result<+R, +E> = Success(value: R) | Failure(error: E)
}
