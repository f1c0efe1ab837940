/** Option and Result: the model's stand-ins for Java's null and for a thrown exception. */
module Wrappers {

  /** `None` stands for Java's `null` (or for "no value could be produced"). */
  datatype Option<+T> = None | Some(value: T)

  /** `Failure` carries the exception a Java call would have thrown instead of returning. */
  datatype Result<+T, +E> = Success(value: T) | Failure(error: E)
}
