/** The two failure-carrying shapes used across the model: `Option` stands for
    a JavaScript value that may be `undefined`, `Result` for an operation that
    may throw. */
module Wrappers {

  /** `None` plays the part of `undefined`. */
  datatype Option<+T> = None | Some(value: T) {

    /** The `??` operator: the value if present, else the fallback. */
    function OrElse(fallback: T): T {
      match this
      case Some(v) => v
      case None => fallback
    }
  }

  /** `Failure` plays the part of a thrown exception. */
  datatype Result<+T, +E> = Success(value: T) | Failure(error: E)
}
