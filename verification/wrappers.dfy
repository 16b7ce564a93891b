/** Failure-compatible helper datatypes shared by the model. */
module Wrappers {

  /** A value that may be absent: stands for a nullable reference or pointer. */
  datatype Option<+T> = None | Some(value: T) {

    /** Returns the wrapped value, or `default` when absent (C#'s `??`). */
    function GetOr(default: T): T {
      match this
      case Some(v) => v
      case None => default
    }
  }
}
