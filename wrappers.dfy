/** Option and Result, used for Java's Optional and for exceptions a call can end in. */
module Wrappers {

  datatype Option<+T> = None | Some(value: T) {
    /** Java's Optional.orElse. */
    function GetOr(default: T): T {
      match this
      case Some(v) => v
      case None => default
    }
  }

  datatype Result<+R, +E> = Success(value: R) | Failure(error: E)

  /** Akka's Done: the reply of a command that has nothing else to say. */
  datatype Done = Done
}
