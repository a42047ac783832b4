/** Option and the outcome of an effect, as used by every module of the model. */
module Wrappers {

  datatype Option<+T> = None | Some(value: T) {

    /** Returns the value encapsulated in Some, or a default value when None. */
    function GetOr(default: T): T {
      match this
      case Some(v) => v
      case None => default
    }
  }

  /** The outcome of a lookup that a cache remembers: its value or a failure cause. */
  datatype Exit<+T> = Success(value: T) | Failure(cause: string) {

    /** `Effect.orElseSucceed`: the value, or a default in place of a failure. */
    function OrElseSucceed(default: T): T {
      match this
      case Success(v) => v
      case Failure(_) => default
    }
  }
}
