/** Option and Result datatypes shared by the whole model. */
module Wrappers {

  /** An optional value: an absent JSON key or an absent query parameter. */
  datatype Option<+T> = None | Some(value: T) {
    function GetOr(default: T): T {
      match this
      case Some(v) => v
      case None => default
    }
  }

  /** The outcome of an awaited call: the value it resolved with, or the error it rejected with. */
  datatype Result<+T, +E> = Success(value: T) | Failure(error: E)

  /** The outcome of an awaited call that resolves with nothing (`Promise<void>`). */
  datatype Completion<+E> = Done | Failed(error: E)
}
