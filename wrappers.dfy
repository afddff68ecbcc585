/** Optional values and results shared by every module of the model.
    `None` stands for JavaScript's `null`/`undefined` and Go's nil; a
    `Failure` carries the message an exception or an error return would. */
module Wrappers {

  datatype Option<+T> = None | Some(value: T) {
    /** The wrapped value, or `default` when there is none. */
    function GetOr(default: T): T {
      match this
      case Some(v) => v
      case None => default
    }
  }

  datatype Result<+R, +E> = Success(value: R) | Failure(error: E)
}
