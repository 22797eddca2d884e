/** Optional values and error-carrying results, used wherever the source
    tolerates an absent field (`?.`, `??`, `||`) or answers with an error. */
module Wrappers {

  datatype Option<+T> = None | Some(value: T) {

    /** The wrapped value, or `default` when absent (the source's `?? default`). */
    function GetOr(default: T): T {
      match this
      case Some(v) => v
      case None => default
    }
  }

  datatype Result<+R, +E> = Success(value: R) | Failure(error: E)

  /** An HTTP error response: a status code and the `error` message of its JSON body. */
  datatype HttpError = HttpError(status: int, message: string)
}
