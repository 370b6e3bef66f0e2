/** Optional values, results, and how one file operation can end, for every module. */
module Outcomes {
  datatype Option<+T> = None | Some(value: T)

  datatype Result<+T, +E> = Success(value: T) | Failed(error: E)

  /** A late error is one reported although the operation took effect. */
  datatype Ending = Ok | Error | LateError
}
