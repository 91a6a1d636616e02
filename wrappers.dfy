/** Optional values and the success/failure envelope returned by the data-access actions. */
module Wrappers {

  /** An optional value: `undefined`, `null` or JavaScript's NaN on the source side. */
  datatype Option<+T> = None | Some(value: T) {
    function GetOr(default: T): T {
      match this
      case Some(v) => v
      case None => default
    }
  }

  /** The `{ success, data }` / `{ success: false, error }` envelope of a single-record action. */
  datatype Result<+T> = Success(data: T) | Failure(error: string)
}
