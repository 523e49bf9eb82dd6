/** Optional values and fallible results, used for absent record fields,
    "not found" lookups and remote calls that raise. */
module Wrappers {

  datatype Option<T> = None | Some(value: T) {
    /** The wrapped value, or `default` when absent (Python's `d.get(key, default)`). */
    function GetOr(default: T): T {
      match this
      case Some(v) => v
      case None => default
    }
  }

  /** Either a value or the text of the exception that was raised instead. */
  datatype Result<T> = Success(value: T) | Failure(error: string)
}
