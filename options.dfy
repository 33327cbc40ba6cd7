/** Optional values: JavaScript's `undefined` results (a failed `find`,
    a missing object key, `NaN` from `parseInt`) are modelled as `None`. */
module Options {

  datatype Option<+T> = None | Some(value: T) {

    /** The value, or the given default when there is none. */
    function GetOr(default: T): T {
      match this
      case Some(v) => v
      case None => default
    }
  }

  /** A computation that either yields a value or throws (a JavaScript
      `TypeError`, described by its message). */
  datatype Result<+T> = Success(value: T) | Failure(error: string)
}
