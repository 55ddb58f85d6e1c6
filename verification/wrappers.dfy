/** Optional values and error-carrying results.

    Go's `(*T, error)` return pairs are modelled as `Result<T>`: the error
    side carries the message the Go code builds with `fmt.Errorf`, the
    success side the value behind the non-nil pointer. Nullable JSON fields
    (`*string`, `*int`, `*struct`) are modelled as `Option<T>`.
 */
module Wrappers {

  datatype Option<+T> = None | Some(value: T) {

    /** The carried value, or `default` when absent (Go: the zero value left in
        place when a pointer field is nil). */
    function GetOr(default: T): (r: T)
      ensures Some? ==> r == value
      ensures None? ==> r == default
    {
      match this
      case Some(v) => v
      case None => default
    }
  }

  datatype Result<+T> = Ok(value: T) | Err(message: string)
}
