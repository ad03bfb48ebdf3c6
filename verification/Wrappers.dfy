/** Option and Result, as the source's `Option<T>` and `Result<T, E>`. */
module Wrappers {
  datatype Option<+T> = None | Some(value: T)

  datatype Result<+R, +E> = Ok(value: R) | Err(error: E)

  function OrElse<T>(o: Option<T>, fallback: Option<T>): Option<T> {
    if o.Some? then o else fallback
  }

  function UnwrapOr<T>(o: Option<T>, default: T): T {
    if o.Some? then o.value else default
  }
}
