/** Option and Result: the absent value and the error return of the Rust and TypeScript sources. */
module Wrappers {
  datatype Option<T> = None | Some(value: T)
  {
    /** `unwrap_or` / `??`: the contained value, or the default when absent. */
    function UnwrapOr(default: T): T
    {
      if Some? then value else default
    }
  }

  datatype Result<T, E> = Ok(value: T) | Err(error: E)
}
