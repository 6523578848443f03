/** Optional values and fallible results, as the exporter's interface uses them. */
module Wrappers {

  /** An optional value: `Option<Unit>` is how a caller leaves the time unit open. */
  datatype Option<+T> = None | Some(value: T)

  /** The outcome of an export: the rendered value or the reason there is none. */
  datatype Result<+T, +E> = Ok(value: T) | Err(error: E)
}
