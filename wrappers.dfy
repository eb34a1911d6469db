/** Optional values (Go's nil pointers) and results that carry a failure. */
module Wrappers {

  /** A Go pointer: nil is None, a pointer to v is Some(v). */
  datatype Option<T> = None | Some(value: T)

  /** The value of a computation that may fail with an error of type E. */
  datatype Result<T, E> = Ok(value: T) | Err(error: E)
}
