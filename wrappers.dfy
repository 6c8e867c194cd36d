/** Option and Result, the two failure-carrying shapes the Rust code returns. */
module Wrappers {

  datatype Option<T> = None | Some(value: T)

  datatype Result<T, E> = Ok(value: T) | Err(error: E)

  /** A computation that either completes or fails with an error and no value. */
  datatype Outcome<E> = Pass | Fail(error: E)
}
