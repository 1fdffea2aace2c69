/** Option and Result, the two failure-carrying types the card catalog returns. */
module Wrappers {

  /** Rust's `Option<T>`: an event listener either reacts with `Some(events)` or not at all. */
  datatype Option<+T> = None | Some(value: T)

  /** Rust's `Result<T, E>`: a catalog lookup yields the card or an error. */
  datatype Result<+T, +E> = Ok(value: T) | Err(error: E)
}
