/** Failure-carrying values shared by every module: Rust's `Option`, `Result`,
    and the outcome of a call that may panic. */
module Results {

  datatype Option<+T> = None | Some(value: T)

  datatype Result<+T, +E> = Ok(value: T) | Err(error: E)

  /** What a Rust call does: return a value, or panic with a message. Used only
      where the source can panic on input it does not control. */
  datatype Run<+T> = Returns(value: T) | Panics(message: string)
}
