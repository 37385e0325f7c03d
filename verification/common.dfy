/** Small value types shared by every module of the model. */
module Common {

  datatype Option<T> = None | Some(value: T)

  /** The outcome of a fallible call: Rust's `Result<T, E>`. */
  datatype Result<T, E> = Ok(value: T) | Err(error: E)

  /** An error of the database layer, kept as its display text. */
  datatype DbErr = DbErr(message: string)

  /** One octet, as in an HTTP header value. */
  newtype byte = x: int | 0 <= x < 256
}
