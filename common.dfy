/** Optional values and fallible results, shared by every module. */
module Common {

  /** `undefined`/`null` in TypeScript, `Option` in Rust. */
  datatype Option<+T> = None | Some(value: T)

  /** A Rust `Result`, or a promise that either resolves or rejects. */
  datatype Result<+T, +E> = Ok(value: T) | Err(error: E)

  /** The unit value carried by `Ok(())`. */
  datatype Unit = Unit
}
