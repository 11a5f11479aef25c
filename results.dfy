/** Optional values and fallible outcomes, as the Rust `Option` and `Result` types. */
module Results {

  datatype Option<+T> = None | Some(value: T)

  /** An outcome of a fallible call; errors carry the library's message. */
  datatype Result<+T> = Ok(value: T) | Err(error: string)
}
