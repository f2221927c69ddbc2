/** Shared wrappers: optional values, results, and what a call into an
    external collaborator (container runtime, database, key library) did. */
module Common {

  datatype Option<+T> = None | Some(value: T)

  /** A computation that either yields a value or fails with a message
      (a rejected promise in TypeScript, an `anyhow::Error` in Rust). */
  datatype Result<+T> = Ok(value: T) | Err(message: string)

  /** The observed outcome of one call into a collaborator the model does not
      see: it returned a value, or it threw with a message. These values are
      parameters of the operations that make the call. */
  datatype Call<+T> = Returned(value: T) | Threw(message: string)

  predicate StartsWith(s: string, prefix: string)
  {
    |prefix| <= |s| && s[..|prefix|] == prefix
  }
}
