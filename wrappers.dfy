/** Stand-ins for Java's null references and thrown exceptions. */
module Wrappers {

  /** A value that a Java `@Nullable` reference either holds (Some) or does not (None, i.e. null). */
  datatype Option<+T> = None | Some(value: T)

  /** The outcome of a `void` Java method that may throw: it returns normally (Pass) or throws (Fail). */
  datatype Outcome<+E> = Pass | Fail(error: E)

  /** The outcome of a value-returning Java method that may throw. */
  datatype Result<+R, +E> = Ok(value: R) | Err(error: E)
}
