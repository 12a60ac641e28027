/** Option and Result: Java's null and thrown exceptions, made explicit. */
module Wrappers {

  /** A value or nothing; None stands for a Java `null`. */
  datatype Option<+T> = None | Some(value: T)

  /** A value or the error a Java method would have thrown. */
  datatype Result<+T, +E> = Ok(value: T) | Err(error: E)
}
