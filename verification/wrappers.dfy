/** Option and Result, standing for Java's nullable references and thrown exceptions. */
module Wrappers {

  /** A Java reference that may be null: None is null. */
  datatype Option<+T> = None | Some(value: T) {
    function GetOr(default: T): T {
      match this
      case Some(v) => v
      case None => default
    }
  }

  /** The outcome of a Java call that either returns normally or throws. */
  datatype Result<+T, +E> = Ok(value: T) | Err(error: E)
}
