/** Option, Result and Outcome values used for Java's nullable references and thrown exceptions. */
module Wrappers {

  /** A nullable reference: `None` stands for Java's `null`. */
  datatype Option<+T> = None | Some(value: T)

  /** The value of a call that either returns normally or throws. */
  datatype Result<+R, +E> = Ok(value: R) | Err(error: E)

  /** The outcome of a `void` call that either completes or throws. */
  datatype Outcome<+E> = Pass | Fail(error: E)
}
