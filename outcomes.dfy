/** Failure-carrying wrappers shared by every module of the model. */
module Outcomes {

  /** Rust's `Option<T>`. */
  datatype Option<+T> = None | Some(value: T)

  /**
   * The result of Rust code that may panic: either it returned a value or it
   * unwound (an `unwrap` on an error, an `expect`, a `panic!`).  A panic is
   * not a value the caller sees; the supervisor's `catch_unwind` is the only
   * place that turns it back into control flow.
   */
  datatype Outcome<+T> = Returned(value: T) | Panicked
}
