/** Option and Outcome, the two result shapes the model needs. */
module Wrappers {

  /** A value that may be absent: JavaScript's `undefined`/`null` versus a value. */
  datatype Option<+T> = None | Some(value: T)

  /** The settlement of a `Promise<void>`: resolved, or rejected with an error. */
  datatype Outcome<+E> = Pass | Fail(error: E)
}
