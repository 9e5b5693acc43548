/** Small value wrappers shared by the other modules. */
module Wrappers {

  /** An optional value (Go's nil-or-value results). */
  datatype Option<+T> = None | Some(value: T)

  /** The outcome of an external step whose only observable result is
      whether it returned a nil error. */
  datatype Outcome = Ok | Err
}
