/** Small wrappers shared by the modules: an optional value and a pass/fail outcome. */
module Common {

  /** An absent eta, "no batch found", or a missing entry. */
  datatype Option<+T> = None | Some(value: T)

  /** The outcome of an operation that either completes or raises `error`. */
  datatype Outcome<+E> = Pass | Fail(error: E)

}
