/** The optional-value type used for the roller's optional configuration. */
module Wrappers {

  /** An absent (`None`) or present (`Some`) value. */
  datatype Option<+T> = None | Some(value: T)
}
