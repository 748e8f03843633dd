/** The optional value used for the result of parsing a text field. */
module Wrappers {

  /** `None` stands for a failed parse, `Some(v)` for a successful one. */
  datatype Option<+T> = None | Some(value: T)
}
