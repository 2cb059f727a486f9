/** Optional values and operation outcomes shared by every part of the model. */
module Wrappers {

  datatype Option<+T> = None | Some(value: T)

  /** The result of an operation that the program reports by returning or by throwing. */
  datatype Outcome<+E> = Ok | Refused(error: E)
}
