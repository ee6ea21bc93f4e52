/** Absence and refusal: the result shape shared by the project. */
module Wrappers {
  datatype Option<+T> = None | Some(value: T)
}
