/** The optional value used wherever the exam screen keeps `null` or an absent field. */
module Wrappers {
  datatype Option<+T> = None | Some(value: T)
}
