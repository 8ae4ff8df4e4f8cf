/** The optional value used for "file found / not found" and "line matched / not matched". */
module Wrappers {
  datatype Option<+T> = None | Some(value: T)
}
