/** The optional value used wherever the source holds `null` or may omit a value. */
module Wrappers {
  datatype Option<+T> = None | Some(value: T)
}
