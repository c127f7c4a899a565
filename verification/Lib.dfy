// Small shared datatypes.
module Lib {
  datatype Option<+T> = None | Some(value: T)
}
