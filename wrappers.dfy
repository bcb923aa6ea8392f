// Optional values, for results the source leaves undefined (NaN) or for the
// cases in which it raises.

module Wrappers {

  datatype Option<+T> = None | Some(value: T)
}
