/** The optional value the engine uses where the program has `null` or `undefined`. */
module Wrappers {
  datatype Option<+T> = None | Some(value: T)
}
