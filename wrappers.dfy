/** The Option type used for values JavaScript may leave `undefined`. */
module Wrappers {

  datatype Option<+T> = None | Some(value: T)
}
