/** The optional value used wherever the modelled code reads a value that may be
    `undefined`: a missing map key, an empty array's `pop()`, an invalid date. */
module Wrappers {

  datatype Option<+T> = None | Some(value: T)
}
