/** The optional value used where the source reads an element that may be
    `undefined` (an index past the end of a string). */
module Wrappers {

  datatype Option<+T> = None | Some(value: T)
}
