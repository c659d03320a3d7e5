/** The optional value used for a parsed amount that may be "not a number"
    and for a label that may or may not carry a percentage. */
module Wrappers {

  datatype Option<+T> = None | Some(value: T)
}
