/** The optional-value datatype used for dictionary lookups and for the
    outcome of decoding a frame. */
module Wrappers {

  datatype Option<+T> = None | Some(value: T)
}
