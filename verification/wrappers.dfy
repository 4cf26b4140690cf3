/** The optional-value datatype used for a JSON bind that may fail and for a
    search that may find nothing. */
module Wrappers {

  datatype Option<+T> = None | Some(value: T)
}
