/** The optional-value datatype used for uploads that may be absent and for
    column lookups that may find nothing. */
module Wrappers {
  datatype Option<+T> = None | Some(value: T)
}
