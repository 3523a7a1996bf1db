/** The optional-value datatype used by the line matchers and the dictionaries. */
module Wrappers {

  datatype Option<+T> = None | Some(value: T)
}
