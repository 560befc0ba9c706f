/** A minimal optional value, used for "the first territory with this name". */
module Wrappers {

  datatype Option<+T> = None | Some(value: T)
}
