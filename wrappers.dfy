/** The optional value used for absent command-line arguments and absent JSON keys. */
module Wrappers {

  datatype Option<+T> = None | Some(value: T)
}
