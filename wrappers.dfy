/** The optional value used wherever the Go code returns a success flag
    together with an out-parameter that is written only on success. */
module Wrappers {

  datatype Option<+T> = None | Some(value: T)
}
