/** The Option type used wherever a Go value may be absent or a Go call may fail. */
module Wrappers {

  datatype Option<+T> = None | Some(value: T)
}
