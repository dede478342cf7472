/** An optional value: a limit that may be absent, or an objective value that may be undefined. */
module Wrappers {

  datatype Option<+T> = None | Some(value: T)

}
