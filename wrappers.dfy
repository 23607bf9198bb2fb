/** An optional value: a navigation parameter that may be absent. */
module Wrappers {

  datatype Option<+T> = None | Some(value: T)
}
