/** An optional value: the explorer's "nothing was issued" and "no such field" cases. */
module Wrappers {

  datatype Option<+T> = None | Some(value: T)
}
