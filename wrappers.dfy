/** The optional value used for C's nullable pointers (a NULL seed, a NULL token). */
module Wrappers {

  datatype Option<+T> = None | Some(value: T)
}
