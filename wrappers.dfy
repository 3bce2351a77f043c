/** The optional value used for a missing price label, a failed lookup and an empty queue slot. */
module Wrappers {
  datatype Option<+T> = None | Some(value: T)
}
