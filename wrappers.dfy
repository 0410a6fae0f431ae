/** Optional values shared by the animator (the snapshot slot) and the deck (an accepted move). */
module Wrappers {
  datatype Option<+T> = None | Some(value: T)
}
