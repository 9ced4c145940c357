/** Optional values, standing in for the nullable pointers of the game. */
module Wrappers {

  datatype Option<+T> = None | Some(value: T)
}
