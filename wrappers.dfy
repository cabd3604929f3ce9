/** Optional values, standing in for the game's `T | null` and `T | undefined` fields. */
module Wrappers {

  datatype Option<+T> = None | Some(value: T)
}
