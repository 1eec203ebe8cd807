/** Optional values used for the emulator's error paths. */
module Outcomes {

  datatype Option<T> = None | Some(value: T)
}
