/** Optional values: the tri-state readiness flags (None, False, True) and absent results. */
module Wrappers {
  datatype Option<+T> = None | Some(value: T)
}
