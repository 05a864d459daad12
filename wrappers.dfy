/** Optional values: the `null` of `currentLed1`/`currentLed2` before the first start. */
module Wrappers {
  datatype Option<+T> = None | Some(value: T)
}
