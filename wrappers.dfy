/** Optional values: the `null` of the submitted record and the possibly
    missing navigation path. */
module Wrappers {
  datatype Option<+T> = None | Some(value: T)
}
