/** Optional values, for fields the source declares before it assigns them
    and for conversions that can fail. */
module Wrappers {
  datatype Option<T> = None | Some(value: T)
}
