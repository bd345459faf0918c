/** Optional values: a JavaScript `undefined`, a missing map entry, a failed lookup. */
module Wrappers {
  datatype Option<+T> = None | Some(value: T)
}
