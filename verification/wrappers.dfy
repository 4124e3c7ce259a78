/** Optional values: a JavaScript `x | null` slot, or a JSON key that may be missing. */
module Wrappers {

  datatype Option<+T> = None | Some(value: T)

}
