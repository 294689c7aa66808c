/** Optional values: `undefined`/`null` on the JavaScript side, NULL in a table cell. */
module Wrappers {

  datatype Option<+T> = None | Some(value: T)
}
