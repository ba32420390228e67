/** Optional values: a JavaScript value that may be `undefined`/`null`, or a SQL column that may be NULL. */
module Wrappers {
  datatype Option<+T> = None | Some(value: T)
}
