/** Optional values: `undefined` fields, calls that may throw, and absent inputs. */
module Wrappers {
  datatype Option<+T> = None | Some(value: T)
}
