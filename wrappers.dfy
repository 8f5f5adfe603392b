/** Optional values and failure-carrying outcomes shared by the driver model. */
module Wrappers {

  datatype Option<+T> = None | Some(value: T)

  /** The outcome of an operation that yields no value, only success or an error. */
  datatype Outcome<+E> = Pass | Fail(error: E)
}
