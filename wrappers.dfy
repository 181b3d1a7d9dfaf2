/** Failure-compatible optional value, used for the per-commit statistics that may fail to load. */
module Wrappers {
  datatype Option<+T> = None | Some(value: T)
}
