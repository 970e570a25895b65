/** A value that may be absent: a missing optional field, an identifier
    that does not parse, an insert that reports no identifier. */
module Wrappers {
  datatype Option<T> = None | Some(value: T)
}
