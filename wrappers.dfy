/** Optional values and the outcome of a read from a byte buffer. */
module Wrappers {

  datatype Option<+T> = None | Some(value: T)

  /** A decode either yields a value or stops with the RangeError that a
      DataView raises for a read past the end of its buffer. */
  datatype Result<+T> = Ok(value: T) | RangeError
}
