/** The two result-carrying datatypes used across the project. */
module Wrappers {

  datatype Option<+T> = None | Some(value: T)

  datatype Result<+T, +E> = Ok(value: T) | Err(error: E)

  /** Unsigned 32-bit values: ports, CIDs, versions, minutes and seconds on the wire. */
  const TWO_TO_THE_32: int := 0x1_0000_0000
  type u32 = x: int | 0 <= x < TWO_TO_THE_32
}
