/** A value that may be missing. */
module Options {

  datatype Option<+T> = None | Some(value: T)
}

/** Bytes, as numbers. */
module Octets {

  type Byte = x: int | 0 <= x < 256 witness 0

  type Bytes = seq<Byte>
}
