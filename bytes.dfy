/** Octets as the Rust code handles them (`u8`). */
module Bytes {
  newtype byte = x: int | 0 <= x < 256
}
