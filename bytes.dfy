/** Octets, as Python's `bytes` holds them. */
module Bytes {
  type Byte = x: int | 0 <= x < 256
}
