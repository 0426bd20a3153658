/** Byte strings. */
module Octets {
  type Octet = x: int | 0 <= x < 256
  type Bytes = seq<Octet>
}
