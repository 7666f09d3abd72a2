/** Byte strings. */
module Octets {

  type byte = b: int | 0 <= b < 256

  type Bytes = seq<byte>
}
