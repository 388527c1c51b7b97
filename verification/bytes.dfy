/** The bytes of process output and of UTF-8 text. */
module Bytes {
  newtype Byte = x: int | 0 <= x < 256
}
