/** Bytes of files, chunks and payloads. */
module Bytes {
  newtype Byte = x: int | 0 <= x < 256
}
