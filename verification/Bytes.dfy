/** The bytes of audio files and of query strings. */
module Bytes {
  newtype Byte = x: int | 0 <= x < 256
}
