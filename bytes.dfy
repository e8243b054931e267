/** Bytes: the element type of Go's []byte. */
module Bytes {

  type byte = x: int | 0 <= x < 256
}
