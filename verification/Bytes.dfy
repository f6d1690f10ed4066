/** The bytes a Go string is made of. */
module Bytes {
  type Byte = b: nat | b < 256
}
