/** Bytes. */
module Bytes {
  type Byte = b: nat | b < 256
}
