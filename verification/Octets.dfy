/** Bytes, as every part of the model takes them. */
module Octets {
  type Byte = b: nat | b < 256

  type Bytes = seq<Byte>
}
