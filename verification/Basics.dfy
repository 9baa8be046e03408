/**
 What all parts of the library share: the kinds of operation, and bytes.
 */
module Basics {
  datatype Op = SEND | RECV | PUT | PUT_SIGNAL

  type Byte = b: int | 0 <= b < 256
  type Bytes = seq<Byte>
}
