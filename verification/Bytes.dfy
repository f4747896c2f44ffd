/** Bytes as the wire and the queues see them. */
module Bytes {
  type byte = x: int | 0 <= x < 256
  type Data = seq<byte>
}
