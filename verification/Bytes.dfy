/** The type of the bytes that buffers, sockets and files hold. */
module Bytes {
  newtype byte = b: int | 0 <= b < 256
}
