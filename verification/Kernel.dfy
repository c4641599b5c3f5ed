/** What the modelled code sees of the operating system. */
module Kernel {

  newtype Byte = x: int | 0 <= x < 256

  type Bytes = seq<Byte>

  const EINTR := 4
  const EWOULDBLOCK := 11

  /** readv: any bytes, none at end of file, or -1 with errno. */
  datatype ReadResult = Arrived(data: Bytes) | ReadFailed(errno: int)

  /** write: any count up to the one asked for, or -1 with errno. */
  datatype WriteResult = Wrote(n: nat) | WriteFailed(errno: int)
}
