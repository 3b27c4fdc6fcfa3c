/** Types shared by every component. */
module Common {

  datatype Option<+T> = None | Some(value: T)

  newtype Byte = b: int | 0 <= b < 256

  type Bytes = seq<Byte>

  /** A hash is any function from contents to digests; no collision claim is made about it. */
  type Hash = Bytes -> string

  /** Identifies one run of a worker process; the registry rejects empty ones. */
  type InstanceId = s: string | s != "" witness "instance"

  const TWO_62: int := 0x4000_0000_0000_0000
  const TWO_63: int := 0x8000_0000_0000_0000
  const TWO_64: int := 0x1_0000_0000_0000_0000

  /** The int64 a mathematical result wraps to. */
  function Wrap(x: int): int {
    (x + TWO_63) % TWO_64 - TWO_63
  }
}
