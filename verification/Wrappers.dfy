/** Small shared vocabulary: optional values and the byte type. */
module Wrappers {

  datatype Option<+T> = None | Some(value: T) {

    function GetOr(default: T): T {
      match this
      case Some(v) => v
      case None => default
    }
  }

  type byte = b: int | 0 <= b < 256

  /** The unsigned integers of the settings and of the wire. */
  type u8 = n: int | 0 <= n < 0x100
  type u16 = n: int | 0 <= n < 0x1_0000
  type u32 = n: int | 0 <= n < 0x1_0000_0000
  type u64 = n: int | 0 <= n < 0x1_0000_0000_0000_0000

  /** A string as its UTF-8 bytes; on a stream it is preceded by its length. */
  type Utf8 = s: seq<byte> | |s| < 0x1_0000_0000 witness []
}
