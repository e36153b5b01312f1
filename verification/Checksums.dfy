/** The checksum that travels with payloads: crc32c_bytes of src/core/yisync_protocol.cpp. */
module Checksums {
  import opened Wire
  import Crc32c

  function Bits(s: Bytes): seq<bv8> { seq(|s|, i requires 0 <= i < |s| => s[i] as bv8) }

  /** The CRC-32C of `s`, low byte first. */
  function Crc32cBytes(s: Bytes): (r: Bytes)
    ensures |r| == 4
  {
    Le32(Crc32c.Extend(Crc32c.Zero(), Bits(s)).v as int)
  }
}
