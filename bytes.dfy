/** Fixed-width unsigned integers and big-endian byte order. */
module Bytes {

  type byte = x: int | 0 <= x < 0x100
  type uint16 = x: int | 0 <= x < 0x1_0000
  type uint32 = x: int | 0 <= x < 0x1_0000_0000

  /** Go's `binary.BigEndian.Uint16`. */
  function BigEndian16(data: seq<byte>): (n: uint16)
    requires |data| == 2
  {
    data[0] as int * 0x100 + data[1]
  }

  /** Go's `binary.BigEndian.PutUint16`. */
  function PutBigEndian16(n: uint16): (data: seq<byte>)
    ensures |data| == 2
  {
    [n / 0x100, n % 0x100]
  }

  /** Go's `binary.BigEndian.Uint32`. */
  function BigEndian32(data: seq<byte>): (n: uint32)
    requires |data| == 4
  {
    ((data[0] as int * 0x100 + data[1]) * 0x100 + data[2]) * 0x100 + data[3]
  }

  lemma DecodeEncode16(n: uint16)
    ensures BigEndian16(PutBigEndian16(n)) == n
  {
  }

  lemma EncodeDecode16(data: seq<byte>)
    requires |data| == 2
    ensures PutBigEndian16(BigEndian16(data)) == data
  {
    var n := BigEndian16(data);
    assert n / 0x100 == data[0] && n % 0x100 == data[1];
  }
}
