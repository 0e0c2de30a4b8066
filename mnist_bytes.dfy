/**
 * The byte-order helper of the MNIST reader (Sources/Modules/MNIST/Module/MyMNISTManager.cs):
 * IDX files store their header integers most significant byte first, while
 * `BinaryReader.ReadInt32` and `BitConverter` work least significant byte first, so every
 * header field is passed through `ReverseBytes` after it is read.
 */
module MnistBytes {

  /** An unsigned 8-bit value. */
  type Byte = b: int | 0 <= b < 0x100

  /** A signed 32-bit value, as C#'s `int`. */
  type Int32 = v: int | -0x8000_0000 <= v < 0x8000_0000

  /** The unsigned reading of the two's-complement bit pattern of `v`. */
  function Unsigned(v: Int32): (u: int)
    ensures 0 <= u < 0x1_0000_0000
    ensures u % 0x1_0000_0000 == v % 0x1_0000_0000
  {
    if v < 0 then v + 0x1_0000_0000 else v
  }

  /** The signed value whose two's-complement bit pattern reads as `u`. */
  function Signed(u: int): (v: Int32)
    requires 0 <= u < 0x1_0000_0000
    ensures Unsigned(v) == u
  {
    if u < 0x8000_0000 then u else u - 0x1_0000_0000
  }

  /** `BitConverter.GetBytes(int)` on a little-endian machine: least significant byte first. */
  function LittleEndianBytes(v: Int32): (bs: seq<Byte>)
    ensures |bs| == 4
  {
    var u := Unsigned(v);
    [u % 0x100, (u / 0x100) % 0x100, (u / 0x1_0000) % 0x100, u / 0x100_0000]
  }

  /** `BitConverter.ToInt32(bytes, 0)`: four bytes, least significant first, as a signed value. */
  function FromLittleEndian(bs: seq<Byte>): Int32
    requires |bs| == 4
  {
    Signed(bs[0] as int + 0x100 * bs[1] as int + 0x1_0000 * bs[2] as int + 0x100_0000 * bs[3] as int)
  }

  /** Four bytes, most significant first, as a signed value: how an IDX header stores an integer. */
  function FromBigEndian(bs: seq<Byte>): Int32
    requires |bs| == 4
  {
    Signed(0x100_0000 * bs[0] as int + 0x1_0000 * bs[1] as int + 0x100 * bs[2] as int + bs[3] as int)
  }

  /** `Array.Reverse`: the same elements in the opposite order. */
  function Reverse<T>(s: seq<T>): (r: seq<T>)
    ensures |r| == |s|
    ensures forall i | 0 <= i < |s| :: r[i] == s[|s| - 1 - i]
  {
    if s == [] then [] else Reverse(s[1..]) + [s[0]]
  }

  /** Splitting an unsigned 32-bit value into bytes and putting them back together gives the value. */
  lemma {:induction false} BytesRecombine(u: int)
    requires 0 <= u < 0x1_0000_0000
    ensures var b0, b1, b2, b3 := u % 0x100, (u / 0x100) % 0x100, (u / 0x1_0000) % 0x100, u / 0x100_0000;
      b0 + 0x100 * b1 + 0x1_0000 * b2 + 0x100_0000 * b3 == u && 0 <= b3 < 0x100
  {
    var q1 := u / 0x100;
    var q2 := q1 / 0x100;
    assert u == 0x100 * q1 + u % 0x100;
    assert q1 == 0x100 * q2 + q1 % 0x100;
    assert q2 == 0x100 * (q2 / 0x100) + q2 % 0x100;
    assert q2 == u / 0x1_0000;
    assert q2 / 0x100 == u / 0x100_0000;
  }

  /** Four bytes put together and split again give the same four bytes. */
  lemma {:induction false} BytesSplit(b0: Byte, b1: Byte, b2: Byte, b3: Byte)
    ensures var u := b0 as int + 0x100 * b1 as int + 0x1_0000 * b2 as int + 0x100_0000 * b3 as int;
      && 0 <= u < 0x1_0000_0000
      && u % 0x100 == b0 && (u / 0x100) % 0x100 == b1
      && (u / 0x1_0000) % 0x100 == b2 && u / 0x100_0000 == b3
  {
    var u := b0 as int + 0x100 * b1 as int + 0x1_0000 * b2 as int + 0x100_0000 * b3 as int;
    var q1 := b1 as int + 0x100 * b2 as int + 0x1_0000 * b3 as int;
    var q2 := b2 as int + 0x100 * b3 as int;
    assert u == b0 + 0x100 * q1;
    assert u / 0x100 == q1 && u % 0x100 == b0;
    assert q1 == b1 + 0x100 * q2;
    assert q1 / 0x100 == q2 && q1 % 0x100 == b1;
    assert u / 0x1_0000 == q2;
    assert q2 / 0x100 == b3 && q2 % 0x100 == b2;
    assert u / 0x100_0000 == b3;
  }

  /** Decoding the bytes `GetBytes` produces gives back the value. */
  lemma DecodeEncode(v: Int32)
    ensures FromLittleEndian(LittleEndianBytes(v)) == v
  {
    BytesRecombine(Unsigned(v));
  }

  /** Encoding a decoded value gives back the four bytes. */
  lemma EncodeDecode(bs: seq<Byte>)
    requires |bs| == 4
    ensures LittleEndianBytes(FromLittleEndian(bs)) == bs
  {
    BytesSplit(bs[0], bs[1], bs[2], bs[3]);
  }

  /** `ReverseBytes`: the value whose bytes are those of `value` in the opposite order. */
  function ReverseBytes(value: Int32): (r: Int32)
    ensures LittleEndianBytes(r) == Reverse(LittleEndianBytes(value))
  {
    var intAsBytes := Reverse(LittleEndianBytes(value));
    EncodeDecode(intAsBytes);
    FromLittleEndian(intAsBytes)
  }

  /** Swapping the byte order twice gives back the value. */
  lemma ReverseBytesInvolution(value: Int32)
    ensures ReverseBytes(ReverseBytes(value)) == value
  {
    var bs := LittleEndianBytes(value);
    assert Reverse(Reverse(bs)) == bs;
    DecodeEncode(ReverseBytes(ReverseBytes(value)));
    DecodeEncode(value);
  }

  /**
   * Reading the four bytes of an IDX header field with `ReadInt32` and then applying
   * `ReverseBytes` yields the field's big-endian value.
   */
  lemma ReadsBigEndianField(bs: seq<Byte>)
    requires |bs| == 4
    ensures ReverseBytes(FromLittleEndian(bs)) == FromBigEndian(bs)
  {
    EncodeDecode(bs);
    var r := Reverse(bs);
    assert r == [bs[3], bs[2], bs[1], bs[0]];
    EncodeDecode(r);
  }

  /** The magic number 2051 of an IDX image file and its image count 60000, as read from disk. */
  lemma ImageFileHeaderExample()
    ensures ReverseBytes(FromLittleEndian([0x00, 0x00, 0x08, 0x03])) == 2051
    ensures ReverseBytes(FromLittleEndian([0x00, 0x00, 0xEA, 0x60])) == 60000
  {
    ReadsBigEndianField([0x00, 0x00, 0x08, 0x03]);
    ReadsBigEndianField([0x00, 0x00, 0xEA, 0x60]);
  }
}
