/** Byte-level reads of TSParser.py: the transport stream is a byte
    buffer, `readFile` reads a big-endian unsigned field from it, and
    header fields are cut out of the value read with shifts and masks. */
module TsBytes {
  import opened Common

  type Byte = b: nat | b < 256

  /** 256 to the power `n`. */
  function Pow256(n: nat): (r: nat)
    ensures r >= 1
  {
    if n == 0 then 1 else 256 * Pow256(n - 1)
  }

  /** The unsigned big-endian value of the `width` bytes at `pos`: most
      significant byte first. */
  function BigEndian(data: seq<Byte>, pos: nat, width: nat): nat
    requires pos + width <= |data|
  {
    if width == 0 then 0 else BigEndian(data, pos, width - 1) * 256 + data[pos + width - 1]
  }

  lemma {:induction false} BigEndianBound(data: seq<Byte>, pos: nat, width: nat)
    requires pos + width <= |data|
    ensures BigEndian(data, pos, width) < Pow256(width)
  {
    if width > 0 {
      BigEndianBound(data, pos, width - 1);
      assert BigEndian(data, pos, width - 1) * 256 <= (Pow256(width - 1) - 1) * 256;
    }
  }

  /** `readFile(filehandle, startPos, width)` for width 1, 2 or 4: the
      field at `pos`, or `None` when fewer than `width` bytes are left
      there, where `struct.unpack` raises `struct.error`. (The check
      `string == ''` compares `bytes` with `str` and never holds.) */
  function ReadFile(data: seq<Byte>, pos: nat, width: nat): (r: Option<nat>)
    requires width in {1, 2, 4}
    ensures r.Some? <==> pos + width <= |data|
  {
    if pos + width <= |data| then Some(BigEndian(data, pos, width)) else None
  }

  /** A field read is below 256 to the power of its width. */
  lemma ReadFileBound(data: seq<Byte>, pos: nat, width: nat)
    requires width in {1, 2, 4} && pos + width <= |data|
    ensures ReadFile(data, pos, width).value < Pow256(width)
  {
    BigEndianBound(data, pos, width);
  }

  /** A four-byte read is `struct.unpack('>L')` of those bytes. */
  lemma ReadFour(data: seq<Byte>, pos: nat)
    requires pos + 4 <= |data|
    ensures ReadFile(data, pos, 4).value
            == data[pos] as nat * 0x100_0000 + data[pos + 1] as nat * 0x1_0000
               + data[pos + 2] as nat * 0x100 + data[pos + 3]
  {
    ReadTwo(data, pos);
    assert BigEndian(data, pos, 3) == BigEndian(data, pos, 2) * 256 + data[pos + 2];
  }

  /** A two-byte read is `struct.unpack('>H')` of those bytes. */
  lemma ReadTwo(data: seq<Byte>, pos: nat)
    requires pos + 2 <= |data|
    ensures ReadFile(data, pos, 2).value == data[pos] as nat * 0x100 + data[pos + 1]
  {
    ReadOne(data, pos);
  }

  /** A one-byte read is that byte. */
  lemma ReadOne(data: seq<Byte>, pos: nat)
    requires pos + 1 <= |data|
    ensures ReadFile(data, pos, 1).value == data[pos]
  {
    assert BigEndian(data, pos, 1) == BigEndian(data, pos, 0) * 256 + data[pos];
  }

  /** `(x >> s) & (2^w - 1)` for a non-negative `x`, written with
      `unit` = 2^s and `size` = 2^w. */
  function Bits(x: nat, unit: nat, size: nat): (r: nat)
    requires unit > 0 && size > 0
    ensures r < size
    ensures x < unit ==> r == 0
  {
    (x / unit) % size
  }

  /** The top byte of a four-byte read, `x >> 24`, is the byte at `pos`. */
  lemma TopByte(data: seq<Byte>, pos: nat)
    requires pos + 4 <= |data|
    ensures ReadFile(data, pos, 4).value / 0x100_0000 == data[pos]
  {
    ReadFour(data, pos);
    var rest: nat := data[pos + 1] as nat * 0x1_0000 + data[pos + 2] as nat * 0x100 + data[pos + 3];
    assert rest < 0x100_0000;
    assert (data[pos] as nat * 0x100_0000 + rest) / 0x100_0000 == data[pos];
  }

  /** The three bytes of a start-code prefix `00 00 01` at `pos`: the
      test `(x & 0xFFFFFF00) == 0x00000100` on the four-byte read. */
  predicate StartCode(x: nat) {
    Bits(x, 0x100, 0x100_0000) == 1
  }

  /** A four-byte read at `pos` that starts with a prefix. */
  predicate StartCodeAt(data: seq<Byte>, pos: nat) {
    pos + 4 <= |data| && StartCode(ReadFile(data, pos, 4).value)
  }

  lemma StartCodeBytes(data: seq<Byte>, pos: nat)
    requires pos + 4 <= |data|
    ensures StartCodeAt(data, pos) <==>
              data[pos] == 0 && data[pos + 1] == 0 && data[pos + 2] == 1
  {
    ReadFour(data, pos);
    var v := ReadFile(data, pos, 4).value;
    var hi: nat := data[pos] as nat * 0x1_0000 + data[pos + 1] as nat * 0x100 + data[pos + 2];
    assert v == hi * 0x100 + data[pos + 3];
    assert v / 0x100 == hi;
    assert hi < 0x100_0000;
  }

  /** The low five bits of a four-byte read are those of its last byte. */
  lemma LowBitsOfLastByte(data: seq<Byte>, pos: nat)
    requires pos + 4 <= |data|
    ensures ReadFile(data, pos, 4).value % 0x20 == data[pos + 3] % 0x20
  {
    ReadFour(data, pos);
    var hi: nat := data[pos] as nat * 0x1_0000 + data[pos + 1] as nat * 0x100 + data[pos + 2];
    assert ReadFile(data, pos, 4).value == (hi * 8) * 0x20 + data[pos + 3];
  }

  /** The low byte of a four-byte read, `x & 0xFF`, is its last byte. */
  lemma LowByte(data: seq<Byte>, pos: nat)
    requires pos + 4 <= |data|
    ensures ReadFile(data, pos, 4).value % 0x100 == data[pos + 3]
  {
    ReadFour(data, pos);
    var hi: nat := data[pos] as nat * 0x1_0000 + data[pos + 1] as nat * 0x100 + data[pos + 2];
    assert ReadFile(data, pos, 4).value == hi * 0x100 + data[pos + 3];
  }

  /** payload_unit_start_indicator, `(x >> 22) & 1`, is bit 6 of the second byte. */
  lemma HeaderPusi(data: seq<Byte>, pos: nat)
    requires pos + 4 <= |data|
    ensures Bits(ReadFile(data, pos, 4).value, 0x40_0000, 2) == (data[pos + 1] as nat / 0x40) % 2
  {
    ReadFour(data, pos);
    var h := ReadFile(data, pos, 4).value;
    var b0: nat, b1: nat, b2: nat, b3: nat := data[pos], data[pos + 1], data[pos + 2], data[pos + 3];
    var top: nat := b0 * 4 + b1 / 0x40;
    var low: nat := (b1 % 0x40) * 0x1_0000 + b2 * 0x100 + b3;
    assert h == top * 0x40_0000 + low;
    assert h / 0x40_0000 == top;
    assert top % 2 == (b1 / 0x40) % 2;
  }

  /** The PID, `(x >> 8) & 0x1FFF`, is the five low bits of the second byte followed by the third. */
  lemma HeaderPid(data: seq<Byte>, pos: nat)
    requires pos + 4 <= |data|
    ensures Bits(ReadFile(data, pos, 4).value, 0x100, 0x2000) == (data[pos + 1] as nat % 0x20) * 0x100 + data[pos + 2] as nat
  {
    ReadFour(data, pos);
    var h := ReadFile(data, pos, 4).value;
    var b0: nat, b1: nat, b2: nat, b3: nat := data[pos], data[pos + 1], data[pos + 2], data[pos + 3];
    var mid: nat := b0 * 0x1_0000 + b1 * 0x100 + b2;
    assert h == mid * 0x100 + b3;
    assert h / 0x100 == mid;
    var q: nat, r: nat := b0 * 8 + b1 / 0x20, (b1 % 0x20) * 0x100 + b2;
    assert b1 == (b1 / 0x20) * 0x20 + b1 % 0x20;
    assert r < 0x2000;
    assert mid == q * 0x2000 + r;
    assert mid % 0x2000 == r;
  }

  /** adaptation_field_control, `(x >> 4) & 3`, is bits 5-4 of the fourth byte. */
  lemma HeaderControl(data: seq<Byte>, pos: nat)
    requires pos + 4 <= |data|
    ensures Bits(ReadFile(data, pos, 4).value, 0x10, 4) == (data[pos + 3] as nat / 0x10) % 4
  {
    ReadFour(data, pos);
    var h := ReadFile(data, pos, 4).value;
    var b0: nat, b1: nat, b2: nat, b3: nat := data[pos], data[pos + 1], data[pos + 2], data[pos + 3];
    var above: nat := b0 * 0x10_0000 + b1 * 0x1000 + b2 * 0x10 + b3 / 0x10;
    assert h == above * 0x10 + b3 % 0x10;
    assert h / 0x10 == above;
    assert above == (b0 * 0x4_0000 + b1 * 0x400 + b2 * 4 + (b3 / 0x10) / 4) * 4 + (b3 / 0x10) % 4;
  }

  /** The fields of a transport packet header (section 2.4.3.2 of
      ISO/IEC 13818-1) as the walk cuts them out of its four-byte read:
      the sync byte is the first byte, payload_unit_start_indicator bit 6
      of the second, the PID its five low bits followed by the third
      byte, and adaptation_field_control bits 5-4 of the fourth. */
  lemma PacketHeaderFields(data: seq<Byte>, pos: nat)
    requires pos + 4 <= |data|
    ensures var h := ReadFile(data, pos, 4).value;
            && h / 0x100_0000 == data[pos]
            && Bits(h, 0x40_0000, 2) == (data[pos + 1] as nat / 0x40) % 2
            && Bits(h, 0x100, 0x2000) == (data[pos + 1] as nat % 0x20) * 0x100 + data[pos + 2] as nat
            && Bits(h, 0x10, 4) == (data[pos + 3] as nat / 0x10) % 4
  {
    TopByte(data, pos);
    HeaderPusi(data, pos);
    HeaderPid(data, pos);
    HeaderControl(data, pos);
  }
}
