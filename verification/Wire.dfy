/** Bytes, and the big-endian fixed-width integers that struct.pack and
    struct.unpack move in and out of them. */
module Wire {

  type Bytes = seq<bv8>

  const TWO_TO_16 := 0x1_0000
  const TWO_TO_32 := 0x1_0000_0000
  const TWO_TO_64 := 0x1_0000_0000_0000_0000

  function ByteOf(value: int): (b: bv8)
    requires 0 <= value < 256
    ensures b as int == value
  {
    IntOfByte(value);
    var b: bv8 :| b as int == value;
    b
  }

  lemma {:induction false} IntOfByte(value: int)
    requires 0 <= value < 256
    ensures (value as bv8) as int == value
  {
    if value > 0 {
      IntOfByte(value - 1);
      Increment((value - 1) as bv8);
    }
  }

  lemma Increment(b: bv8)
    requires b != 255
    ensures (b + 1) as int == b as int + 1
    ensures (b as int + 1) as bv8 == b + 1
  {
  }

  function IntOf(b: bv8): (value: int)
    ensures 0 <= value < 256 && ByteOf(value) == b
  {
    b as int
  }

  function Put16(value: int): (bytes: Bytes)
    requires 0 <= value < TWO_TO_16
    ensures |bytes| == 2
  {
    [ByteOf(value / 256), ByteOf(value % 256)]
  }

  function Get16(bytes: Bytes): (value: int)
    requires |bytes| == 2
    ensures 0 <= value < TWO_TO_16
  {
    IntOf(bytes[0]) * 256 + IntOf(bytes[1])
  }

  function Put32(value: int): (bytes: Bytes)
    requires 0 <= value < TWO_TO_32
    ensures |bytes| == 4
  {
    Put16(value / TWO_TO_16) + Put16(value % TWO_TO_16)
  }

  function Get32(bytes: Bytes): (value: int)
    requires |bytes| == 4
    ensures 0 <= value < TWO_TO_32
  {
    Get16(bytes[..2]) * TWO_TO_16 + Get16(bytes[2..])
  }

  function Put64(value: int): (bytes: Bytes)
    requires 0 <= value < TWO_TO_64
    ensures |bytes| == 8
  {
    Put32(value / TWO_TO_32) + Put32(value % TWO_TO_32)
  }

  function Get64(bytes: Bytes): (value: int)
    requires |bytes| == 8
    ensures 0 <= value < TWO_TO_64
  {
    Get32(bytes[..4]) * TWO_TO_32 + Get32(bytes[4..])
  }

  /** Two's complement, the "h" field of the telemetry body. */
  function PutSigned16(value: int): (bytes: Bytes)
    requires -0x8000 <= value < 0x8000
    ensures |bytes| == 2
  {
    Put16(if value < 0 then value + TWO_TO_16 else value)
  }

  function GetSigned16(bytes: Bytes): (value: int)
    requires |bytes| == 2
    ensures -0x8000 <= value < 0x8000
  {
    var unsigned := Get16(bytes);
    if unsigned >= 0x8000 then unsigned - TWO_TO_16 else unsigned
  }

  /** A 32-bit register as the four bytes struct.pack(">I", ...) gives, and back. */
  function PutWord(word: bv32): (bytes: Bytes)
    ensures |bytes| == 4
  {
    [(word >> 24) as bv8, ((word >> 16) & 0xFF) as bv8, ((word >> 8) & 0xFF) as bv8, (word & 0xFF) as bv8]
  }

  function JoinWord(b3: bv8, b2: bv8, b1: bv8, b0: bv8): bv32 {
    ((b3 as bv32) << 24) | ((b2 as bv32) << 16) | ((b1 as bv32) << 8) | (b0 as bv32)
  }

  function GetWord(bytes: Bytes): bv32
    requires |bytes| == 4
  {
    JoinWord(bytes[0], bytes[1], bytes[2], bytes[3])
  }

  // Each reader inverts its writer on the writer's whole range, and each writer
  // inverts its reader on every byte string of the right length.

  lemma GetPutWord(word: bv32)
    ensures GetWord(PutWord(word)) == word
  {
  }

  lemma SplitJoinedWord(b3: bv8, b2: bv8, b1: bv8, b0: bv8)
    ensures PutWord(JoinWord(b3, b2, b1, b0)) == [b3, b2, b1, b0]
  {
  }

  lemma PutGetWord(bytes: Bytes)
    requires |bytes| == 4
    ensures PutWord(GetWord(bytes)) == bytes
  {
    SplitJoinedWord(bytes[0], bytes[1], bytes[2], bytes[3]);
  }

  lemma GetPut16(value: int)
    requires 0 <= value < TWO_TO_16
    ensures Get16(Put16(value)) == value
  {
  }

  lemma PutGet16(bytes: Bytes)
    requires |bytes| == 2
    ensures Put16(Get16(bytes)) == bytes
  {
    Put16Joined(IntOf(bytes[0]), IntOf(bytes[1]));
    assert bytes == [bytes[0], bytes[1]];
  }

  lemma Put16Joined(high: int, low: int)
    requires 0 <= high < 256 && 0 <= low < 256
    ensures Put16(high * 256 + low) == [ByteOf(high), ByteOf(low)]
  {
    Digits(high, low, 256);
  }

  lemma Put32Joined(high: int, low: int)
    requires 0 <= high < TWO_TO_16 && 0 <= low < TWO_TO_16
    ensures Put32(high * TWO_TO_16 + low) == Put16(high) + Put16(low)
  {
    Digits(high, low, TWO_TO_16);
  }

  lemma Put64Joined(high: int, low: int)
    requires 0 <= high < TWO_TO_32 && 0 <= low < TWO_TO_32
    ensures Put64(high * TWO_TO_32 + low) == Put32(high) + Put32(low)
  {
    Digits(high, low, TWO_TO_32);
  }

  lemma Digits(high: int, low: int, base: int)
    requires base == 256 || base == TWO_TO_16 || base == TWO_TO_32
    requires 0 <= low < base
    ensures (high * base + low) / base == high && (high * base + low) % base == low
  {
  }

  lemma GetPut32(value: int)
    requires 0 <= value < TWO_TO_32
    ensures Get32(Put32(value)) == value
  {
    var high, low := value / TWO_TO_16, value % TWO_TO_16;
    GetPut16(high);
    GetPut16(low);
    assert Put32(value)[..2] == Put16(high) && Put32(value)[2..] == Put16(low);
  }

  lemma PutGet32(bytes: Bytes)
    requires |bytes| == 4
    ensures Put32(Get32(bytes)) == bytes
  {
    Put32Joined(Get16(bytes[..2]), Get16(bytes[2..]));
    PutGet16(bytes[..2]);
    PutGet16(bytes[2..]);
    assert bytes == bytes[..2] + bytes[2..];
  }

  lemma GetPut64(value: int)
    requires 0 <= value < TWO_TO_64
    ensures Get64(Put64(value)) == value
  {
    var high, low := value / TWO_TO_32, value % TWO_TO_32;
    GetPut32(high);
    GetPut32(low);
    assert Put64(value)[..4] == Put32(high) && Put64(value)[4..] == Put32(low);
  }

  lemma PutGet64(bytes: Bytes)
    requires |bytes| == 8
    ensures Put64(Get64(bytes)) == bytes
  {
    Put64Joined(Get32(bytes[..4]), Get32(bytes[4..]));
    PutGet32(bytes[..4]);
    PutGet32(bytes[4..]);
    assert bytes == bytes[..4] + bytes[4..];
  }

  lemma GetPutSigned16(value: int)
    requires -0x8000 <= value < 0x8000
    ensures GetSigned16(PutSigned16(value)) == value
  {
    GetPut16(if value < 0 then value + TWO_TO_16 else value);
  }

  lemma PutGetSigned16(bytes: Bytes)
    requires |bytes| == 2
    ensures PutSigned16(GetSigned16(bytes)) == bytes
  {
    PutGet16(bytes);
  }
}
