/** Variable-length packets with a six-byte primary header and a trailing CRC. */
module SpacePackets {
  import opened Outcomes
  import opened Wire
  import opened Checksum

  const HEADER_SIZE := 6
  const CRC_SIZE := 4
  const MAX_APID := 0x7FF
  const MAX_SEQUENCE := 0x3FFF

  /** PacketError with its cause, or the struct.error of a length that does not fit
      the 16-bit field. */
  datatype PacketError =
    | ApidOutOfRange
    | BadPacketType
    | SequenceOutOfRange
    | EmptyPayload
    | LengthFieldOverflow
    | TooShort
    | LengthMismatch
    | CrcMismatch
    | UnsupportedVersion

  datatype SpacePacket = SpacePacket(apid: int, sequenceCount: int, payload: Bytes, packetType: int)

  /** The primary header, the payload, and the CRC over both. */
  function Assemble(firstWord: int, secondWord: int, dataLength: int, payload: Bytes): (raw: Bytes)
    requires 0 <= firstWord < TWO_TO_16 && 0 <= secondWord < TWO_TO_16 && 0 <= dataLength < TWO_TO_16
  {
    var covered := Put16(firstWord) + Put16(secondWord) + Put16(dataLength) + payload;
    covered + PutWord(Crc32(covered))
  }

  function Encode(packet: SpacePacket): Result<Bytes, PacketError> {
    if !(0 <= packet.apid <= MAX_APID) then Err(ApidOutOfRange)
    else if packet.packetType !in {0, 1} then Err(BadPacketType)
    else if !(0 <= packet.sequenceCount <= MAX_SEQUENCE) then Err(SequenceOutOfRange)
    else if packet.payload == [] then Err(EmptyPayload)
    else if |packet.payload| + CRC_SIZE - 1 >= TWO_TO_16 then Err(LengthFieldOverflow)
    else
      Ok(Assemble(
           packet.packetType * 0x1000 + 0x800 + packet.apid,
           0xC000 + packet.sequenceCount,
           |packet.payload| + CRC_SIZE - 1,
           packet.payload))
  }

  function Decode(raw: Bytes): Result<SpacePacket, PacketError> {
    if |raw| < HEADER_SIZE + CRC_SIZE + 1 then Err(TooShort)
    else
      var firstWord, secondWord, dataLength := Get16(raw[..2]), Get16(raw[2..4]), Get16(raw[4..6]);
      var crcAt := |raw| - CRC_SIZE;
      if |raw| != HEADER_SIZE + dataLength + 1 then Err(LengthMismatch)
      else if GetWord(raw[crcAt..]) != Crc32(raw[..crcAt]) then Err(CrcMismatch)
      else if (firstWord / 0x2000) % 8 != 0 then Err(UnsupportedVersion)
      else Ok(SpacePacket(firstWord % 0x800, secondWord % 0x4000, raw[HEADER_SIZE..crcAt], (firstWord / 0x1000) % 2))
  }

  // ----- what the format promises -----

  /** 65,532 is the longest payload whose length field fits: length + 4 - 1 < 65,536. */
  predicate ValidPacket(packet: SpacePacket) {
    && 0 <= packet.apid < 2048
    && 0 <= packet.sequenceCount < 16384
    && 0 <= packet.packetType < 2
    && 1 <= |packet.payload| <= 65_532
  }

  /** The secondary-header flag of the first header word. */
  predicate SecondaryHeader(raw: Bytes)
    requires |raw| >= HEADER_SIZE
  {
    (Get16(raw[..2]) / 0x800) % 2 == 1
  }

  function SequenceFlags(raw: Bytes): int
    requires |raw| >= HEADER_SIZE
  {
    Get16(raw[2..4]) / 0x4000
  }

  lemma EncodeIffValid(packet: SpacePacket)
    ensures Encode(packet).Ok? <==> ValidPacket(packet)
  {
  }

  lemma Slices(a: Bytes, b: Bytes, c: Bytes, payload: Bytes, crc: Bytes)
    requires |a| == |b| == |c| == 2 && |crc| == 4
    ensures var raw := a + b + c + payload + crc;
            && raw[..2] == a && raw[2..4] == b && raw[4..6] == c
            && raw[6..|raw| - 4] == payload
            && raw[..|raw| - 4] == a + b + c + payload
            && raw[|raw| - 4..] == crc
  {
  }

  lemma Join(raw: Bytes)
    requires |raw| >= 10
    ensures raw == raw[..2] + raw[2..4] + raw[4..6] + raw[6..|raw| - 4] + raw[|raw| - 4..]
    ensures raw[..|raw| - 4] == raw[..2] + raw[2..4] + raw[4..6] + raw[6..|raw| - 4]
  {
  }

  lemma DecodeInvertsEncode(packet: SpacePacket)
    requires ValidPacket(packet)
    ensures Encode(packet).Ok? && Decode(Encode(packet).value) == Ok(packet)
  {
    var first, second := packet.packetType * 0x1000 + 0x800 + packet.apid, 0xC000 + packet.sequenceCount;
    var length := |packet.payload| + 3;
    var crc := Crc32(Put16(first) + Put16(second) + Put16(length) + packet.payload);
    assert Encode(packet) == Ok(Assemble(first, second, length, packet.payload));
    Slices(Put16(first), Put16(second), Put16(length), packet.payload, PutWord(crc));
    GetPut16(first);
    GetPut16(second);
    GetPut16(length);
    GetPutWord(crc);
    FirstWordFields(packet.packetType, packet.apid);
    SecondWordField(packet.sequenceCount);
    DecodedFrom(Encode(packet).value, first, second, length, packet.payload, crc);
  }

  /** Three big-endian words: type, secondary-header flag and APID in the first, the sequence
      flags 3 and the count in the second, the length of what follows the header less one. */
  predicate HeaderLayout(packet: SpacePacket, raw: Bytes) {
    && |raw| >= 6
    && 256 * IntOf(raw[0]) + IntOf(raw[1]) == 4096 * packet.packetType + 2048 + packet.apid
    && 256 * IntOf(raw[2]) + IntOf(raw[3]) == 3 * 16384 + packet.sequenceCount
    && 256 * IntOf(raw[4]) + IntOf(raw[5]) == |packet.payload| + 3
  }

  /** After the header come the payload, and the checksum of both. */
  lemma WireLayout(packet: SpacePacket)
    requires ValidPacket(packet)
    ensures Encode(packet).Ok?
    ensures var raw, n := Encode(packet).value, |packet.payload|;
            && |raw| == n + 10
            && HeaderLayout(packet, raw)
            && raw[6..n + 6] == packet.payload
            && raw[n + 6..] == PutWord(Crc32(raw[..n + 6]))
  {
    hide Put16, PutWord, Crc32, Encode, HeaderLayout;
    var first, second := packet.packetType * 0x1000 + 0x800 + packet.apid, 0xC000 + packet.sequenceCount;
    var length := |packet.payload| + 3;
    var crc := Crc32(Put16(first) + Put16(second) + Put16(length) + packet.payload);
    EncodedParts(packet);
    Slices(Put16(first), Put16(second), Put16(length), packet.payload, PutWord(crc));
    HeaderBytes(packet, Encode(packet).value);
  }

  lemma HeaderBytes(packet: SpacePacket, raw: Bytes)
    requires ValidPacket(packet) && |raw| >= 6
    requires raw[..2] == Put16(packet.packetType * 0x1000 + 0x800 + packet.apid)
    requires raw[2..4] == Put16(0xC000 + packet.sequenceCount) && raw[4..6] == Put16(|packet.payload| + 3)
    ensures HeaderLayout(packet, raw)
  {
    hide Put16, Get16, IntOf;
    GetPut16(packet.packetType * 0x1000 + 0x800 + packet.apid);
    GetPut16(0xC000 + packet.sequenceCount);
    GetPut16(|packet.payload| + 3);
    HeadWords(raw);
  }

  lemma EncodedParts(packet: SpacePacket)
    requires ValidPacket(packet)
    ensures Encode(packet).Ok?
    ensures var first, second := packet.packetType * 0x1000 + 0x800 + packet.apid, 0xC000 + packet.sequenceCount;
            var covered := Put16(first) + Put16(second) + Put16(|packet.payload| + 3) + packet.payload;
            Encode(packet).value == covered + PutWord(Crc32(covered))
  {
    hide Put16, PutWord, Crc32;
  }

  lemma HeadWords(raw: Bytes)
    requires |raw| >= 6
    ensures Get16(raw[..2]) == 256 * IntOf(raw[0]) + IntOf(raw[1])
    ensures Get16(raw[2..4]) == 256 * IntOf(raw[2]) + IntOf(raw[3])
    ensures Get16(raw[4..6]) == 256 * IntOf(raw[4]) + IntOf(raw[5])
  {
    hide IntOf;
  }

  /** What is not encoded is refused for the first field that is out of range. */
  lemma EncodeRefusal(packet: SpacePacket)
    ensures Encode(packet).Err? ==>
              Encode(packet).error ==
              if packet.apid < 0 || packet.apid > 2047 then ApidOutOfRange
              else if packet.packetType < 0 || packet.packetType > 1 then BadPacketType
              else if packet.sequenceCount < 0 || packet.sequenceCount > 16383 then SequenceOutOfRange
              else if |packet.payload| == 0 then EmptyPayload else LengthFieldOverflow
  {
    hide Assemble;
  }

  /** And what is no packet is refused for its length first, then its length field, then its
      checksum, and its version last. */
  lemma DecodeRefusal(raw: Bytes)
    ensures Decode(raw).Err? ==>
              Decode(raw).error ==
              if |raw| < 11 then TooShort
              else if |raw| != 7 + Get16(raw[4..6]) then LengthMismatch
              else if GetWord(raw[|raw| - 4..]) != Crc32(raw[..|raw| - 4]) then CrcMismatch else UnsupportedVersion
  {
    hide Get16, GetWord, Crc32;
  }

  /** Exactly these byte strings are packets. */
  lemma AcceptedIff(raw: Bytes)
    ensures Decode(raw).Ok? <==>
            && 11 <= |raw| == 7 + Get16(raw[4..6])
            && IntOf(raw[0]) < 0x20
            && GetWord(raw[|raw| - 4..]) == Crc32(raw[..|raw| - 4])
  {
    if |raw| >= 11 {
      assert raw[..2][0] == raw[0];
    }
  }

  /** Decoding, from the slices of the bytes. */
  lemma DecodedFrom(raw: Bytes, first: int, second: int, length: int, payload: Bytes, crc: bv32)
    requires |raw| == length + 7 && length >= 4
    requires Get16(raw[..2]) == first && Get16(raw[2..4]) == second && Get16(raw[4..6]) == length
    requires raw[6..|raw| - 4] == payload
    requires GetWord(raw[|raw| - 4..]) == crc == Crc32(raw[..|raw| - 4])
    requires (first / 0x2000) % 8 == 0
    ensures Decode(raw) == Ok(SpacePacket(first % 0x800, second % 0x4000, payload, (first / 0x1000) % 2))
  {
  }

  lemma SecondWordField(count: int)
    requires 0 <= count < 16384
    ensures (0xC000 + count) % 0x4000 == count
  {
  }

  lemma FirstWordFields(packetType: int, apid: int)
    requires 0 <= packetType < 2 && 0 <= apid < 2048
    ensures var first := packetType * 0x1000 + 0x800 + apid;
            first % 0x800 == apid && (first / 0x1000) % 2 == packetType && (first / 0x2000) % 8 == 0
            && (first / 0x800) % 2 == 1
  {
  }

  /** The decoder drops two header fields. A decoded packet encodes back to the bytes
      it came from exactly when those fields hold what the encoder always writes. */
  lemma ReencodeIff(raw: Bytes)
    requires Decode(raw).Ok?
    ensures ValidPacket(Decode(raw).value)
    ensures Encode(Decode(raw).value) == Ok(raw) <==> SecondaryHeader(raw) && SequenceFlags(raw) == 3
  {
    var packet := Decode(raw).value;
    var first, second, length := Get16(raw[..2]), Get16(raw[2..4]), Get16(raw[4..6]);
    var first', second' := packet.packetType * 0x1000 + 0x800 + packet.apid, 0xC000 + packet.sequenceCount;
    var crc' := Crc32(Put16(first') + Put16(second') + Put16(length) + packet.payload);
    DecodedIsValid(raw);
    assert Encode(packet) == Ok(Assemble(first', second', length, packet.payload));
    WordsOf(first, second);
    Join(raw);
    PutGet16(raw[..2]);
    PutGet16(raw[2..4]);
    PutGet16(raw[4..6]);
    PutGetWord(raw[|raw| - 4..]);
    if first != first' || second != second' {
      Slices(Put16(first'), Put16(second'), Put16(length), packet.payload, PutWord(crc'));
      GetPut16(first');
      GetPut16(second');
    }
  }

  lemma DecodedIsValid(raw: Bytes)
    requires Decode(raw).Ok?
    ensures ValidPacket(Decode(raw).value) && |Decode(raw).value.payload| == Get16(raw[4..6]) - 3
  {
  }

  lemma WordsOf(first: int, second: int)
    requires 0 <= first < TWO_TO_16 && 0 <= second < TWO_TO_16 && (first / 0x2000) % 8 == 0
    ensures first == (first / 0x1000) % 2 * 0x1000 + 0x800 + first % 0x800 <==> (first / 0x800) % 2 == 1
    ensures second == 0xC000 + second % 0x4000 <==> second / 0x4000 == 3
  {
  }
}
