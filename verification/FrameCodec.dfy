/** The 28-byte telemetry frame, version 1. Times are integer microseconds since
    1970-01-01T00:00:00Z, so no rounding enters. */
module FrameCodec {
  import opened Outcomes
  import opened Wire
  import opened Checksum

  const PROTOCOL_VERSION := 1
  const SUPPORTED_PAYLOAD_ID := 1
  const BODY_SIZE := 24
  const FRAME_SIZE := 28
  const PROJECT_EPOCH_US := 1_767_225_600_000_000
  const MAX_FUTURE_SKEW_US := 300_000_000
  const MIN_TEMPERATURE_CENTI_C := -10_000
  const MAX_TEMPERATURE_CENTI_C := 15_000
  const MIN_VOLTAGE_MV := 0
  const MAX_VOLTAGE_MV := 50_000

  datatype Reason =
    | EMPTY_BODY
    | UNSUPPORTED_PROTOCOL_VERSION
    | INVALID_FRAME_LENGTH
    | CRC_MISMATCH
    | UNSUPPORTED_PAYLOAD_ID
    | INVALID_BOOT_ID
    | TIMESTAMP_BEFORE_PROJECT_EPOCH
    | TIMESTAMP_TOO_FAR_IN_FUTURE
    | TEMPERATURE_OUT_OF_RANGE
    | VOLTAGE_OUT_OF_RANGE
    | INVALID_OPERATING_MODE
    | RESERVED_FAULT_BITS_SET

  /** TelemetryValidationError with its named reason, or a plain ValueError. */
  datatype FrameError = Rejected(reason: Reason) | UnnamedValueError

  datatype TelemetryFrame = TelemetryFrame(
    protocolVersion: int,
    payloadId: int,
    bootId: int,
    sequenceNumber: int,
    timestampUs: int,
    temperatureCentiC: int,
    voltageMv: int,
    operatingMode: int,
    faultFlags: int)

  // ----- the code -----

  function ValidateFields(frame: TelemetryFrame, receivedUs: Option<int>): Option<FrameError> {
    if frame.protocolVersion != PROTOCOL_VERSION then Some(Rejected(UNSUPPORTED_PROTOCOL_VERSION))
    else if frame.payloadId != SUPPORTED_PAYLOAD_ID then Some(Rejected(UNSUPPORTED_PAYLOAD_ID))
    else if !(1 <= frame.bootId < TWO_TO_32) then Some(Rejected(INVALID_BOOT_ID))
    else if !(0 <= frame.sequenceNumber < TWO_TO_32) then Some(UnnamedValueError)
    else if !(0 <= frame.timestampUs < TWO_TO_64) then Some(UnnamedValueError)
    else if frame.timestampUs < PROJECT_EPOCH_US then Some(Rejected(TIMESTAMP_BEFORE_PROJECT_EPOCH))
    else if receivedUs.Some? && frame.timestampUs > receivedUs.value + MAX_FUTURE_SKEW_US then
      Some(Rejected(TIMESTAMP_TOO_FAR_IN_FUTURE))
    else if !(MIN_TEMPERATURE_CENTI_C <= frame.temperatureCentiC <= MAX_TEMPERATURE_CENTI_C) then
      Some(Rejected(TEMPERATURE_OUT_OF_RANGE))
    else if !(MIN_VOLTAGE_MV <= frame.voltageMv <= MAX_VOLTAGE_MV) then Some(Rejected(VOLTAGE_OUT_OF_RANGE))
    else if frame.operatingMode !in {0, 1, 2, 3} then Some(Rejected(INVALID_OPERATING_MODE))
    else if !(0 <= frame.faultFlags < 256) then Some(UnnamedValueError)
    else if (frame.faultFlags / 64) % 4 != 0 then Some(Rejected(RESERVED_FAULT_BITS_SET))
    else None
  }

  /** The values struct.Struct(">BBIIQhHBB").pack accepts. */
  predicate Packable(frame: TelemetryFrame) {
    && 0 <= frame.protocolVersion < 256
    && 0 <= frame.payloadId < 256
    && 0 <= frame.bootId < TWO_TO_32
    && 0 <= frame.sequenceNumber < TWO_TO_32
    && 0 <= frame.timestampUs < TWO_TO_64
    && -0x8000 <= frame.temperatureCentiC < 0x8000
    && 0 <= frame.voltageMv < TWO_TO_16
    && 0 <= frame.operatingMode < 256
    && 0 <= frame.faultFlags < 256
  }

  function Pack(frame: TelemetryFrame): (body: Bytes)
    requires Packable(frame)
    ensures |body| == BODY_SIZE
  {
    [ByteOf(frame.protocolVersion), ByteOf(frame.payloadId)]
    + Put32(frame.bootId)
    + Put32(frame.sequenceNumber)
    + Put64(frame.timestampUs)
    + PutSigned16(frame.temperatureCentiC)
    + Put16(frame.voltageMv)
    + [ByteOf(frame.operatingMode), ByteOf(frame.faultFlags)]
  }

  function Unpack(body: Bytes): (frame: TelemetryFrame)
    requires |body| == BODY_SIZE
    ensures Packable(frame)
  {
    TelemetryFrame(
      IntOf(body[0]), IntOf(body[1]), Get32(body[2..6]), Get32(body[6..10]), Get64(body[10..18]),
      GetSigned16(body[18..20]), Get16(body[20..22]), IntOf(body[22]), IntOf(body[23]))
  }

  function Encode(frame: TelemetryFrame, receivedUs: Option<int>): Result<Bytes, FrameError> {
    match ValidateFields(frame, receivedUs)
    case Some(error) => Err(error)
    case None => Ok(Pack(frame) + PutWord(Crc32(Pack(frame))))
  }

  function Decode(raw: Bytes, receivedUs: int): Result<TelemetryFrame, FrameError> {
    if raw == [] then Err(Rejected(EMPTY_BODY))
    else if IntOf(raw[0]) != PROTOCOL_VERSION then Err(Rejected(UNSUPPORTED_PROTOCOL_VERSION))
    else if |raw| != FRAME_SIZE then Err(Rejected(INVALID_FRAME_LENGTH))
    else if GetWord(raw[BODY_SIZE..]) != Crc32(raw[..BODY_SIZE]) then Err(Rejected(CRC_MISMATCH))
    else
      var frame := Unpack(raw[..BODY_SIZE]);
      match ValidateFields(frame, Some(receivedUs))
      case Some(error) => Err(error)
      case None => Ok(frame)
  }

  // ----- what the interface promises -----

  /** A frame within every field rule of version 1. */
  predicate ValidFrame(frame: TelemetryFrame) {
    && frame.protocolVersion == 1
    && frame.payloadId == 1
    && 1 <= frame.bootId <= 0xFFFF_FFFF
    && 0 <= frame.sequenceNumber <= 0xFFFF_FFFF
    && 1_767_225_600_000_000 <= frame.timestampUs <= 0xFFFF_FFFF_FFFF_FFFF
    && -10_000 <= frame.temperatureCentiC <= 15_000
    && 0 <= frame.voltageMv <= 50_000
    && 0 <= frame.operatingMode <= 3
    && 0 <= frame.faultFlags <= 0x3F
  }

  predicate StampedBy(frame: TelemetryFrame, receivedUs: int) {
    frame.timestampUs <= receivedUs + 300_000_000
  }

  /** The wire form of a valid frame. */
  function WireForm(frame: TelemetryFrame): (raw: Bytes)
    requires ValidFrame(frame)
    ensures |raw| == FRAME_SIZE
  {
    Pack(frame) + PutWord(Crc32(Pack(frame)))
  }

  lemma UnpackPack(frame: TelemetryFrame)
    requires Packable(frame)
    ensures Unpack(Pack(frame)) == frame
  {
    var body := Pack(frame);
    assert body[2..6] == Put32(frame.bootId);
    assert body[6..10] == Put32(frame.sequenceNumber);
    assert body[10..18] == Put64(frame.timestampUs);
    assert body[18..20] == PutSigned16(frame.temperatureCentiC);
    assert body[20..22] == Put16(frame.voltageMv);
    GetPut32(frame.bootId);
    GetPut32(frame.sequenceNumber);
    GetPut64(frame.timestampUs);
    GetPutSigned16(frame.temperatureCentiC);
    GetPut16(frame.voltageMv);
  }

  lemma PackUnpack(body: Bytes)
    requires |body| == BODY_SIZE
    ensures Pack(Unpack(body)) == body
  {
    PutGet32(body[2..6]);
    PutGet32(body[6..10]);
    PutGet64(body[10..18]);
    PutGetSigned16(body[18..20]);
    PutGet16(body[20..22]);
    SplitBody(body);
  }

  lemma SplitBody(body: Bytes)
    requires |body| == BODY_SIZE
    ensures body == [body[0], body[1]] + body[2..6] + body[6..10] + body[10..18] + body[18..20] + body[20..22]
                    + [body[22], body[23]]
  {
  }

  lemma WireFormParts(frame: TelemetryFrame)
    requires ValidFrame(frame)
    ensures WireForm(frame)[..BODY_SIZE] == Pack(frame)
    ensures WireForm(frame)[BODY_SIZE..] == PutWord(Crc32(Pack(frame)))
    ensures GetWord(WireForm(frame)[BODY_SIZE..]) == Crc32(WireForm(frame)[..BODY_SIZE])
    ensures IntOf(WireForm(frame)[0]) == 1
  {
    GetPutWord(Crc32(Pack(frame)));
  }

  /** The encoder serves exactly the valid frames, and gives their wire form. */
  lemma EncodeIffValid(frame: TelemetryFrame, receivedUs: Option<int>)
    ensures Encode(frame, receivedUs).Ok? <==>
            ValidFrame(frame) && (receivedUs.Some? ==> StampedBy(frame, receivedUs.value))
    ensures Encode(frame, receivedUs).Ok? ==> Encode(frame, receivedUs).value == WireForm(frame)
  {
  }

  /** The encoder refuses without a name exactly what a bounded field of the frame cannot
      hold, where no rule with a name comes first. */
  lemma EncodeUnnamedIff(frame: TelemetryFrame, receivedUs: Option<int>)
    ensures Encode(frame, receivedUs) == Err(UnnamedValueError) <==>
            && frame.protocolVersion == 1 && frame.payloadId == 1 && 1 <= frame.bootId <= 0xFFFF_FFFF
            && (|| !(0 <= frame.sequenceNumber <= 0xFFFF_FFFF)
                || !(0 <= frame.timestampUs <= 0xFFFF_FFFF_FFFF_FFFF)
                || (&& !(0 <= frame.faultFlags <= 0xFF)
                    && frame.timestampUs >= 1_767_225_600_000_000
                    && (receivedUs.Some? ==> StampedBy(frame, receivedUs.value))
                    && -10_000 <= frame.temperatureCentiC <= 15_000
                    && 0 <= frame.voltageMv <= 50_000
                    && 0 <= frame.operatingMode <= 3))
  {
    hide Pack, PutWord, Crc32;
  }

  lemma DecodeInvertsEncode(frame: TelemetryFrame, receivedUs: int)
    requires ValidFrame(frame) && StampedBy(frame, receivedUs)
    ensures Decode(WireForm(frame), receivedUs) == Ok(frame)
  {
    hide Pack, Unpack, Crc32, PutWord, GetWord, WireForm;
    WireFormParts(frame);
    UnpackPack(frame);
  }

  lemma EncodeInvertsDecode(raw: Bytes, receivedUs: int)
    requires Decode(raw, receivedUs).Ok?
    ensures var frame := Decode(raw, receivedUs).value;
            ValidFrame(frame) && StampedBy(frame, receivedUs) && WireForm(frame) == raw
  {
    hide Pack, Unpack, GetWord, PutWord, Crc32;
    PackUnpack(raw[..BODY_SIZE]);
    PutGetWord(raw[BODY_SIZE..]);
    assert raw == raw[..BODY_SIZE] + raw[BODY_SIZE..];
  }

  /** The accepted byte strings are exactly the wire forms of valid frames stamped
      no later than five minutes after the receipt time. */
  lemma AcceptedSet(raw: Bytes, receivedUs: int)
    ensures Decode(raw, receivedUs).Ok? <==>
            exists frame :: ValidFrame(frame) && StampedBy(frame, receivedUs) && raw == WireForm(frame)
  {
    if Decode(raw, receivedUs).Ok? {
      EncodeInvertsDecode(raw, receivedUs);
    }
    forall frame | ValidFrame(frame) && StampedBy(frame, receivedUs) && raw == WireForm(frame)
      ensures Decode(raw, receivedUs).Ok?
    {
      DecodeInvertsEncode(frame, receivedUs);
    }
  }

  // ----- which rule a rejection names -----

  /** Rule by rule, straight from the bytes, the way the interface states them;
      the rules on fields speak of whole frames only. */
  predicate Violates(rule: Reason, raw: Bytes, receivedUs: int) {
    match rule
    case EMPTY_BODY => |raw| == 0
    case UNSUPPORTED_PROTOCOL_VERSION => |raw| > 0 && raw[0] != 1
    case INVALID_FRAME_LENGTH => |raw| != 28
    case CRC_MISMATCH => |raw| == 28 && GetWord(raw[24..]) != Crc32(raw[..24])
    case UNSUPPORTED_PAYLOAD_ID => |raw| == 28 && raw[1] != 1
    case INVALID_BOOT_ID => |raw| == 28 && Get32(raw[2..6]) == 0
    case TIMESTAMP_BEFORE_PROJECT_EPOCH => |raw| == 28 && Get64(raw[10..18]) < 1_767_225_600_000_000
    case TIMESTAMP_TOO_FAR_IN_FUTURE => |raw| == 28 && Get64(raw[10..18]) > receivedUs + 300_000_000
    case TEMPERATURE_OUT_OF_RANGE =>
      |raw| == 28 && (GetSigned16(raw[18..20]) < -10_000 || GetSigned16(raw[18..20]) > 15_000)
    case VOLTAGE_OUT_OF_RANGE => |raw| == 28 && Get16(raw[20..22]) > 50_000
    case INVALID_OPERATING_MODE => |raw| == 28 && IntOf(raw[22]) > 3
    case RESERVED_FAULT_BITS_SET => |raw| == 28 && IntOf(raw[23]) > 0x3F
  }

  /** Position of a rule in the validation order of section 7.1 of the interface document. */
  function Rank(rule: Reason): nat {
    match rule
    case EMPTY_BODY => 0
    case UNSUPPORTED_PROTOCOL_VERSION => 1
    case INVALID_FRAME_LENGTH => 2
    case CRC_MISMATCH => 3
    case UNSUPPORTED_PAYLOAD_ID => 4
    case INVALID_BOOT_ID => 5
    case TIMESTAMP_BEFORE_PROJECT_EPOCH => 6
    case TIMESTAMP_TOO_FAR_IN_FUTURE => 7
    case TEMPERATURE_OUT_OF_RANGE => 8
    case VOLTAGE_OUT_OF_RANGE => 9
    case INVALID_OPERATING_MODE => 10
    case RESERVED_FAULT_BITS_SET => 11
  }

  predicate FirstViolated(rule: Reason, raw: Bytes, receivedUs: int) {
    && Violates(rule, raw, receivedUs)
    && forall earlier: Reason :: Rank(earlier) < Rank(rule) ==> !Violates(earlier, raw, receivedUs)
  }

  /** Whatever is refused is refused by name, and by the first rule it breaks. */
  lemma RejectionNamesFirstRule(raw: Bytes, receivedUs: int, rule: Reason)
    ensures Decode(raw, receivedUs).Err? ==> Decode(raw, receivedUs).error.Rejected?
    ensures Decode(raw, receivedUs) == Err(Rejected(rule)) <==> FirstViolated(rule, raw, receivedUs)
  {
    OutcomeNamesFirstRule(raw, receivedUs);
    var outcome := Decode(raw, receivedUs);
    if outcome.Err? && FirstViolated(rule, raw, receivedUs) {
      RankInjective(rule, outcome.error.reason);
    }
  }

  lemma OutcomeNamesFirstRule(raw: Bytes, receivedUs: int)
    ensures match Decode(raw, receivedUs)
            case Ok(_) => forall rule: Reason :: !Violates(rule, raw, receivedUs)
            case Err(error) => error.Rejected? && FirstViolated(error.reason, raw, receivedUs)
  {
    hide Crc32, GetWord, Breaks, ValidateFields, Get64, Get16, GetSigned16, Get32;
    if |raw| > 0 {
      VersionByte(raw[0]);
    }
    if |raw| == FRAME_SIZE {
      var frame := Unpack(raw[..BODY_SIZE]);
      forall rule: Reason
        ensures Rank(rule) > 3 ==> (Violates(rule, raw, receivedUs) <==> Breaks(rule, frame, receivedUs))
      {
        if Rank(rule) > 3 {
          ViolatesIffBreaks(rule, raw, receivedUs);
        }
      }
      if frame.protocolVersion == PROTOCOL_VERSION {
        FieldsNameFirstRule(frame, receivedUs);
      }
    }
  }

  lemma RankInjective(a: Reason, b: Reason)
    requires Rank(a) == Rank(b) || (!(Rank(a) < Rank(b)) && !(Rank(b) < Rank(a)))
    ensures a == b
  {
  }

  /** The field rules again, on the unpacked values. */
  predicate Breaks(rule: Reason, frame: TelemetryFrame, receivedUs: int) {
    match rule
    case UNSUPPORTED_PAYLOAD_ID => frame.payloadId != 1
    case INVALID_BOOT_ID => frame.bootId == 0
    case TIMESTAMP_BEFORE_PROJECT_EPOCH => frame.timestampUs < 1_767_225_600_000_000
    case TIMESTAMP_TOO_FAR_IN_FUTURE => frame.timestampUs > receivedUs + 300_000_000
    case TEMPERATURE_OUT_OF_RANGE => frame.temperatureCentiC < -10_000 || frame.temperatureCentiC > 15_000
    case VOLTAGE_OUT_OF_RANGE => frame.voltageMv > 50_000
    case INVALID_OPERATING_MODE => frame.operatingMode > 3
    case RESERVED_FAULT_BITS_SET => frame.faultFlags > 0x3F
    case _ => false
  }

  lemma ViolatesIffBreaks(rule: Reason, raw: Bytes, receivedUs: int)
    requires |raw| == FRAME_SIZE && Rank(rule) > 3
    ensures Violates(rule, raw, receivedUs) <==> Breaks(rule, Unpack(raw[..BODY_SIZE]), receivedUs)
  {
    FieldsOfBody(raw);
    VersionByte(raw[1]);
  }

  lemma FieldsNameFirstRule(frame: TelemetryFrame, receivedUs: int)
    requires Packable(frame) && frame.protocolVersion == PROTOCOL_VERSION
    ensures match ValidateFields(frame, Some(receivedUs))
            case None => forall rule: Reason :: !Breaks(rule, frame, receivedUs)
            case Some(error) =>
              && error.Rejected?
              && Rank(error.reason) > 3
              && Breaks(error.reason, frame, receivedUs)
              && forall earlier: Reason :: Rank(earlier) < Rank(error.reason) ==> !Breaks(earlier, frame, receivedUs)
  {
  }

  lemma VersionByte(b: bv8)
    ensures b == 1 <==> IntOf(b) == 1
  {
  }

  lemma FieldsOfBody(raw: Bytes)
    ensures |raw| == 28 ==>
              raw[..24][2..6] == raw[2..6] && raw[..24][6..10] == raw[6..10] && raw[..24][10..18] == raw[10..18]
              && raw[..24][18..20] == raw[18..20] && raw[..24][20..22] == raw[20..22]
  {
  }

  // ----- receipt time -----

  /** Of bytes accepted at one time, exactly those stamped early enough are accepted
      at another, with the same values. */
  lemma RedecodeIff(raw: Bytes, acceptedAtUs: int, againAtUs: int)
    requires Decode(raw, acceptedAtUs).Ok?
    ensures Decode(raw, againAtUs) ==
            if StampedBy(Decode(raw, acceptedAtUs).value, againAtUs) then Decode(raw, acceptedAtUs)
            else Err(Rejected(TIMESTAMP_TOO_FAR_IN_FUTURE))
  {
  }

  // ----- corrupted frames -----

  lemma Body(raw: Bytes, changed: Bytes, at: nat)
    requires |raw| == FRAME_SIZE && 1 <= at && at + 4 <= BODY_SIZE && DifferOnlyInWord(raw, changed, at)
    ensures DifferOnlyInWord(raw[..BODY_SIZE], changed[..BODY_SIZE], at)
    ensures raw[BODY_SIZE..] == changed[BODY_SIZE..] && raw[0] == changed[0]
  {
    assert raw[0] == raw[..at][0] == changed[..at][0] == changed[0];
    assert raw[BODY_SIZE..] == raw[at + 4..][BODY_SIZE - at - 4..];
    assert changed[BODY_SIZE..] == changed[at + 4..][BODY_SIZE - at - 4..];
    assert raw[..BODY_SIZE][..at] == raw[..at] && changed[..BODY_SIZE][..at] == changed[..at];
    assert raw[..BODY_SIZE][at + 4..] == raw[at + 4..][..BODY_SIZE - at - 4];
    assert changed[..BODY_SIZE][at + 4..] == changed[at + 4..][..BODY_SIZE - at - 4];
    assert raw == raw[..BODY_SIZE] + raw[BODY_SIZE..];
    assert changed == changed[..BODY_SIZE] + changed[BODY_SIZE..];
    if raw[..BODY_SIZE] == changed[..BODY_SIZE] {
    }
  }

  /** Any change of up to four consecutive bytes behind the version byte is noticed. */
  lemma BurstIsCrcMismatch(frame: TelemetryFrame, changed: Bytes, at: nat, receivedUs: int)
    requires ValidFrame(frame) && 1 <= at && at + 4 <= BODY_SIZE
    requires DifferOnlyInWord(WireForm(frame), changed, at)
    ensures Decode(changed, receivedUs) == Err(Rejected(CRC_MISMATCH))
  {
    var raw := WireForm(frame);
    WireFormParts(frame);
    Body(raw, changed, at);
    BurstChangesCrc(raw[..BODY_SIZE], changed[..BODY_SIZE], at);
  }

  /** So is any change of the checksum field alone. */
  lemma ChecksumChangeIsCrcMismatch(frame: TelemetryFrame, changed: Bytes, receivedUs: int)
    requires ValidFrame(frame) && |changed| == FRAME_SIZE
    requires changed[..BODY_SIZE] == WireForm(frame)[..BODY_SIZE] && changed != WireForm(frame)
    ensures Decode(changed, receivedUs) == Err(Rejected(CRC_MISMATCH))
  {
    var raw := WireForm(frame);
    WireFormParts(frame);
    assert changed[0] == changed[..BODY_SIZE][0] == raw[0];
    PutGetWord(changed[BODY_SIZE..]);
    PutGetWord(raw[BODY_SIZE..]);
    assert changed == changed[..BODY_SIZE] + changed[BODY_SIZE..];
    assert raw == raw[..BODY_SIZE] + raw[BODY_SIZE..];
    if GetWord(changed[BODY_SIZE..]) == GetWord(raw[BODY_SIZE..]) {
    }
  }

  /** A changed version byte is named as such, whatever else was changed with it. */
  lemma VersionChangeIsUnsupported(frame: TelemetryFrame, changed: Bytes, receivedUs: int)
    requires ValidFrame(frame) && changed != [] && changed[0] != WireForm(frame)[0]
    ensures Decode(changed, receivedUs) == Err(Rejected(UNSUPPORTED_PROTOCOL_VERSION))
  {
    WireFormParts(frame);
    VersionByte(WireForm(frame)[0]);
    VersionByte(changed[0]);
  }

  // ----- the golden vector -----

  lemma GoldenFirstBytes()
    ensures Register(0xFFFF_FFFF, [0x01, 0x01, 0x00, 0x00, 0x00, 0x2A, 0x00, 0x00]) == 0xC5DA_E88A
  {
    assert Feed(0xFFFF_FFFF, 0x01) == 0x5AFA_20E4;
    assert Feed(0x5AFA_20E4, 0x01) == 0xD03A_ECD7;
    assert Feed(0xD03A_ECD7, 0x00) == 0x1867_7D9B;
    assert Feed(0x1867_7D9B, 0x00) == 0x67C5_2DB1;
    assert Feed(0x67C5_2DB1, 0x00) == 0xBC01_4637;
    assert Feed(0xBC01_4637, 0x2A) == 0x63BA_6D9F;
    assert Feed(0x63BA_6D9F, 0x00) == 0x60D3_34B8;
    assert Feed(0x60D3_34B8, 0x00) == 0xC5DA_E88A;
    FeedNext(0xFFFF_FFFF, 0x01, [0x01, 0x00, 0x00, 0x00, 0x2A, 0x00, 0x00]);
    FeedNext(0x5AFA_20E4, 0x01, [0x00, 0x00, 0x00, 0x2A, 0x00, 0x00]);
    FeedNext(0xD03A_ECD7, 0x00, [0x00, 0x00, 0x2A, 0x00, 0x00]);
    FeedNext(0x1867_7D9B, 0x00, [0x00, 0x2A, 0x00, 0x00]);
    FeedNext(0x67C5_2DB1, 0x00, [0x2A, 0x00, 0x00]);
    FeedNext(0xBC01_4637, 0x2A, [0x00, 0x00]);
    FeedNext(0x63BA_6D9F, 0x00, [0x00]);
    FeedNext(0x60D3_34B8, 0x00, []);
  }

  lemma GoldenMiddleBytes()
    ensures Register(0xC5DA_E88A, [0x00, 0x01, 0x00, 0x06, 0x56, 0xB9, 0x2D, 0xF1]) == 0x87AA_DA10
  {
    assert Feed(0xC5DA_E88A, 0x00) == 0x0DA8_B0D6;
    assert Feed(0x0DA8_B0D6, 0x01) == 0x18BA_EFC7;
    assert Feed(0x18BA_EFC7, 0x00) == 0x0518_EDFC;
    assert Feed(0x0518_EDFC, 0x06) == 0x5D6D_03EF;
    assert Feed(0x5D6D_03EF, 0x56) == 0xB2E0_662B;
    assert Feed(0xB2E0_662B, 0xB9) == 0x1EB3_120E;
    assert Feed(0x1EB3_120E, 0x2D) == 0xA279_C260;
    assert Feed(0xA279_C260, 0xF1) == 0x87AA_DA10;
    FeedNext(0xC5DA_E88A, 0x00, [0x01, 0x00, 0x06, 0x56, 0xB9, 0x2D, 0xF1]);
    FeedNext(0x0DA8_B0D6, 0x01, [0x00, 0x06, 0x56, 0xB9, 0x2D, 0xF1]);
    FeedNext(0x18BA_EFC7, 0x00, [0x06, 0x56, 0xB9, 0x2D, 0xF1]);
    FeedNext(0x0518_EDFC, 0x06, [0x56, 0xB9, 0x2D, 0xF1]);
    FeedNext(0x5D6D_03EF, 0x56, [0xB9, 0x2D, 0xF1]);
    FeedNext(0xB2E0_662B, 0xB9, [0x2D, 0xF1]);
    FeedNext(0x1EB3_120E, 0x2D, [0xF1]);
    FeedNext(0xA279_C260, 0xF1, []);
  }

  lemma GoldenLastBytes()
    ensures Register(0x87AA_DA10, [0x70, 0x00, 0x0B, 0x18, 0x6D, 0xC4, 0x02, 0x00]) == 0x3392_FDFA
  {
    assert Feed(0x87AA_DA10, 0x70) == 0x4D35_CB82;
    assert Feed(0x4D35_CB82, 0x00) == 0x03FB_D7C7;
    assert Feed(0x03FB_D7C7, 0x0B) == 0x92D1_754C;
    assert Feed(0x92D1_754C, 0x18) == 0x6C94_4498;
    assert Feed(0x6C94_4498, 0x6D) == 0xCDBB_92D7;
    assert Feed(0xCDBB_92D7, 0xC4) == 0x8473_FA4C;
    assert Feed(0x8473_FA4C, 0x02) == 0x91E0_1F6D;
    assert Feed(0x91E0_1F6D, 0x00) == 0x3392_FDFA;
    FeedNext(0x87AA_DA10, 0x70, [0x00, 0x0B, 0x18, 0x6D, 0xC4, 0x02, 0x00]);
    FeedNext(0x4D35_CB82, 0x00, [0x0B, 0x18, 0x6D, 0xC4, 0x02, 0x00]);
    FeedNext(0x03FB_D7C7, 0x0B, [0x18, 0x6D, 0xC4, 0x02, 0x00]);
    FeedNext(0x92D1_754C, 0x18, [0x6D, 0xC4, 0x02, 0x00]);
    FeedNext(0x6C94_4498, 0x6D, [0xC4, 0x02, 0x00]);
    FeedNext(0xCDBB_92D7, 0xC4, [0x02, 0x00]);
    FeedNext(0x8473_FA4C, 0x02, [0x00]);
    FeedNext(0x91E0_1F6D, 0x00, []);
  }

  /** The frame and the bytes of section 6.7 of the interface document. */
  const GOLDEN_FRAME := TelemetryFrame(1, 1, 42, 1, 1_784_203_200_000_000, 2_840, 28_100, 2, 0)

  const GOLDEN_BODY: Bytes :=
    [0x01, 0x01, 0x00, 0x00, 0x00, 0x2A, 0x00, 0x00]
    + [0x00, 0x01, 0x00, 0x06, 0x56, 0xB9, 0x2D, 0xF1]
    + [0x70, 0x00, 0x0B, 0x18, 0x6D, 0xC4, 0x02, 0x00]

  const GOLDEN_CRC: Bytes := [0xCC, 0x6D, 0x02, 0x05]

  lemma GoldenBodyCrc()
    ensures Crc32(GOLDEN_BODY) == 0xCC6D_0205
  {
    var a: Bytes := [0x01, 0x01, 0x00, 0x00, 0x00, 0x2A, 0x00, 0x00];
    var b: Bytes := [0x00, 0x01, 0x00, 0x06, 0x56, 0xB9, 0x2D, 0xF1];
    var c: Bytes := [0x70, 0x00, 0x0B, 0x18, 0x6D, 0xC4, 0x02, 0x00];
    GoldenFirstBytes();
    GoldenMiddleBytes();
    GoldenLastBytes();
    RegisterConcat(0xFFFF_FFFF, a + b, c);
    RegisterConcat(0xFFFF_FFFF, a, b);
  }

  lemma GoldenFields()
    ensures Unpack(GOLDEN_BODY) == GOLDEN_FRAME
  {
    var body := GOLDEN_BODY;
    assert body[2..6] == [0x00, 0x00, 0x00, 0x2A];
    assert body[6..10] == [0x00, 0x00, 0x00, 0x01];
    assert body[10..18] == [0x00, 0x06, 0x56, 0xB9, 0x2D, 0xF1, 0x70, 0x00];
    assert body[18..20] == [0x0B, 0x18];
    assert body[20..22] == [0x6D, 0xC4];
  }

  lemma GoldenParts()
    ensures var raw := GOLDEN_BODY + GOLDEN_CRC;
            && |raw| == FRAME_SIZE && IntOf(raw[0]) == PROTOCOL_VERSION
            && raw[..BODY_SIZE] == GOLDEN_BODY && raw[BODY_SIZE..] == GOLDEN_CRC
            && GetWord(GOLDEN_CRC) == 0xCC6D_0205
  {
    var raw := GOLDEN_BODY + GOLDEN_CRC;
    assert raw[..BODY_SIZE] == GOLDEN_BODY && raw[BODY_SIZE..] == GOLDEN_CRC;
  }

  lemma DecodeFromParts(raw: Bytes, body: Bytes, crc: Bytes, frame: TelemetryFrame, receivedUs: int)
    requires |raw| == FRAME_SIZE && IntOf(raw[0]) == PROTOCOL_VERSION
    requires raw[..BODY_SIZE] == body && raw[BODY_SIZE..] == crc && GetWord(crc) == Crc32(body) && Unpack(body) == frame
    requires ValidFrame(frame) && StampedBy(frame, receivedUs)
    ensures Decode(raw, receivedUs) == Ok(frame)
  {
    hide Unpack, Crc32, GetWord;
  }

  /** The golden vector decodes to its frame, and the frame encodes to the vector. */
  lemma GoldenVector(receivedUs: int)
    requires StampedBy(GOLDEN_FRAME, receivedUs)
    ensures Decode(GOLDEN_BODY + GOLDEN_CRC, receivedUs) == Ok(GOLDEN_FRAME)
    ensures Encode(GOLDEN_FRAME, None) == Ok(GOLDEN_BODY + GOLDEN_CRC)
  {
    hide Decode, Encode, Unpack, Crc32, GetWord, WireForm;
    GoldenParts();
    GoldenBodyCrc();
    GoldenFields();
    DecodeFromParts(GOLDEN_BODY + GOLDEN_CRC, GOLDEN_BODY, GOLDEN_CRC, GOLDEN_FRAME, receivedUs);
    EncodeInvertsDecode(GOLDEN_BODY + GOLDEN_CRC, receivedUs);
    EncodeIffValid(GOLDEN_FRAME, None);
  }
}
