/** The simulator process: the boot file it rewrites, the object that numbers frames, and
    the deliberate damage to a frame's bytes. */
module VendorSimulator {
  import opened Outcomes
  import opened Wire
  import opened Checksum
  import opened FrameCodec
  import opened PayloadSource

  datatype FailureMode = NONE | CORRUPT_CRC | UNSUPPORTED_VERSION | SKIP_SEQUENCE | DUPLICATE_LAST

  /** The boot file on disk. A write goes to a temporary file that then replaces this one,
      so it takes effect as a whole or not at all. */
  class BootIdFile {
    var content: BootFile

    constructor (content: BootFile)
      ensures this.content == content
    {
      this.content := content;
    }

    method Persist(value: int, works: bool) returns (outcome: Result<(), SourceError>)
      modifies this
      ensures content == if works then Number(value) else old(content)
      ensures outcome == if works then Ok(()) else Err(PersistFailed)
    {
      if !works {
        return Err(PersistFailed);
      }
      content := Number(value);
      return Ok(());
    }
  }

  method LoadNextBootId(file: BootIdFile, works: bool) returns (outcome: Result<int, SourceError>)
    modifies file
    ensures (file.content, outcome) == PayloadSource.LoadNextBootId(old(file.content), works)
  {
    var previous := 0;
    if file.content.Unreadable? {
      return Err(UnreadableBootFile);
    }
    if file.content.Number? {
      previous := file.content.value;
    }
    if !(0 <= previous < UINT32_MAX) {
      return Err(UnsafeBootFile);
    }
    var current := previous + 1;
    var persisted := file.Persist(current, works);
    if persisted.Err? {
      return Err(persisted.error);
    }
    return Ok(current);
  }

  class PayloadSimulator {
    const file: BootIdFile
    var bootId: int
    var nextSequence: int

    function State(): Source
      reads this
    {
      Source(bootId, nextSequence)
    }

    ghost predicate Valid()
      reads this, file
    {
      StationOk(Station(file.content, Some(State())))
    }

    constructor (bootId: int, file: BootIdFile)
      ensures this.file == file && State() == Source(bootId, 0)
    {
      this.file, this.bootId, nextSequence := file, bootId, 0;
    }

    method RollSessionIfNeeded(works: bool) returns (failure: Option<SourceError>)
      modifies this, file
      ensures (State(), file.content, failure) ==
              PayloadSource.RollSessionIfNeeded(old(State()), old(file.content), works)
    {
      if nextSequence <= UINT32_MAX {
        return None;
      }
      if bootId == UINT32_MAX {
        return Some(BootSpaceExhausted);
      }
      bootId := bootId + 1;
      var persisted := file.Persist(bootId, works);
      if persisted.Err? {
        return Some(persisted.error);
      }
      nextSequence := 0;
      return None;
    }

    method MakeFrame(sample: Sample, works: bool) returns (outcome: Result<(TelemetryFrame, Bytes), SourceError>)
      requires Valid()
      modifies this, file
      ensures (State(), file.content, outcome) ==
              PayloadSource.MakeFrame(old(State()), old(file.content), sample, works)
      ensures Valid()
      ensures outcome.Ok? ==>
                && ValidFrame(outcome.value.0) && outcome.value.1 == WireForm(outcome.value.0)
                && Carries(outcome.value.0, sample, bootId, nextSequence - 1)
    {
      hide StationOk;
      StationKept(State(), file.content, sample, works);
      if sample.skip {
        nextSequence := nextSequence + 1;
      }
      var failure := RollSessionIfNeeded(works);
      if failure.Some? {
        return Err(failure.value);
      }
      var sequence := nextSequence;
      nextSequence := nextSequence + 1;
      var frame := TelemetryFrame(
        PROTOCOL_VERSION, SUPPORTED_PAYLOAD_ID, bootId, sequence, sample.timestampUs, sample.temperatureCentiC,
        sample.voltageMv, sample.operatingMode, sample.faultFlags);
      EncodeIffValid(frame, None);
      var encoded := Encode(frame, None);
      if encoded.Err? {
        return Err(NotEncodable(encoded.error));
      }
      return Ok((frame, encoded.value));
    }
  }

  // ----- damaged frames -----

  /** The named rejection a damaged frame must meet at the ground. */
  function ExpectedRejection(mode: FailureMode): Option<Reason> {
    match mode
    case CORRUPT_CRC => Some(CRC_MISMATCH)
    case UNSUPPORTED_VERSION => Some(UNSUPPORTED_PROTOCOL_VERSION)
    case _ => None
  }

  lemma FlippedBit(b: bv8)
    ensures b ^ 1 != b
  {
  }

  /** Whenever it arrives, a damaged valid frame is refused for the reason it was damaged
      to show, and an undamaged one arrives as it was encoded. */
  method ApplyWireFailure(raw: Bytes, mode: FailureMode) returns (sent: Bytes)
    requires |raw| == FRAME_SIZE
    ensures |sent| == FRAME_SIZE
    ensures ExpectedRejection(mode).None? ==> sent == raw
    ensures mode == CORRUPT_CRC ==> sent == raw[FRAME_SIZE - 1 := raw[FRAME_SIZE - 1] ^ 1]
    ensures mode == UNSUPPORTED_VERSION ==>
              && sent[0] == 2 && sent[1..BODY_SIZE] == raw[1..BODY_SIZE]
              && GetWord(sent[BODY_SIZE..]) == Crc32(sent[..BODY_SIZE])
    ensures forall frame: TelemetryFrame, receivedUs: int ::
              ValidFrame(frame) && raw == WireForm(frame) && ExpectedRejection(mode).Some? ==>
                Decode(sent, receivedUs) == Err(Rejected(ExpectedRejection(mode).value))
  {
    var changed := new bv8[|raw|](i requires 0 <= i < |raw| => raw[i]);
    assert changed[..] == raw;
    if mode == CORRUPT_CRC {
      FlippedBit(raw[FRAME_SIZE - 1]);
      changed[FRAME_SIZE - 1] := changed[FRAME_SIZE - 1] ^ 1;
      assert changed[..BODY_SIZE] == raw[..BODY_SIZE];
      assert changed[..][FRAME_SIZE - 1] != raw[FRAME_SIZE - 1];
    } else if mode == UNSUPPORTED_VERSION {
      changed[0] := 2;
      var checksum := PutWord(Crc32(changed[..BODY_SIZE]));
      ghost var body := changed[..BODY_SIZE];
      for i := 0 to 4
        invariant changed[..BODY_SIZE] == body
        invariant forall k :: 0 <= k < i ==> changed[BODY_SIZE + k] == checksum[k]
      {
        changed[BODY_SIZE + i] := checksum[i];
      }
      assert changed[BODY_SIZE..] == checksum;
      GetPutWord(Crc32(body));
    }
    sent := changed[..];
    assert sent[..BODY_SIZE] == changed[..BODY_SIZE] && sent[BODY_SIZE..] == changed[BODY_SIZE..];
    forall frame: TelemetryFrame, receivedUs: int
      | ValidFrame(frame) && raw == WireForm(frame) && ExpectedRejection(mode).Some?
      ensures Decode(sent, receivedUs) == Err(Rejected(ExpectedRejection(mode).value))
    {
      DamageIsNamed(raw, sent, mode, frame, receivedUs);
    }
  }

  lemma DamageIsNamed(raw: Bytes, sent: Bytes, mode: FailureMode, frame: TelemetryFrame, receivedUs: int)
    requires ValidFrame(frame) && raw == WireForm(frame) && |sent| == FRAME_SIZE && ExpectedRejection(mode).Some?
    requires mode == CORRUPT_CRC ==> sent[..BODY_SIZE] == raw[..BODY_SIZE] && sent != raw
    requires mode == UNSUPPORTED_VERSION ==> sent[0] == 2
    ensures Decode(sent, receivedUs) == Err(Rejected(ExpectedRejection(mode).value))
  {
    hide Decode, WireForm;
    if mode == CORRUPT_CRC {
      ChecksumChangeIsCrcMismatch(frame, sent, receivedUs);
    } else {
      WireFormParts(frame);
      VersionByte(raw[0]);
      VersionChangeIsUnsupported(frame, sent, receivedUs);
    }
  }
}
