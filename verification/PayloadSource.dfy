/** The payload's own identities: boot numbers kept in a file, sequence numbers counted in
    memory, over any history of frames, skips, rollovers, failed writes and restarts. */
module PayloadSource {
  import opened Outcomes
  import opened Wire
  import opened FrameCodec
  import Rules = SequenceRules

  const UINT32_MAX := TWO_TO_32 - 1

  /** The text of the boot file, as far as reading it tells apart. */
  datatype BootFile = Absent | Blank | Number(value: int) | Unreadable

  datatype SourceError =
    | BootSpaceExhausted
    | UnsafeBootFile
    | UnreadableBootFile
    | PersistFailed
    | NotEncodable(error: FrameError)

  /** The fields of one requested sample, in wire units. */
  datatype Sample = Sample(
    timestampUs: int,
    temperatureCentiC: int,
    voltageMv: int,
    operatingMode: int,
    faultFlags: int,
    skip: bool)

  /** The simulator object. */
  datatype Source = Source(bootId: int, nextSequence: int)

  // ----- the code, on values -----

  /** The next boot number, and the file after it was written there. */
  function LoadNextBootId(file: BootFile, persisted: bool): (BootFile, Result<int, SourceError>) {
    if file.Unreadable? then (file, Err(UnreadableBootFile))
    else
      var previous := if file.Number? then file.value else 0;
      if !(0 <= previous < UINT32_MAX) then (file, Err(UnsafeBootFile))
      else if !persisted then (file, Err(PersistFailed))
      else (Number(previous + 1), Ok(previous + 1))
  }

  /** A boot number is taken in memory before it is written; a failed write leaves the
      old sequence number, so the next frame rolls again. */
  function RollSessionIfNeeded(
    source: Source, file: BootFile, persisted: bool): (Source, BootFile, Option<SourceError>) {
    if source.nextSequence <= UINT32_MAX then (source, file, None)
    else if source.bootId == UINT32_MAX then (source, file, Some(BootSpaceExhausted))
    else if !persisted then (source.(bootId := source.bootId + 1), file, Some(PersistFailed))
    else (Source(source.bootId + 1, 0), Number(source.bootId + 1), None)
  }

  function FrameOf(source: Source, sample: Sample): TelemetryFrame {
    TelemetryFrame(
      PROTOCOL_VERSION, SUPPORTED_PAYLOAD_ID, source.bootId, source.nextSequence, sample.timestampUs,
      sample.temperatureCentiC, sample.voltageMv, sample.operatingMode, sample.faultFlags)
  }

  /** The number is used up even if the frame cannot be encoded. */
  function MakeFrame(source: Source, file: BootFile, sample: Sample, persisted: bool)
    : (Source, BootFile, Result<(TelemetryFrame, Bytes), SourceError>)
  {
    var skipped := if sample.skip then source.(nextSequence := source.nextSequence + 1) else source;
    var (rolled, file', failure) := RollSessionIfNeeded(skipped, file, persisted);
    if failure.Some? then (rolled, file', Err(failure.value))
    else
      var frame := FrameOf(rolled, sample);
      (rolled.(nextSequence := rolled.nextSequence + 1), file',
       match Encode(frame, None) case Ok(raw) => Ok((frame, raw)) case Err(error) => Err(NotEncodable(error)))
  }

  // ----- every history -----

  /** The file, and the running process if there is one. */
  datatype Station = Station(file: BootFile, source: Option<Source>)

  datatype SourceEvent = MakeOne(sample: Sample, persisted: bool) | Restart(persisted: bool)

  function After(s: Station, event: SourceEvent): Station {
    match event
    case Restart(persisted) =>
      var (file, boot) := LoadNextBootId(s.file, persisted);
      Station(file, if boot.Ok? then Some(Source(boot.value, 0)) else None)
    case MakeOne(sample, persisted) =>
      if s.source.None? then s
      else
        var (source, file, _) := MakeFrame(s.source.value, s.file, sample, persisted);
        Station(file, Some(source))
  }

  /** The frame an event emits, if any. */
  function EmittedBy(s: Station, event: SourceEvent): seq<TelemetryFrame> {
    if event.MakeOne? && s.source.Some? then
      var made := MakeFrame(s.source.value, s.file, event.sample, event.persisted).2;
      if made.Ok? then [made.value.0] else []
    else []
  }

  function Emitted(s: Station, events: seq<SourceEvent>): seq<TelemetryFrame>
    decreases events
  {
    if events == [] then [] else EmittedBy(s, events[0]) + Emitted(After(s, events[0]), events[1..])
  }

  /** What the process knows of the file: while numbers are left, its boot number is the
      one written there. */
  predicate StationOk(s: Station) {
    s.source.Some? ==>
      var source := s.source.value;
      && s.file.Number?
      && 1 <= s.file.value <= source.bootId <= UINT32_MAX
      && 0 <= source.nextSequence
      && (source.nextSequence <= UINT32_MAX ==> s.file.value == source.bootId)
  }

  // ----- identities never repeat -----

  predicate Before(boot: int, sequence: int, laterBoot: int, laterSequence: int) {
    boot < laterBoot || (boot == laterBoot && sequence < laterSequence)
  }

  predicate Precedes(frame: TelemetryFrame, later: TelemetryFrame) {
    Before(frame.bootId, frame.sequenceNumber, later.bootId, later.sequenceNumber)
  }

  predicate Increasing(frames: seq<TelemetryFrame>) {
    forall i, k :: 0 <= i < k < |frames| ==> Precedes(frames[i], frames[k])
  }

  /** No frame below this identity will be emitted any more. */
  function Floor(s: Station): (int, int) {
    if s.source.Some? && s.source.value.nextSequence <= UINT32_MAX then
      (s.source.value.bootId, s.source.value.nextSequence)
    else if s.file.Number? then (s.file.value + 1, 0)
    else (1, 0)
  }

  predicate AtOrAbove(floor: (int, int), frame: TelemetryFrame) {
    !Before(frame.bootId, frame.sequenceNumber, floor.0, floor.1)
  }

  lemma FloorRises(s: Station, event: SourceEvent)
    requires StationOk(s)
    ensures var s', emitted := After(s, event), EmittedBy(s, event);
            && StationOk(s')
            && !Before(Floor(s').0, Floor(s').1, Floor(s).0, Floor(s).1)
            && forall frame :: frame in emitted ==>
                 AtOrAbove(Floor(s), frame) && Before(frame.bootId, frame.sequenceNumber, Floor(s').0, Floor(s').1)
  {
    hide Encode;
  }

  lemma StationKept(source: Source, file: BootFile, sample: Sample, persisted: bool)
    requires StationOk(Station(file, Some(source)))
    ensures var (source', file', _) := MakeFrame(source, file, sample, persisted);
            StationOk(Station(file', Some(source')))
  {
    hide Encode;
    FloorRises(Station(file, Some(source)), MakeOne(sample, persisted));
  }

  lemma {:induction false} EmittedAboveFloor(s: Station, events: seq<SourceEvent>)
    requires StationOk(s)
    ensures forall i :: 0 <= i < |Emitted(s, events)| ==> AtOrAbove(Floor(s), Emitted(s, events)[i])
    decreases events
  {
    hide After, EmittedBy, Floor, StationOk;
    if events != [] {
      FloorRises(s, events[0]);
      EmittedAboveFloor(After(s, events[0]), events[1..]);
      var first := EmittedBy(s, events[0]);
      forall i | 0 <= i < |Emitted(s, events)| ensures AtOrAbove(Floor(s), Emitted(s, events)[i]) {
        if i < |first| {
          assert first[i] in first;
        }
      }
    }
  }

  /** The emitted (boot, sequence) pairs strictly increase, whatever happens to the
      process and to its writes: an identity is never used twice. */
  lemma {:induction false} IdentitiesIncrease(s: Station, events: seq<SourceEvent>)
    requires StationOk(s)
    ensures Increasing(Emitted(s, events))
    decreases events
  {
    hide After, EmittedBy, Floor, StationOk;
    if events != [] {
      var s', first := After(s, events[0]), EmittedBy(s, events[0]);
      var rest := Emitted(s', events[1..]);
      FloorRises(s, events[0]);
      AtMostOne(s, events[0]);
      IdentitiesIncrease(s', events[1..]);
      EmittedAboveFloor(s', events[1..]);
      var emitted := first + rest;
      forall i, k | 0 <= i < k < |emitted| ensures Precedes(emitted[i], emitted[k]) {
        assert emitted[k] == rest[k - |first|];
        if i < |first| {
          assert emitted[i] == first[i] && first[i] in first;
          assert AtOrAbove(Floor(s'), rest[k - |first|]);
        } else {
          assert emitted[i] == rest[i - |first|];
          assert Precedes(rest[i - |first|], rest[k - |first|]);
        }
      }
    }
  }

  lemma AtMostOne(s: Station, event: SourceEvent)
    ensures |EmittedBy(s, event)| <= 1
  {
  }

  // ----- the numbers of one session -----

  /** A sample every field of which is within its wire range. */
  predicate ValidSample(sample: Sample) {
    && 1_767_225_600_000_000 <= sample.timestampUs <= 0xFFFF_FFFF_FFFF_FFFF
    && -10_000 <= sample.temperatureCentiC <= 15_000
    && 0 <= sample.voltageMv <= 50_000
    && 0 <= sample.operatingMode <= 3
    && 0 <= sample.faultFlags <= 0x3F
  }

  predicate AllValid(events: seq<SourceEvent>) {
    forall i :: 0 <= i < |events| ==> events[i].MakeOne? ==> ValidSample(events[i].sample)
  }

  /** The sequence numbers emitted in one boot session, in order. */
  function NumbersOf(frames: seq<TelemetryFrame>, boot: int): seq<int> {
    if frames == [] then []
    else (if frames[0].bootId == boot then [frames[0].sequenceNumber] else []) + NumbersOf(frames[1..], boot)
  }

  /** The event skipped a number of this session without running off its end. */
  predicate SkipsWithin(s: Station, event: SourceEvent, boot: int) {
    && event.MakeOne? && event.sample.skip
    && s.source.Some? && s.source.value.bootId == boot
    && s.source.value.nextSequence + 1 <= UINT32_MAX
  }

  function SkipsIn(s: Station, events: seq<SourceEvent>, boot: int): nat
    decreases events
  {
    if events == [] then 0
    else (if SkipsWithin(s, events[0], boot) then 1 else 0) + SkipsIn(After(s, events[0]), events[1..], boot)
  }

  /** The number the session goes on with; a session that is not running starts at 0. */
  function GoesOnWith(s: Station, boot: int): int {
    if s.source.Some? && s.source.value.bootId == boot && s.source.value.nextSequence <= UINT32_MAX then
      s.source.value.nextSequence
    else 0
  }

  /** The numbers rise by one, or by two where a number was skipped, and every number up
      to the last is either emitted or skipped. */
  predicate Accounted(start: int, numbers: seq<int>, skips: int) {
    && (forall i :: 0 <= i < |numbers| ==> Rules.IsUint32(numbers[i]))
    && (forall i :: 0 <= i < |numbers| - 1 ==> numbers[i] < numbers[i + 1] <= numbers[i] + 2)
    && (numbers != [] ==> start <= numbers[0] <= start + 1)
    && (numbers != [] ==> numbers[|numbers| - 1] + 1 == start + |numbers| + skips)
    && (numbers == [] ==> skips == 0)
  }

  /** A session that lies behind emits nothing more. */
  lemma {:induction false} PastSession(s: Station, events: seq<SourceEvent>, boot: int)
    requires StationOk(s) && boot < Floor(s).0
    ensures NumbersOf(Emitted(s, events), boot) == [] && SkipsIn(s, events, boot) == 0
    decreases events
  {
    hide Encode;
    if events != [] {
      FloorRises(s, events[0]);
      AtMostOne(s, events[0]);
      PastSession(After(s, events[0]), events[1..], boot);
      NumbersSplit(s, events, boot);
    }
  }

  lemma NumbersSplit(s: Station, events: seq<SourceEvent>, boot: int)
    requires events != []
    ensures NumbersOf(Emitted(s, events), boot) ==
            NumbersOf(EmittedBy(s, events[0]), boot) + NumbersOf(Emitted(After(s, events[0]), events[1..]), boot)
    ensures SkipsIn(s, events, boot) ==
            (if SkipsWithin(s, events[0], boot) then 1 else 0) + SkipsIn(After(s, events[0]), events[1..], boot)
  {
    var first, rest := EmittedBy(s, events[0]), Emitted(After(s, events[0]), events[1..]);
    AtMostOne(s, events[0]);
    if first != [] {
      assert (first + rest)[1..] == rest && first[1..] == [];
    } else {
      assert first + rest == rest;
    }
  }

  /** The frame is the sample with an identity, in protocol version 1 of payload 1. */
  predicate Carries(frame: TelemetryFrame, sample: Sample, boot: int, sequence: int) {
    frame == TelemetryFrame(
      1, 1, boot, sequence, sample.timestampUs, sample.temperatureCentiC, sample.voltageMv, sample.operatingMode,
      sample.faultFlags)
  }

  /** A valid sample always gives a frame that carries it under the next identity, and an
      invalid one uses that identity up, unless the session ends and no next one can begin. */
  lemma MakeFrameEffect(source: Source, file: BootFile, sample: Sample, persisted: bool)
    requires 1 <= source.bootId <= 0xFFFF_FFFF && 0 <= source.nextSequence
    ensures var (source', file', made) := MakeFrame(source, file, sample, persisted);
            var next := source.nextSequence + if sample.skip then 1 else 0;
            if next <= 0xFFFF_FFFF then
              && (if ValidSample(sample) then made.Ok? && Carries(made.value.0, sample, source.bootId, next)
                  else made.Err? && made.error.NotEncodable?)
              && source' == Source(source.bootId, next + 1) && file' == file
            else if source.bootId < 0xFFFF_FFFF && persisted then
              && (if ValidSample(sample) then made.Ok? && Carries(made.value.0, sample, source.bootId + 1, 0)
                  else made.Err? && made.error.NotEncodable?)
              && source' == Source(source.bootId + 1, 1) && file' == Number(source.bootId + 1)
            else
              && made == Err(if source.bootId == 0xFFFF_FFFF then BootSpaceExhausted else PersistFailed)
              && source' == Source(if source.bootId == 0xFFFF_FFFF then source.bootId else source.bootId + 1, next)
              && file' == file
  {
    hide Encode, ValidSample, Carries;
    var next := source.nextSequence + if sample.skip then 1 else 0;
    if next <= 0xFFFF_FFFF {
      SampleIsEncodable(Source(source.bootId, next), sample);
    } else if source.bootId < 0xFFFF_FFFF {
      SampleIsEncodable(Source(source.bootId + 1, 0), sample);
    }
  }

  lemma SampleIsEncodable(source: Source, sample: Sample)
    requires 1 <= source.bootId <= 0xFFFF_FFFF && 0 <= source.nextSequence <= 0xFFFF_FFFF
    ensures var frame := FrameOf(source, sample);
            Carries(frame, sample, source.bootId, source.nextSequence)
            && (Encode(frame, None).Ok? <==> ValidSample(sample))
  {
    hide Encode;
    EncodeIffValid(FrameOf(source, sample), None);
  }

  /** What is sent arrives: the emitted bytes, decoded at any time that is at most five
      minutes before the sample's own, give back the sample under its new identity. */
  lemma EmittedBytesArrive(source: Source, file: BootFile, sample: Sample, persisted: bool, receivedUs: int)
    requires MakeFrame(source, file, sample, persisted).2.Ok? && sample.timestampUs <= receivedUs + 300_000_000
    ensures var (source', _, made) := MakeFrame(source, file, sample, persisted);
            var arrived := Decode(made.value.1, receivedUs);
            && |made.value.1| == 28
            && arrived == Ok(made.value.0)
            && Carries(arrived.value, sample, source'.bootId, source'.nextSequence - 1)
  {
    hide Encode, Decode, WireForm;
    var frame := MakeFrame(source, file, sample, persisted).2.value.0;
    EncodeIffValid(frame, None);
    DecodeInvertsEncode(frame, receivedUs);
  }

  /** A start takes the number after the one in the file, or 1 if there is none, and writes
      it there before it is used; otherwise the file stays as it is and nothing starts. */
  lemma NextBootNumber(file: BootFile, persisted: bool)
    ensures LoadNextBootId(file, persisted) ==
            match file
            case Unreadable => (file, Err(UnreadableBootFile))
            case Number(value) =>
              if value < 0 || value >= 0xFFFF_FFFF then (file, Err(UnsafeBootFile))
              else if persisted then (Number(value + 1), Ok(value + 1)) else (file, Err(PersistFailed))
            case _ => if persisted then (Number(1), Ok(1)) else (file, Err(PersistFailed))
    ensures var (file', boot) := LoadNextBootId(file, persisted);
            After(Station(file, None), Restart(persisted))
            == Station(file', if boot.Ok? then Some(Source(boot.value, 0)) else None)
  {
  }

  /** What one event does to a session: the number it emits there, if any, continues the
      session after at most one counted skip. */
  lemma EventContinues(s: Station, event: SourceEvent, boot: int)
    requires StationOk(s) && (event.MakeOne? ==> ValidSample(event.sample))
    ensures var s', numbers := After(s, event), NumbersOf(EmittedBy(s, event), boot);
            var skips := if SkipsWithin(s, event, boot) then 1 else 0;
            if numbers != [] then
              && numbers == [GoesOnWith(s, boot) + skips]
              && Rules.IsUint32(numbers[0])
              && (GoesOnWith(s', boot) == numbers[0] + 1 || boot < Floor(s').0)
            else
              && skips == 0
              && (GoesOnWith(s', boot) == GoesOnWith(s, boot) || boot < Floor(s').0)
  {
    hide MakeFrame;
    if event.MakeOne? && s.source.Some? {
      MakeFrameEffect(s.source.value, s.file, event.sample, event.persisted);
      NumbersOfOne(s, event, boot);
    }
  }

  lemma NumbersOfOne(s: Station, event: SourceEvent, boot: int)
    ensures var emitted := EmittedBy(s, event);
            NumbersOf(emitted, boot) ==
            if emitted != [] && emitted[0].bootId == boot then [emitted[0].sequenceNumber] else []
  {
    AtMostOne(s, event);
    var emitted := EmittedBy(s, event);
    assert emitted != [] ==> emitted[1..] == [];
  }

  lemma AccountedPrepends(start: int, skips: int, rest: seq<int>, restSkips: int)
    requires 0 <= skips <= 1 && Rules.IsUint32(start + skips)
    requires Accounted(start + skips + 1, rest, restSkips) || (rest == [] && restSkips == 0)
    ensures Accounted(start, [start + skips] + rest, skips + restSkips)
  {
    var numbers := [start + skips] + rest;
    forall i | 0 <= i < |numbers| - 1 ensures numbers[i] < numbers[i + 1] <= numbers[i] + 2 {
      if i > 0 {
        assert rest[i - 1] < rest[i - 1 + 1] <= rest[i - 1] + 2;
      }
    }
  }

  /** In every boot session of every history of valid samples, the numbers rise by one, or
      by two where one was skipped, and nothing else is missing. */
  lemma {:induction false} SessionNumbers(s: Station, events: seq<SourceEvent>, boot: int)
    requires StationOk(s) && AllValid(events)
    ensures Accounted(GoesOnWith(s, boot), NumbersOf(Emitted(s, events), boot), SkipsIn(s, events, boot))
    decreases events
  {
    hide After, Emitted, EmittedBy, NumbersOf, SkipsIn, SkipsWithin;
    hide StationOk, ValidSample, Floor, GoesOnWith, Accounted;
    if events == [] {
      NoEvents(s, boot);
    } else {
      var s' := After(s, events[0]);
      var numbers := NumbersOf(EmittedBy(s, events[0]), boot);
      var skips := if SkipsWithin(s, events[0], boot) then 1 else 0;
      var rest, restSkips := NumbersOf(Emitted(s', events[1..]), boot), SkipsIn(s', events[1..], boot);
      FloorRises(s, events[0]);
      EventContinues(s, events[0], boot);
      NumbersSplit(s, events, boot);
      SessionNumbers(s', events[1..], boot);
      NothingAccounted(GoesOnWith(s, boot));
      if boot < Floor(s').0 {
        PastSession(s', events[1..], boot);
      }
      if numbers != [] {
        AccountedPrepends(GoesOnWith(s, boot), skips, rest, restSkips);
      } else {
        assert [] + rest == rest;
      }
    }
  }

  lemma NoEvents(s: Station, boot: int)
    ensures Accounted(GoesOnWith(s, boot), NumbersOf(Emitted(s, []), boot), SkipsIn(s, [], boot))
  {
  }

  lemma NothingAccounted(start: int)
    ensures Accounted(start, [], 0)
  {
  }
}
