/** The payload's numbering meets the ground's sequence rules. */
module SessionDelivery {
  import opened Outcomes
  import opened FrameCodec
  import opened Wire
  import opened PayloadSource
  import opened Storage
  import opened StorageInvariant
  import opened Pipeline
  import opened PipelineInvariant
  import opened PipelineTheorems
  import opened PipelineEvidence
  import Rules = SequenceRules
  import Ledger = SequenceLedger

  /** What the ledger of a session records when these numbers arrive in this order; None
      if one of them repeats the high-water mark. */
  function Arrivals(numbers: seq<int>): Option<seq<Ledger.Entry>> {
    if numbers == [] then Some([])
    else
      var before := Arrivals(numbers[..|numbers| - 1]);
      if before.None? then None
      else
        var placed := Ledger.Place(Ledger.Replay(before.value), numbers[|numbers| - 1]);
        if placed.Ok? then Some(before.value + [placed.value]) else None
  }

  /** Rising numbers, each less than half the range above the one before. */
  predicate InOrder(numbers: seq<int>) {
    && (forall i :: 0 <= i < |numbers| ==> Rules.IsUint32(numbers[i]))
    && (forall i :: 0 <= i < |numbers| - 1 ==> numbers[i] < numbers[i + 1] < numbers[i] + Rules.HALF_RANGE)
  }

  /** The ledger of numbers that arrived in order. */
  predicate CleanLedger(entries: seq<Ledger.Entry>, numbers: seq<int>) {
    && Ledger.Legit(entries)
    && |entries| == |numbers|
    && (forall i :: 0 <= i < |entries| ==> entries[i].sequence == numbers[i] && entries[i].placement != Ledger.LATE)
    && Ledger.LateCount(entries) == 0
    && (numbers != [] ==>
          Ledger.Replay(entries) ==
          Some(Ledger.Row(numbers[|numbers| - 1], |numbers|, numbers[|numbers| - 1] + 1 - |numbers|)))
  }

  /** Numbers that arrive in order are all accepted, none of them late, and exactly the
      numbers passed over are counted as missing. */
  lemma {:induction false} InOrderArrivals(numbers: seq<int>)
    requires InOrder(numbers)
    ensures Arrivals(numbers).Some? && CleanLedger(Arrivals(numbers).value, numbers)
  {
    hide CleanLedger, InOrder, Ledger.Place;
    if numbers == [] {
      EmptyLedger();
    } else {
      var before, last := numbers[..|numbers| - 1], numbers[|numbers| - 1];
      assert before + [last] == numbers;
      PrefixInOrder(before, last);
      InOrderArrivals(before);
      NextInOrder(Arrivals(before).value, before, last);
    }
  }

  lemma EmptyLedger()
    ensures CleanLedger([], [])
  {
  }

  lemma {:induction false} Rising(numbers: seq<int>, i: nat)
    requires InOrder(numbers) && i < |numbers|
    ensures numbers[i] <= numbers[|numbers| - 1]
    decreases |numbers| - i
  {
    if i < |numbers| - 1 {
      Rising(numbers, i + 1);
    }
  }

  lemma NextInOrder(entries: seq<Ledger.Entry>, before: seq<int>, last: int)
    requires InOrder(before + [last]) && CleanLedger(entries, before)
    ensures Ledger.Place(Ledger.Replay(entries), last).Ok?
    ensures CleanLedger(entries + [Ledger.Place(Ledger.Replay(entries), last).value], before + [last])
    ensures last !in Ledger.Sequences(entries)
  {
    hide Ledger.Place, Ledger.Sequences, Ledger.MissingSum, Ledger.Wraps, Ledger.LastForward;
    NextIsNew(entries, before, last);
    Ledger.RowCounts(entries);
    assert before != [] ==>
             (before + [last])[|before| - 1] == before[|before| - 1] && (before + [last])[|before|] == last;
    assert (before + [last])[|before|] == last;
    var entry := Ledger.OtherNumberIsPlaced(Ledger.Replay(entries), last);
    Ledger.LegitGrows(entries, entry);
    assert (entries + [entry])[..|entries|] == entries;
  }

  lemma NextIsNew(entries: seq<Ledger.Entry>, before: seq<int>, last: int)
    requires InOrder(before + [last]) && CleanLedger(entries, before)
    ensures last !in Ledger.Sequences(entries)
    ensures before != [] ==> before[|before| - 1] < last
  {
    var all := before + [last];
    assert before != [] ==> all[|before| - 1] < all[|before| - 1 + 1];
    forall i | 0 <= i < |entries| ensures entries[i].sequence < last {
      assert InOrder(before) by {
        forall k | 0 <= k < |before| ensures Rules.IsUint32(before[k]) {
          assert all[k] == before[k];
        }
        forall k | 0 <= k < |before| - 1 ensures before[k] < before[k + 1] < before[k] + Rules.HALF_RANGE {
          assert all[k] < all[k + 1] < all[k] + Rules.HALF_RANGE;
        }
      }
      Rising(before, i);
    }
  }

  /** If all frames of one boot session of any history of valid samples arrive in order,
      the ground records none as late and none twice, and what it counts as missing is what
      the session skipped without rolling over, and the numbers before it was first seen. */
  lemma SessionArrivesInOrder(s: Station, events: seq<SourceEvent>, boot: int)
    requires StationOk(s) && AllValid(events)
    ensures var numbers := NumbersOf(Emitted(s, events), boot);
            && Arrivals(numbers).Some?
            && CleanLedger(Arrivals(numbers).value, numbers)
            && (numbers != [] ==>
                  Ledger.Replay(Arrivals(numbers).value).value.missingCount
                  == GoesOnWith(s, boot) + SkipsIn(s, events, boot))
  {
    hide NumbersOf, Emitted, SkipsIn, GoesOnWith, StationOk, AllValid, Arrivals;
    SessionNumbers(s, events, boot);
    InOrderArrivals(NumbersOf(Emitted(s, events), boot));
  }

  /** The same seen from the tables: while the session's packets are those of an arrival in
      order, the next frame in order becomes the next accepted packet. */
  lemma NextFrameIsAccepted(db: Database, id: ReceiptId, values: TelemetryFrame, maxAttempts: int, numbers: seq<int>)
    requires SequencesOk(db.packets, db.sequences) && Decides(db, id, values, maxAttempts)
    requires InOrder(numbers + [values.sequenceNumber]) && Arrivals(numbers).Some?
    requires SessionEntries(db.packets, SessionOf(KeyOf(values))) == Arrivals(numbers).value
    ensures var (db', result) := AcceptPacket(db, id, values, maxAttempts);
            var session, now := SessionOf(KeyOf(values)), numbers + [values.sequenceNumber];
            && result.Ok? && result.value.status == ACCEPTED
            && result.value.placement != Some(Ledger.LATE)
            && Arrivals(now).Some?
            && SessionEntries(db'.packets, session) == Arrivals(now).value
  {
    var key, last := KeyOf(values), values.sequenceNumber;
    var session, now := SessionOf(key), numbers + [last];
    var entries := Arrivals(numbers).value;
    assert now[..|numbers|] == numbers && now[|numbers|] == last;
    PrefixInOrder(numbers, last);
    InOrderArrivals(numbers);
    NextInOrder(entries, numbers, last);
    SessionSequences(db.packets, session, last);
    assert FindPacket(db.packets, key).None?;
    AcceptedEntry(db, id, values, maxAttempts);
  }

  lemma PrefixInOrder(numbers: seq<int>, last: int)
    requires InOrder(numbers + [last])
    ensures InOrder(numbers)
  {
    var all := numbers + [last];
    forall k | 0 <= k < |numbers| ensures Rules.IsUint32(numbers[k]) {
      assert all[k] == numbers[k];
    }
    forall k | 0 <= k < |numbers| - 1 ensures numbers[k] < numbers[k + 1] < numbers[k] + Rules.HALF_RANGE {
      assert all[k] < all[k + 1] < all[k] + Rules.HALF_RANGE;
    }
  }

  /** A new key adds to its session exactly the entry the ledger places it with. */
  lemma AcceptedEntry(db: Database, id: ReceiptId, values: TelemetryFrame, maxAttempts: int)
    requires SequencesOk(db.packets, db.sequences) && Decides(db, id, values, maxAttempts)
    requires FindPacket(db.packets, KeyOf(values)).None?
    ensures var (db', result) := AcceptPacket(db, id, values, maxAttempts);
            var session := SessionOf(KeyOf(values));
            var entries := SessionEntries(db.packets, session);
            var placed := Ledger.Place(Ledger.Replay(entries), values.sequenceNumber);
            && placed.Ok?
            && result.Ok? && result.value.status == ACCEPTED && result.value.placement == Some(placed.value.placement)
            && SessionEntries(db'.packets, session) == entries + [placed.value]
  {
    var key := KeyOf(values);
    var entry := NewKeyIsPlaced(db, key);
    assert SessionOk(db.packets, db.sequences, SessionOf(key));
    var packet := AddRows(db, id, values, maxAttempts, entry).packets[|db.packets|];
    SessionEntriesAppend(db.packets, packet, SessionOf(key));
  }

  // ----- whole runs -----

  function NumberOf(frame: Delivered, session: SessionKey): seq<int> {
    if SessionOf(frame.key) == session then [frame.key.sequenceNumber] else []
  }

  /** The sequence numbers of one session among these frames, in their order. */
  function DecidedNumbers(frames: seq<Delivered>, session: SessionKey): seq<int> {
    if frames == [] then []
    else DecidedNumbers(frames[..|frames| - 1], session) + NumberOf(frames[|frames| - 1], session)
  }

  lemma DecidedNumbersGrow(frames: seq<Delivered>, frame: Delivered, session: SessionKey)
    ensures DecidedNumbers(frames + [frame], session) == DecidedNumbers(frames, session) + NumberOf(frame, session)
  {
    assert (frames + [frame])[..|frames|] == frames;
  }

  lemma {:induction false} DecidedNumbersPrepend(frame: Delivered, rest: seq<Delivered>, session: SessionKey)
    ensures DecidedNumbers([frame] + rest, session) == NumberOf(frame, session) + DecidedNumbers(rest, session)
  {
    hide DecidedNumbers, NumberOf;
    if rest == [] {
      NoNumbers(session);
      DecidedNumbersGrow([], frame, session);
      assert [frame] + rest == [] + [frame];
    } else {
      var before, last := rest[..|rest| - 1], rest[|rest| - 1];
      assert rest == before + [last];
      DecidedNumbersPrepend(frame, before, session);
      DecidedNumbersGrow([frame] + before, last, session);
      DecidedNumbersGrow(before, last, session);
      assert [frame] + rest == ([frame] + before) + [last];
    }
  }

  lemma {:induction false} StoredNumber(table: seq<Delivered>, session: SessionKey, i: nat)
    requires i < |table| && SessionOf(table[i].key) == session
    ensures table[i].key.sequenceNumber in DecidedNumbers(table, session)
  {
    if i < |table| - 1 {
      StoredNumber(table[..|table| - 1], session, i);
    }
  }

  predicate Distinct(numbers: seq<int>) {
    forall i, k :: 0 <= i < k < |numbers| ==> numbers[i] != numbers[k]
  }

  /** Frames of a session with different numbers all stay in the first-wins table. */
  lemma {:induction false} AllStay(table: seq<Delivered>, frames: seq<Delivered>, session: SessionKey)
    requires Distinct(DecidedNumbers(table, session) + DecidedNumbers(frames, session))
    ensures DecidedNumbers(FirstWins(table, frames), session)
            == DecidedNumbers(table, session) + DecidedNumbers(frames, session)
    decreases frames
  {
    if frames == [] {
      assert DecidedNumbers(table, session) + [] == DecidedNumbers(table, session);
    } else {
      var frame, rest := frames[0], frames[1..];
      assert frames == [frame] + rest;
      DecidedNumbersPrepend(frame, rest, session);
      var table' := Keep(table, frame);
      KeptNumbers(table, frame, DecidedNumbers(rest, session), session);
      assert DecidedNumbers(table', session) + DecidedNumbers(rest, session)
             == DecidedNumbers(table, session) + DecidedNumbers(frames, session);
      AllStay(table', rest, session);
    }
  }

  lemma KeptNumbers(table: seq<Delivered>, frame: Delivered, later: seq<int>, session: SessionKey)
    requires Distinct(DecidedNumbers(table, session) + (NumberOf(frame, session) + later))
    ensures DecidedNumbers(Keep(table, frame), session) == DecidedNumbers(table, session) + NumberOf(frame, session)
  {
    var before, number := DecidedNumbers(table, session), frame.key.sequenceNumber;
    DecidedNumbersGrow(table, frame, session);
    if SessionOf(frame.key) == session {
      var all := before + ([number] + later);
      assert all[|before|] == number;
      assert forall i :: 0 <= i < |before| ==> all[i] == before[i];
      assert number !in before;
      forall i | 0 <= i < |table| ensures table[i].key != frame.key {
        if SessionOf(table[i].key) == session {
          StoredNumber(table, session, i);
        }
      }
    } else {
      assert before + [] == before;
    }
  }

  lemma {:induction false} RisingIsDistinct(numbers: seq<int>)
    requires InOrder(numbers)
    ensures Distinct(numbers)
  {
    forall i, k | 0 <= i < k < |numbers| ensures numbers[i] != numbers[k] {
      var prefix := numbers[..k + 1];
      assert InOrder(numbers[..k]) && numbers[k - 1] < numbers[k] by {
        assert forall j :: 0 <= j < k ==> numbers[..k][j] == numbers[j];
        assert numbers[k - 1] < numbers[k - 1 + 1];
        forall j | 0 <= j < |numbers[..k]| - 1
          ensures numbers[..k][j] < numbers[..k][j + 1] < numbers[..k][j] + Rules.HALF_RANGE
        {
          assert numbers[j] < numbers[j + 1] < numbers[j] + Rules.HALF_RANGE;
        }
      }
      Rising(numbers[..k], i);
    }
  }

  function NumbersIn(entries: seq<Ledger.Entry>): (numbers: seq<int>)
    ensures |numbers| == |entries|
    ensures forall i :: 0 <= i < |entries| ==> numbers[i] == entries[i].sequence
  {
    seq(|entries|, i requires 0 <= i < |entries| => entries[i].sequence)
  }

  /** The ledger of a session shows the numbers of its stored frames. */
  lemma {:induction false} EntriesShowNumbers(packets: seq<Packet>, frames: seq<Delivered>, session: SessionKey)
    requires |frames| == |packets| && forall i :: 0 <= i < |packets| ==> frames[i].key == packets[i].key
    ensures NumbersIn(SessionEntries(packets, session)) == DecidedNumbers(frames, session)
  {
    if packets != [] {
      EntriesShowNumbers(packets[..|packets| - 1], frames[..|frames| - 1], session);
    }
  }

  lemma NumbersGrow(entries: seq<Ledger.Entry>, entry: Ledger.Entry)
    ensures NumbersIn(entries + [entry]) == NumbersIn(entries) + [entry.sequence]
  {
  }

  lemma ArrivalsGrow(numbers: seq<int>, entries: seq<Ledger.Entry>, last: int)
    requires Arrivals(numbers) == Some(entries)
    ensures var placed := Ledger.Place(Ledger.Replay(entries), last);
            placed.Ok? ==> Arrivals(numbers + [last]) == Some(entries + [placed.value])
  {
    hide Ledger.Place, Ledger.Replay;
    var all := numbers + [last];
    assert all[..|all| - 1] == numbers;
  }

  /** A ledger is determined by the numbers it took and their order. */
  lemma {:induction false} LedgerIsArrivals(entries: seq<Ledger.Entry>)
    requires Ledger.Legit(entries)
    ensures Arrivals(NumbersIn(entries)) == Some(entries)
  {
    hide Arrivals, NumbersIn, Ledger.Place, Ledger.Placed, Ledger.Replay, Ledger.Sequences, Ledger.MissingSum;
    hide Ledger.LateCount, Ledger.LastForward, Ledger.Wraps, Rules.IsUint32;
    if entries == [] {
      NoArrivals();
    } else {
      var before, last := entries[..|entries| - 1], entries[|entries| - 1];
      assert entries == before + [last];
      LedgerIsArrivals(before);
      Ledger.RowCounts(before);
      Ledger.PlaceIffPlaced(Ledger.Replay(before), last.sequence, last);
      ArrivalsGrow(NumbersIn(before), before, last.sequence);
      NumbersGrow(before, last);
    }
  }

  lemma NoArrivals()
    ensures Arrivals(NumbersIn([])) == Some([])
  {
  }

  /** What a run has stored of a session, in the order it was stored. */
  lemma StoredSession(actions: seq<Action>, sha: Bytes -> Digest, session: SessionKey)
    ensures var db := Run(START, actions, sha).db;
            && SessionOk(db.packets, db.sequences, session)
            && NumbersIn(SessionEntries(db.packets, session))
               == DecidedNumbers(FirstWins([], Deliveries(START, actions, sha)), session)
  {
    hide DbOk, LiveOk, Run, Deliveries, DecidedNumbers, SessionOk, SessionEntries, FirstWins, NumbersIn;
    var db := Run(START, actions, sha).db;
    Reachable(actions, sha);
    SessionsHold(db, session);
    PacketTableIsFirstWins(actions, sha);
    EntriesShowNumbers(db.packets, StoredFrames(db), session);
  }

  /** A ledger that took these numbers in order is clean. */
  lemma InOrderLedger(entries: seq<Ledger.Entry>, numbers: seq<int>)
    requires Ledger.Legit(entries) && NumbersIn(entries) == numbers && InOrder(numbers)
    ensures CleanLedger(entries, numbers)
  {
    hide Ledger.Legit, NumbersIn, InOrder, Arrivals, CleanLedger;
    LedgerIsArrivals(entries);
    InOrderArrivals(numbers);
  }

  /** In every run, with whatever else arrives, fails or restarts: if the decided frames of
      a session have rising numbers, each less than half the range above the one before,
      all of them are accepted, none is late, and the row counts exactly the numbers passed
      over as missing. */
  lemma SessionInOrderInRuns(actions: seq<Action>, sha: Bytes -> Digest, session: SessionKey)
    requires InOrder(DecidedNumbers(Deliveries(START, actions, sha), session))
    ensures var db := Run(START, actions, sha).db;
            var numbers := DecidedNumbers(Deliveries(START, actions, sha), session);
            && CleanLedger(SessionEntries(db.packets, session), numbers)
            && (numbers != [] ==>
                  session in db.sequences
                  && db.sequences[session].counts ==
                     Ledger.Row(numbers[|numbers| - 1], |numbers|, numbers[|numbers| - 1] + 1 - |numbers|))
  {
    hide Run, Deliveries, CleanLedger, InOrder, DecidedNumbers, FirstWins, SessionEntries, NumbersIn, Distinct;
    hide Ledger.Legit, Ledger.Replay;
    var db := Run(START, actions, sha).db;
    var frames := Deliveries(START, actions, sha);
    var numbers := DecidedNumbers(frames, session);
    StoredSession(actions, sha, session);
    RisingIsDistinct(numbers);
    NoNumbers(session);
    assert [] + numbers == numbers;
    AllStay([], frames, session);
    InOrderLedger(SessionEntries(db.packets, session), numbers);
    RowOf(SessionEntries(db.packets, session), numbers);
  }

  lemma NoNumbers(session: SessionKey)
    ensures DecidedNumbers([], session) == []
  {
  }

  lemma RowOf(entries: seq<Ledger.Entry>, numbers: seq<int>)
    requires CleanLedger(entries, numbers)
    ensures numbers != [] ==>
              Ledger.Replay(entries) == Some(
                Ledger.Row(numbers[|numbers| - 1], |numbers|, numbers[|numbers| - 1] + 1 - |numbers|))
  {
  }

  /** From the payload to the ground: if what a run decides of a boot session is what the
      payload emitted in it, in order, nothing is late, nothing repeats, and the missing
      count is the number of skips that did not roll the session over. */
  lemma EmittedSessionInRuns(
    s: Station, events: seq<SourceEvent>, actions: seq<Action>, sha: Bytes -> Digest, session: SessionKey)
    requires StationOk(s) && AllValid(events) && GoesOnWith(s, session.bootId) == 0
    requires DecidedNumbers(Deliveries(START, actions, sha), session) == NumbersOf(Emitted(s, events), session.bootId)
    requires NumbersOf(Emitted(s, events), session.bootId) != []
    ensures var db := Run(START, actions, sha).db;
            var numbers := NumbersOf(Emitted(s, events), session.bootId);
            && CleanLedger(SessionEntries(db.packets, session), numbers)
            && session in db.sequences
            && db.sequences[session].counts.acceptedCount == |numbers|
            && db.sequences[session].counts.missingCount == SkipsIn(s, events, session.bootId)
  {
    hide Run, Deliveries, NumbersOf, Emitted, SkipsIn, GoesOnWith, StationOk, AllValid, CleanLedger, DecidedNumbers;
    SessionNumbers(s, events, session.bootId);
    SessionInOrderInRuns(actions, sha, session);
  }
}
