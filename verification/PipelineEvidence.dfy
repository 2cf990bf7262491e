/** What the tables prove about the deliveries, in every run. */
module PipelineEvidence {
  import opened Outcomes
  import opened Wire
  import opened FrameCodec
  import opened JobLifecycle
  import opened Storage
  import opened StorageInvariant
  import opened Pipeline
  import opened PipelineInvariant
  import opened PipelineSafety
  import opened PipelineTheorems
  import Q = RedisQueue
  import Rules = SequenceRules
  import Ledger = SequenceLedger

  // ----- one receipt, one packet, one job -----

  function AcceptedReceipts(receipts: seq<Receipt>): set<ReceiptId> {
    set id: ReceiptId | id < |receipts| && receipts[id].status == ACCEPTED
  }

  function Sources(packets: seq<Packet>): set<ReceiptId> {
    set i: nat | i < |packets| :: packets[i].source
  }

  predicate SourcesDistinct(packets: seq<Packet>) {
    forall i, k :: 0 <= i < k < |packets| ==> packets[i].source != packets[k].source
  }

  lemma {:induction false} SourcesCount(packets: seq<Packet>)
    requires SourcesDistinct(packets)
    ensures |Sources(packets)| == |packets|
  {
    if packets != [] {
      var n := |packets| - 1;
      SourcesCount(packets[..n]);
      assert Sources(packets) == Sources(packets[..n]) + {packets[n].source} by {
        forall id | id in Sources(packets) ensures id in Sources(packets[..n]) + {packets[n].source} {
          var i: nat :| i < |packets| && packets[i].source == id;
          assert i < n ==> packets[..n][i].source == id;
        }
      }
      assert packets[n].source !in Sources(packets[..n]);
    }
  }

  /** Accepted receipts, logical packets and jobs correspond one to one: the n-th job is
      the job of the n-th packet, and the packets' sources are exactly the accepted
      receipts, each of them once. */
  lemma OneToOne(db: Database)
    requires DbOk(db)
    ensures |db.jobs| == |db.packets| == |AcceptedReceipts(db.receipts)|
    ensures Sources(db.packets) == AcceptedReceipts(db.receipts)
    ensures forall i :: 0 <= i < |db.packets| ==>
              && db.jobs[i].packet == db.packets[i].key
              && db.receipts[db.packets[i].source].packet == Some(db.packets[i].key)
    ensures forall i, k :: 0 <= i < k < |db.packets| ==>
              db.packets[i].key != db.packets[k].key && db.packets[i].source != db.packets[k].source
  {
    forall i | 0 <= i < |db.packets| ensures PacketOk(db.packets[i], db.receipts) {
    }
    assert SourcesDistinct(db.packets);
    SourcesCount(db.packets);
    SourcesAreAccepted(db.packets, db.receipts);
  }

  lemma SourcesAreAccepted(packets: seq<Packet>, receipts: seq<Receipt>)
    requires PacketsOk(packets, receipts) && ReceiptsOk(receipts, packets)
    ensures Sources(packets) == AcceptedReceipts(receipts)
  {
    forall id: ReceiptId | id in AcceptedReceipts(receipts) ensures id in Sources(packets) {
      assert ReceiptOk(receipts, id, packets);
      var at := FindPacket(packets, receipts[id].packet.value);
      assert packets[at.value].source == id;
    }
    forall id: ReceiptId | id in Sources(packets) ensures id in AcceptedReceipts(receipts) {
      var i: nat :| i < |packets| && packets[i].source == id;
      assert PacketOk(packets[i], receipts);
    }
  }

  // ----- the packet table is the first-wins map of the deliveries -----

  datatype Delivered = Delivered(key: PacketKey, body: Bytes)

  /** The reference: of several frames with one key the first one stays. */
  function Keep(table: seq<Delivered>, frame: Delivered): seq<Delivered> {
    if exists i :: 0 <= i < |table| && table[i].key == frame.key then table else table + [frame]
  }

  function FirstWins(table: seq<Delivered>, frames: seq<Delivered>): seq<Delivered>
    decreases frames
  {
    if frames == [] then table else FirstWins(Keep(table, frames[0]), frames[1..])
  }

  /** The frame that this action decides on, if any. */
  function DeliveredBy(s: System, action: Action): seq<Delivered> {
    if action.Accept? && DecidesNow(s, action.receipt, action.decodedAt, action.maxAttempts) then
      var body := s.db.receipts[action.receipt].rawBody;
      [Delivered(KeyOf(Decode(body, action.decodedAt).value), body)]
    else []
  }

  /** Such an acceptance gets to decide a pending receipt. */
  predicate DecidesNow(s: System, id: ReceiptId, decodedAt: int, maxAttempts: int) {
    && id < |s.db.receipts|
    && s.db.receipts[id].status == PENDING
    && decodedAt <= s.now
    && Decode(s.db.receipts[id].rawBody, decodedAt).Ok?
    && maxAttempts > 0
  }

  function Deliveries(s: System, actions: seq<Action>, sha: Bytes -> Digest): seq<Delivered>
    decreases actions
  {
    if actions == [] then [] else DeliveredBy(s, actions[0]) + Deliveries(Step(s, actions[0], sha), actions[1..], sha)
  }

  predicate SourcesExist(db: Database) {
    forall i :: 0 <= i < |db.packets| ==> db.packets[i].source < |db.receipts|
  }

  /** The packet table with the bytes preserved for each packet. */
  function StoredFrames(db: Database): (frames: seq<Delivered>)
    requires SourcesExist(db)
    ensures |frames| == |db.packets|
    ensures forall i :: 0 <= i < |frames| ==>
              frames[i] == Delivered(db.packets[i].key, db.receipts[db.packets[i].source].rawBody)
  {
    seq(|db.packets|, i requires 0 <= i < |db.packets| =>
      Delivered(db.packets[i].key, db.receipts[db.packets[i].source].rawBody))
  }

  lemma HaveSources(s: System, sha: Bytes -> Digest)
    requires SystemOk(s, sha)
    ensures SourcesExist(s.db) && KeysDistinct(s.db.packets) && SequencesOk(s.db.packets, s.db.sequences)
    ensures Authentic(s.db) && DigestsOk(s.db.receipts, sha)
  {
    forall i | 0 <= i < |s.db.packets| ensures s.db.packets[i].source < |s.db.receipts| {
      assert PacketOk(s.db.packets[i], s.db.receipts);
    }
  }

  /** What an action does to the packet table. */
  lemma StepKeepsFirst(s: System, action: Action, sha: Bytes -> Digest)
    requires SystemOk(s, sha)
    ensures SourcesExist(s.db) && SourcesExist(Step(s, action, sha).db)
    ensures StoredFrames(Step(s, action, sha).db) == FirstWins(StoredFrames(s.db), DeliveredBy(s, action))
  {
    hide SystemOk, Step;
    var s' := Step(s, action, sha);
    StepKeeps(s, action, sha);
    HaveSources(s, sha);
    HaveSources(s', sha);
    PacketsAfter(s, action, sha);
    TableFollows(s.db, s'.db, DeliveredBy(s, action));
  }

  /** The packet table grows by the delivered frame exactly if its key is new. */
  predicate PacketsFollow(db: Database, db': Database, delivered: seq<Delivered>) {
    && |delivered| <= 1
    && SourcesExist(db')
    && if delivered != [] && FindPacket(db.packets, delivered[0].key).None? then
         && |db'.packets| == |db.packets| + 1
         && db'.packets[..|db.packets|] == db.packets
         && db'.packets[|db.packets|].key == delivered[0].key
         && db'.receipts[db'.packets[|db.packets|].source].rawBody == delivered[0].body
       else db'.packets == db.packets
  }

  lemma TableFollows(db: Database, db': Database, delivered: seq<Delivered>)
    requires SourcesExist(db) && Extends(db, db') && PacketsFollow(db, db', delivered)
    ensures StoredFrames(db') == FirstWins(StoredFrames(db), delivered)
  {
    forall i | 0 <= i < |db.packets| ensures StoredFrames(db')[i] == StoredFrames(db)[i] {
      assert ReceiptKept(db.receipts[db.packets[i].source], db'.receipts[db.packets[i].source]);
    }
    if delivered != [] {
      assert delivered[1..] == [];
      assert FirstWins(StoredFrames(db), delivered) == Keep(StoredFrames(db), delivered[0]);
      var at := FindPacket(db.packets, delivered[0].key);
      if at.Some? {
        assert StoredFrames(db)[at.value].key == delivered[0].key;
      }
    }
  }

  lemma PacketsAfter(s: System, action: Action, sha: Bytes -> Digest)
    requires SystemOk(s, sha) && SystemOk(Step(s, action, sha), sha)
    ensures PacketsFollow(s.db, Step(s, action, sha).db, DeliveredBy(s, action))
  {
    hide DbOk, LiveOk, WorkStep, SequencesOk, Authentic, DigestsOk, KeysDistinct;
    HaveSources(s, sha);
    HaveSources(Step(s, action, sha), sha);
    match action
    case Accept(receipt, decodedAt, maxAttempts) => AcceptedPackets(s, receipt, decodedAt, maxAttempts);
    case BeginRecovery(gateway, limit) => RecoveryKeeps(s, gateway, limit, sha);
    case Enqueue(gateway) => EnqueueKeeps(s, gateway, sha);
    case WorkerStarts(worker) => StartKeeps(s, worker, sha);
    case Work(worker, step) =>
      if worker in s.workers {
        WorkKeepsPackets(s, worker, step);
      }
    case _ =>
  }

  lemma WorkKeepsPackets(s: System, worker: WorkerId, step: WorkerStep)
    requires worker in s.workers
    ensures WorkStep(s, worker, step).db.packets == s.db.packets
  {
    hide Decode, Q.Claim, Q.Ack, Q.Retry, Q.DeadLetter, JobLifecycle.Claim, Claimable, FailAttempt, FindPacket;
  }

  lemma AcceptedPackets(s: System, id: ReceiptId, decodedAt: int, maxAttempts: int)
    requires SequencesOk(s.db.packets, s.db.sequences) && SourcesExist(s.db)
    requires SourcesExist(AcceptStep(s, id, decodedAt, maxAttempts).db)
    ensures PacketsFollow(
              s.db, AcceptStep(s, id, decodedAt, maxAttempts).db, DeliveredBy(s, Accept(id, decodedAt, maxAttempts)))
  {
    if DecidesNow(s, id, decodedAt, maxAttempts) {
      var values := Decode(s.db.receipts[id].rawBody, decodedAt).value;
      EncodeInvertsDecode(s.db.receipts[id].rawBody, decodedAt);
      DecidedPackets(s.db, id, values, maxAttempts);
    }
  }

  lemma DecidedPackets(db: Database, id: ReceiptId, values: TelemetryFrame, maxAttempts: int)
    requires SequencesOk(db.packets, db.sequences) && Decides(db, id, values, maxAttempts)
    ensures var db' := AcceptPacket(db, id, values, maxAttempts).0;
            if FindPacket(db.packets, KeyOf(values)).Some? then db'.packets == db.packets
            else
              && |db'.packets| == |db.packets| + 1
              && db'.packets[..|db.packets|] == db.packets
              && db'.packets[|db.packets|].key == KeyOf(values)
              && db'.packets[|db.packets|].source == id < |db'.receipts|
              && db'.receipts[id].rawBody == db.receipts[id].rawBody
  {
    var at := FindPacket(db.packets, KeyOf(values));
    if at.Some? {
      StoredKeyShape(db, id, db.packets[at.value]);
    } else {
      var entry := NewKeyShape(db, id, values, maxAttempts);
    }
  }

  lemma {:induction false} FirstWinsConcat(table: seq<Delivered>, a: seq<Delivered>, b: seq<Delivered>)
    ensures FirstWins(table, a + b) == FirstWins(FirstWins(table, a), b)
    decreases a
  {
    if a == [] {
      assert a + b == b;
    } else {
      assert (a + b)[1..] == a[1..] + b;
      FirstWinsConcat(Keep(table, a[0]), a[1..], b);
    }
  }

  lemma {:induction false} RunKeepsFirst(s: System, actions: seq<Action>, sha: Bytes -> Digest)
    requires SystemOk(s, sha)
    ensures SourcesExist(s.db) && SourcesExist(Run(s, actions, sha).db)
    ensures StoredFrames(Run(s, actions, sha).db) == FirstWins(StoredFrames(s.db), Deliveries(s, actions, sha))
    decreases actions
  {
    hide SystemOk, Step, StoredFrames, DeliveredBy;
    if actions == [] {
      HaveSources(s, sha);
    } else {
      var s' := Step(s, actions[0], sha);
      StepKeeps(s, actions[0], sha);
      StepKeepsFirst(s, actions[0], sha);
      RunKeepsFirst(s', actions[1..], sha);
      FirstWinsConcat(StoredFrames(s.db), DeliveredBy(s, actions[0]), Deliveries(s', actions[1..], sha));
    }
  }

  /** In every run the packet table is the first-wins map from (payload, boot, sequence)
      to bytes over the frames that were decided, in order of first arrival. */
  lemma PacketTableIsFirstWins(actions: seq<Action>, sha: Bytes -> Digest)
    ensures SourcesExist(Run(START, actions, sha).db)
    ensures StoredFrames(Run(START, actions, sha).db) == FirstWins([], Deliveries(START, actions, sha))
  {
    StartOk(sha);
    RunKeepsFirst(START, actions, sha);
    assert StoredFrames(START.db) == [];
  }

  // ----- the transaction decides as the pure algorithm does -----

  function StoredBytes(db: Database, key: PacketKey): Option<Bytes>
    requires SourcesExist(db)
  {
    var at := FindPacket(db.packets, key);
    if at.Some? then Some(db.receipts[db.packets[at.value].source].rawBody) else None
  }

  function HighWater(db: Database, session: SessionKey): Option<int> {
    if session in db.sequences then Some(db.sequences[session].counts.highWater) else None
  }

  function StatusOf(disposition: Rules.Disposition): ValidationStatus {
    match disposition
    case DUPLICATE => ValidationStatus.DUPLICATE
    case CONFLICT => ValidationStatus.CONFLICT
    case _ => ACCEPTED
  }

  /** What the answer and the tables must show for a decision of the algorithm. */
  predicate Carries(
    db: Database, id: ReceiptId, key: PacketKey, db': Database, result: AcceptanceResult,
    decision: Rules.SequenceDecision)
  {
    && id < |db'.receipts|
    && result.status == db'.receipts[id].status == StatusOf(decision.disposition)
    && result.duplicate == (decision.disposition == Rules.DUPLICATE)
    && result.conflict == (decision.disposition == Rules.CONFLICT)
    && db'.receipts[id].reason != Some(SEQUENCE_STATE_CONFLICT)
    && HighWater(db', SessionOf(key)) == decision.nextHighWater
    && |db'.packets| == |db.packets| + (if decision.IsUnique() then 1 else 0)
    && |db'.jobs| == |db.jobs| + (if decision.shouldQueue then 1 else 0)
    && (decision.IsUnique() ==>
          && result.placement == Some(Ledger.PlacementOf(decision.disposition))
          && result.missingBefore == decision.missingCount)
  }

  /** The inline code of the acceptance transaction refines DecideSequence, asked with
      the session's high-water mark, the delivered bytes and the bytes stored under the
      same key; the algorithm never refuses, so the state conflict cannot arise. */
  lemma AcceptRefinesDecideSequence(
    db: Database, sha: Bytes -> Digest, id: ReceiptId, values: TelemetryFrame, maxAttempts: int)
    requires PacketsOk(db.packets, db.receipts) && SequencesOk(db.packets, db.sequences) && SourcesExist(db)
    requires DigestsOk(db.receipts, sha) && Decides(db, id, values, maxAttempts) && db.receipts[id].rawBody != []
    ensures var key := KeyOf(values);
            var decision := Rules.DecideSequence(
                              HighWater(db, SessionOf(key)), key.sequenceNumber, db.receipts[id].rawBody,
                              StoredBytes(db, key));
            var (db', result) := AcceptPacket(db, id, values, maxAttempts);
            decision.Ok? && result.Ok? && Carries(db, id, key, db', result.value, decision.value)
  {
    var key := KeyOf(values);
    var at := FindPacket(db.packets, key);
    HighWaterIsUint32(db, SessionOf(key));
    if at.Some? {
      StoredKeyRefines(db, sha, id, key, at.value);
    } else {
      NewKeyRefines(db, id, values, maxAttempts);
    }
  }

  lemma StoredKeyRefines(db: Database, sha: Bytes -> Digest, id: ReceiptId, key: PacketKey, at: nat)
    requires PacketsOk(db.packets, db.receipts) && SourcesExist(db) && DigestsOk(db.receipts, sha)
    requires id < |db.receipts| && at < |db.packets| && FindPacket(db.packets, key) == Some(at)
    requires db.receipts[id].rawBody != [] && Rules.IsUint32(key.sequenceNumber)
    requires HighWater(db, SessionOf(key)).Some? ==> Rules.IsUint32(HighWater(db, SessionOf(key)).value)
    ensures var decision := Rules.DecideSequence(
                              HighWater(db, SessionOf(key)), key.sequenceNumber, db.receipts[id].rawBody,
                              StoredBytes(db, key));
            var (db', result) := AcceptStoredKey(db, id, db.packets[at]);
            decision.Ok? && Carries(db, id, key, db', result, decision.value)
  {
    assert PacketOk(db.packets[at], db.receipts);
  }

  lemma NewKeyRefines(db: Database, id: ReceiptId, values: TelemetryFrame, maxAttempts: int)
    requires SequencesOk(db.packets, db.sequences) && SourcesExist(db) && Decides(db, id, values, maxAttempts)
    requires FindPacket(db.packets, KeyOf(values)).None? && db.receipts[id].rawBody != []
    ensures var key := KeyOf(values);
            var decision := Rules.DecideSequence(
                              HighWater(db, SessionOf(key)), key.sequenceNumber, db.receipts[id].rawBody,
                              StoredBytes(db, key));
            var (db', result) := AcceptNewKey(db, id, values, maxAttempts);
            decision.Ok? && Carries(db, id, key, db', result, decision.value)
  {
    var key := KeyOf(values);
    var entry := NewKeyIsPlaced(db, key);
    HighWaterIsUint32(db, SessionOf(key));
  }

  /** The row is an exact account of the session's packets. */
  predicate ExactAccount(row: Ledger.Row, entries: seq<Ledger.Entry>) {
    && entries != []
    && row.acceptedCount == |entries| == |Ledger.Sequences(entries)|
    && row.missingCount == Ledger.MissingSum(entries)
    && row.highWater in Ledger.Sequences(entries)
    && (row.missingCount + row.acceptedCount - Ledger.LateCount(entries)) % TWO_TO_32
       == (row.highWater + 1) % TWO_TO_32
    && ((forall e :: e in entries ==> e.sequence < Rules.HALF_RANGE) ==>
          && (forall e :: e in entries ==> e.sequence <= row.highWater)
          && row.missingCount - Ledger.LateCount(entries) == |Ledger.Holes(entries, row.highWater)|)
  }

  lemma LedgerIsExact(entries: seq<Ledger.Entry>, row: Ledger.Row)
    requires Ledger.Legit(entries) && Ledger.Replay(entries) == Some(row)
    ensures ExactAccount(row, entries)
  {
    hide Ledger.Holes, Ledger.Sequences, Ledger.Wraps, Ledger.LastForward, Rules.IsUint32;
    Ledger.RowCounts(entries);
    Ledger.Conservation(entries);
    if forall e :: e in entries ==> e.sequence < Rules.HALF_RANGE {
      Ledger.ExactHoleCount(entries);
    }
  }

  /** Whatever the order of arrival, the sequence row of a session is an exact account of
      the session's packets in every run. */
  lemma SequenceAccountInRuns(actions: seq<Action>, sha: Bytes -> Digest, session: SessionKey)
    requires session in Run(START, actions, sha).db.sequences
    ensures var db := Run(START, actions, sha).db;
            ExactAccount(db.sequences[session].counts, SessionEntries(db.packets, session))
  {
    hide DbOk, LiveOk, Run, ExactAccount;
    Reachable(actions, sha);
    SessionsHold(Run(START, actions, sha).db, session);
    var db := Run(START, actions, sha).db;
    LedgerIsExact(SessionEntries(db.packets, session), db.sequences[session].counts);
  }

  lemma SessionsHold(db: Database, session: SessionKey)
    requires DbOk(db)
    ensures SessionOk(db.packets, db.sequences, session)
  {
  }

  /** The refinement holds of every acceptance of every run. */
  lemma AcceptRefinesInRuns(
    actions: seq<Action>, sha: Bytes -> Digest, id: ReceiptId, values: TelemetryFrame, maxAttempts: int)
    requires var db := Run(START, actions, sha).db;
             Decides(db, id, values, maxAttempts) && db.receipts[id].rawBody != []
    ensures var db := Run(START, actions, sha).db;
            var key, (db', result) := KeyOf(values), AcceptPacket(db, id, values, maxAttempts);
            && SourcesExist(db)
            && result.Ok?
            && exists decision: Rules.SequenceDecision ::
                 && Rules.DecideSequence(
                      HighWater(db, SessionOf(key)), key.sequenceNumber, db.receipts[id].rawBody, StoredBytes(db, key))
                    == Ok(decision)
                 && Carries(db, id, key, db', result.value, decision)
  {
    hide LiveOk, Run, Carries, AcceptPacket, Rules.DecideSequence;
    Reachable(actions, sha);
    HaveSources(Run(START, actions, sha), sha);
    AcceptRefinesDecideSequence(Run(START, actions, sha).db, sha, id, values, maxAttempts);
  }
}
