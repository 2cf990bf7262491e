/** From the sensor to the result: what the payload samples is what the ground stores. */
module EndToEnd {
  import opened Outcomes
  import opened Wire
  import opened FrameCodec
  import opened PayloadSource
  import opened Storage
  import opened StorageInvariant
  import opened PipelineInvariant
  import opened TransactionEffects
  import opened GatewayFlow
  import opened GatewayVerdicts
  import JobLifecycle
  import PipelineRedecode
  import Worker = WorkerFlow
  import Q = RedisQueue

  /** The simulator's request for these bytes. */
  function Delivery(raw: Bytes, requestId: RequestId, receivedAt: int): Request {
    Request(raw, Some(requestId), true, receivedAt)
  }

  lemma TakenUpIsSound(
    s: Stores, s': Stores, sha: Bytes -> Digest, id: ReceiptId, values: TelemetryFrame, maxAttempts: int)
    requires Authentic(s.db) && Desk(s', sha) && id < |s.db.receipts| && TakenUp(s, s', id, values, maxAttempts)
    requires ValidFrame(values) && s.db.receipts[id].rawBody == WireForm(values)
    ensures Worker.Sound(s')
    ensures |s.db.packets| < |s'.db.packets| && s'.db.packets[|s.db.packets|].values == values
    ensures s'.db.packets[|s.db.packets|].source == id < |s'.db.receipts|
    ensures s'.db.receipts[id].receivedAt == s.db.receipts[id].receivedAt
  {
    hide DbOk, WireForm;
    forall i | 0 <= i < |s'.db.packets| ensures AuthenticPacket(s'.db.packets[i], s'.db.receipts) {
      if i < |s.db.packets| {
        assert AuthenticPacket(s.db.packets[i], s.db.receipts);
      }
    }
  }

  /** The ground has a place for the frame: it has no packet under its key and has not seen
      the request id. */
  predicate IsNew(db: Database, frame: TelemetryFrame, requestId: RequestId) {
    && (forall i :: 0 <= i < |db.packets| ==> db.packets[i].key != KeyOf(frame))
    && FirstWith(db.receipts, Some(requestId)).None?
  }

  /** One request takes up what the payload emitted. */
  lemma EmittedIsTakenUp(
    s: Stores, sha: Bytes -> Digest, frame: TelemetryFrame, requestId: RequestId, receivedAt: int, maxAttempts: int)
    requires Worker.Sound(s) && DigestsOk(s.db.receipts, sha) && maxAttempts > 0
    requires ValidFrame(frame) && StampedBy(frame, receivedAt) && IsNew(s.db, frame, requestId)
    ensures var (s', response) := Handle(s, sha, Delivery(WireForm(frame), requestId, receivedAt), maxAttempts);
            var id, n := |s.db.receipts|, |s.db.jobs|;
            && response == Queued(id, KeyOf(frame))
            && Worker.Sound(s')
            && n == |s.db.packets| < |s'.db.packets| && n < |s'.db.jobs|
            && s'.db.packets[n].values == frame
            && s'.db.packets[n].source == id < |s'.db.receipts| && s'.db.receipts[id].receivedAt == receivedAt
            && s'.db.jobs[n].state == JobLifecycle.QUEUED && s'.db.jobs[n].packet == KeyOf(frame)
            && s'.queue.pending == [Q.Reference(Q.QueueMessage(n, KeyOf(frame)))] + s.queue.pending
  {
    hide DbOk, Handle, Decode, WireForm, DigestsOk, Authentic;
    var raw := WireForm(frame);
    var request := Delivery(raw, requestId, receivedAt);
    FirstDeliveryOutcome(s, sha, request, maxAttempts);
    DecodeInvertsEncode(frame, receivedAt);
    var s' := Handle(s, sha, request, maxAttempts).0;
    var receipt := Receipt(Some(requestId), receivedAt, raw, sha(raw), PENDING, None, None, None, NOT_APPLICABLE);
    var filed := Filed(s, receipt, s'.db.identities);
    FiledIsAuthentic(s, receipt, s'.db.identities);
    TablesOk(s.db);
    TakenUpIsSound(filed, s', sha, |s.db.receipts|, frame, maxAttempts);
  }

  lemma FiledIsAuthentic(s: Stores, receipt: Receipt, identities: map<RequestId, Identity>)
    requires Authentic(s.db)
    ensures Authentic(Filed(s, receipt, identities).db)
  {
    forall i | 0 <= i < |s.db.packets| ensures AuthenticPacket(s.db.packets[i], s.db.receipts + [receipt]) {
      assert AuthenticPacket(s.db.packets[i], s.db.receipts);
    }
  }

  /** The job's result under this key is made of this frame and receipt time. */
  predicate HasResult(db: Database, key: JobLifecycle.PacketKey, job: nat, frame: TelemetryFrame, receivedAt: int) {
    && job < |db.jobs| && db.jobs[job].state == JobLifecycle.COMPLETE
    && key in db.results && db.results[key].job == job
    && db.results[key].result == ProcessingResult(frame, receivedAt)
  }

  /** These bytes, sent once and then worked off with whatever waits already, are answered
      as queued and end as the result of the frame, under the key of the frame. */
  ghost predicate ReachesResult(
    s: Stores, sha: Bytes -> Digest, raw: Bytes, frame: TelemetryFrame, requestId: RequestId, receivedAt: int,
    maxAttempts: int, worker: JobLifecycle.WorkerId, clocks: seq<Worker.Clock>)
  {
    var key := JobLifecycle.PacketKey(frame.payloadId, frame.bootId, frame.sequenceNumber);
    var (s', response) := Handle(s, sha, Delivery(raw, requestId, receivedAt), maxAttempts);
    var (end, alive) := Worker.Turns(s', worker, clocks);
    && response == Queued(|s.db.receipts|, key)
    && alive
    && HasResult(end.db, key, |s.db.jobs|, frame, receivedAt)
  }

  lemma FrameReachesResult(
    s: Stores, sha: Bytes -> Digest, frame: TelemetryFrame, requestId: RequestId, receivedAt: int, maxAttempts: int,
    worker: JobLifecycle.WorkerId, clocks: seq<Worker.Clock>)
    requires Worker.Sound(s) && DigestsOk(s.db.receipts, sha) && maxAttempts > 0
    requires ValidFrame(frame) && StampedBy(frame, receivedAt) && IsNew(s.db, frame, requestId)
    requires |clocks| == |s.queue.pending| + 1 && Worker.Starting(clocks, receivedAt)
    ensures ReachesResult(s, sha, WireForm(frame), frame, requestId, receivedAt, maxAttempts, worker, clocks)
  {
    hide DbOk, Handle, WireForm, DigestsOk, Authentic, Worker.Turns, Extends, Worker.Settled;
    EmittedIsTakenUp(s, sha, frame, requestId, receivedAt, maxAttempts);
    var s' := Handle(s, sha, Delivery(WireForm(frame), requestId, receivedAt), maxAttempts).0;
    var n, message := |s.db.jobs|, Q.QueueMessage(|s.db.jobs|, KeyOf(frame));
    assert s'.queue.pending[0] == Q.Reference(message);
    Worker.QueueIsDrained(s', worker, clocks, receivedAt);
    ResultOfSettled(s', Worker.Turns(s', worker, clocks).0, n);
  }

  /** Whatever the payload samples within the ranges is stored as it was: same time, same
      readings, same mode and flags, under the identity the payload gave it. */
  lemma SampleReachesResult(
    source: Source, file: BootFile, sample: Sample, persisted: bool, s: Stores, sha: Bytes -> Digest,
    requestId: RequestId, receivedAt: int, maxAttempts: int, worker: JobLifecycle.WorkerId,
    clocks: seq<Worker.Clock>)
    requires MakeFrame(source, file, sample, persisted).2.Ok? && sample.timestampUs <= receivedAt + 300_000_000
    requires Worker.Sound(s) && DigestsOk(s.db.receipts, sha) && maxAttempts > 0
    requires IsNew(s.db, MakeFrame(source, file, sample, persisted).2.value.0, requestId)
    requires |clocks| == |s.queue.pending| + 1 && Worker.Starting(clocks, receivedAt)
    ensures var (source', _, made) := MakeFrame(source, file, sample, persisted);
            var (frame, raw) := made.value;
            && Carries(frame, sample, source'.bootId, source'.nextSequence - 1)
            && ReachesResult(s, sha, raw, frame, requestId, receivedAt, maxAttempts, worker, clocks)
  {
    hide Encode, ReachesResult, IsNew, DigestsOk, Worker.Sound;
    var frame := MakeFrame(source, file, sample, persisted).2.value.0;
    EncodeIffValid(frame, None);
    FrameReachesResult(s, sha, frame, requestId, receivedAt, maxAttempts, worker, clocks);
  }

  /** A settled job in time has the result of its own packet. */
  lemma ResultOfSettled(s: Stores, end: Stores, n: nat)
    requires Worker.Evident(s.db, n) && PipelineRedecode.InTime(s.db, n) && Extends(s.db, end.db)
    requires Worker.Settled(end, n) && DbOk(end.db)
    ensures var key := s.db.jobs[n].packet;
            && n < |end.db.jobs| && end.db.jobs[n].state == JobLifecycle.COMPLETE
            && key in end.db.results && end.db.results[key].job == n
            && end.db.results[key].result
               == ProcessingResult(s.db.packets[n].values, s.db.receipts[s.db.packets[n].source].receivedAt)
  {
    assert ReceiptKept(s.db.receipts[s.db.packets[n].source], end.db.receipts[s.db.packets[n].source]);
    assert JobKept(s.db.jobs[n], end.db.jobs[n]);
    assert ResultOk(end.db.results, end.db.jobs[n], n);
  }
}
