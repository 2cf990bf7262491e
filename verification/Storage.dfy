/** The telemetry tables and, for each repository transaction, the tables it leaves
    behind and the value it returns or the exception it raises. */
module Storage {
  import opened Outcomes
  import opened Wire
  import opened FrameCodec
  import opened JobLifecycle
  import Rules = SequenceRules
  import Ledger = SequenceLedger

  type ReceiptId = nat
  type RequestId = nat
  type Digest = nat

  const MAX_EVIDENCE_BODY_BYTES := 1_024

  datatype ValidationStatus = PENDING | ACCEPTED | REJECTED | DUPLICATE | CONFLICT

  datatype QueueStatus = NOT_APPLICABLE | AWAITS_QUEUE | REACHED_QUEUE

  datatype ReceiptReason =
    | FrameRule(rule: Reason)
    | INVALID_CONTENT_TYPE
    | INVALID_REQUEST_ID
    | REQUEST_ID_REUSED_WITH_DIFFERENT_BODY
    | SEQUENCE_CONFLICT
    | SEQUENCE_STATE_CONFLICT

  /** Exact evidence for one delivery; the receipt id is the row's place in the table. */
  datatype Receipt = Receipt(
    requestId: Option<RequestId>,
    receivedAt: int,
    rawBody: Bytes,
    bodyDigest: Digest,
    status: ValidationStatus,
    reason: Option<ReceiptReason>,
    duplicateOf: Option<ReceiptId>,
    packet: Option<PacketKey>,
    queueStatus: QueueStatus)

  datatype Identity = Identity(firstReceipt: ReceiptId, bodyDigest: Digest)

  datatype Packet = Packet(
    key: PacketKey,
    source: ReceiptId,
    values: TelemetryFrame,
    rawDigest: Digest,
    placement: Ledger.Placement,
    missingBefore: int)

  datatype SessionKey = SessionKey(payloadId: int, bootId: int)

  datatype SequenceRow = SequenceRow(counts: Ledger.Row, lastHighWaterPacket: PacketKey)

  /** The display values and the health classes of the processed row are a function of
      the decoded frame and the receipt time, so these stand for them. */
  datatype ProcessingResult = ProcessingResult(frame: TelemetryFrame, receivedAt: int)

  datatype ResultRow = ResultRow(job: JobId, result: ProcessingResult, processedAt: int)

  datatype Database = Database(
    receipts: seq<Receipt>,
    identities: map<RequestId, Identity>,
    packets: seq<Packet>,
    sequences: map<SessionKey, SequenceRow>,
    jobs: seq<Job>,
    results: map<PacketKey, ResultRow>)

  const NEW_DATABASE := Database([], map[], [], map[], [], map[])

  // ----- look-ups -----

  function KeyOf(values: TelemetryFrame): PacketKey {
    PacketKey(values.payloadId, values.bootId, values.sequenceNumber)
  }

  function SessionOf(key: PacketKey): SessionKey {
    SessionKey(key.payloadId, key.bootId)
  }

  function FindPacket(packets: seq<Packet>, key: PacketKey): (found: Option<nat>)
    ensures found.Some? ==> found.value < |packets| && packets[found.value].key == key
    ensures found.None? ==> forall i :: 0 <= i < |packets| ==> packets[i].key != key
  {
    if packets == [] then None
    else if packets[|packets| - 1].key == key then Some(|packets| - 1)
    else FindPacket(packets[..|packets| - 1], key)
  }

  function FindJob(jobs: seq<Job>, key: PacketKey): (found: Option<JobId>)
    ensures found.Some? ==> found.value < |jobs| && jobs[found.value].packet == key
    ensures found.None? ==> forall i :: 0 <= i < |jobs| ==> jobs[i].packet != key
  {
    if jobs == [] then None
    else if jobs[|jobs| - 1].packet == key then Some(|jobs| - 1)
    else FindJob(jobs[..|jobs| - 1], key)
  }

  function QueueStatusOf(state: JobState): QueueStatus {
    if state == PENDING_QUEUE then AWAITS_QUEUE else REACHED_QUEUE
  }

  // ----- record_delivery -----

  datatype DeliveryResult = DeliveryResult(
    receipt: ReceiptId,
    status: ValidationStatus,
    queueStatus: QueueStatus,
    requestReplay: bool,
    requestConflict: bool,
    duplicateOf: Option<ReceiptId>,
    packet: Option<PacketKey>)

  function DeliveryOf(id: ReceiptId, receipt: Receipt, replay: bool, conflict: bool): DeliveryResult {
    DeliveryResult(id, receipt.status, receipt.queueStatus, replay, conflict, receipt.duplicateOf, receipt.packet)
  }

  function NewReceipt(sha: Bytes -> Digest, body: Bytes, requestId: Option<RequestId>, now: int): Receipt {
    Receipt(requestId, now, body, sha(body), PENDING, None, None, None, NOT_APPLICABLE)
  }

  function RecordDelivery(db: Database, sha: Bytes -> Digest, body: Bytes, requestId: Option<RequestId>, now: int)
    : (Database, Result<DeliveryResult, StorageError>)
  {
    var receipt := NewReceipt(sha, body, requestId, now);
    var id := |db.receipts|;
    if |body| > MAX_EVIDENCE_BODY_BYTES then (db, Err(ValueError))
    else if requestId.Some? && requestId.value in db.identities then
      var identity := db.identities[requestId.value];
      if identity.firstReceipt >= |db.receipts| then (db, Err(Inconsistent))
      else
        var first := db.receipts[identity.firstReceipt];
        if identity.bodyDigest == sha(body) && first.rawBody == body then
          (db, Ok(DeliveryOf(identity.firstReceipt, first, true, false)))
        else
          var conflicting := receipt.(
            status := CONFLICT, reason := Some(REQUEST_ID_REUSED_WITH_DIFFERENT_BODY),
            duplicateOf := Some(identity.firstReceipt));
          (db.(receipts := db.receipts + [conflicting]), Ok(DeliveryOf(id, conflicting, false, true)))
    else
      (db.(receipts := db.receipts + [receipt],
           identities := if requestId.Some? then db.identities[requestId.value := Identity(id, sha(body))]
                         else db.identities),
       Ok(DeliveryOf(id, receipt, false, false)))
  }

  // ----- reject_delivery -----

  function RejectDelivery(db: Database, id: ReceiptId, reason: ReceiptReason)
    : (Database, Result<DeliveryResult, StorageError>)
  {
    if id >= |db.receipts| then (db, Err(DeliveryNotFound))
    else
      var receipt := db.receipts[id];
      if receipt.status == REJECTED then
        if receipt.reason != Some(reason) then (db, Err(InvalidDeliveryState))
        else (db, Ok(DeliveryOf(id, receipt, true, false)))
      else if receipt.status != PENDING then (db, Err(InvalidDeliveryState))
      else
        var rejected := receipt.(status := REJECTED, reason := Some(reason), queueStatus := NOT_APPLICABLE);
        (db.(receipts := db.receipts[id := rejected]), Ok(DeliveryOf(id, rejected, false, false)))
  }

  // ----- accept_packet_and_create_job -----

  datatype AcceptanceResult = AcceptanceResult(
    receipt: ReceiptId,
    packet: Option<PacketKey>,
    job: Option<JobId>,
    status: ValidationStatus,
    queueStatus: QueueStatus,
    placement: Option<Ledger.Placement>,
    missingBefore: int,
    duplicate: bool,
    conflict: bool,
    duplicateOf: Option<ReceiptId>)

  /** The stored answer for a receipt that was accepted, or found a duplicate, before. */
  function StoredAcceptance(db: Database, id: ReceiptId): AcceptanceResult
    requires id < |db.receipts|
  {
    var receipt := db.receipts[id];
    var at := if receipt.packet.Some? then FindPacket(db.packets, receipt.packet.value) else None;
    var job := if receipt.packet.Some? then FindJob(db.jobs, receipt.packet.value) else None;
    AcceptanceResult(
      id, receipt.packet, job, receipt.status,
      if job.Some? then QueueStatusOf(db.jobs[job.value].state) else receipt.queueStatus,
      if at.Some? then Some(db.packets[at.value].placement) else None,
      if at.Some? then db.packets[at.value].missingBefore else 0,
      receipt.status == DUPLICATE, false, receipt.duplicateOf)
  }

  /** Same digest and same bytes as the delivery the packet came from. */
  predicate ExactDuplicate(db: Database, packet: Packet, receipt: Receipt) {
    && packet.source < |db.receipts|
    && packet.rawDigest == receipt.bodyDigest
    && db.receipts[packet.source].rawBody == receipt.rawBody
  }

  /** A key that is stored already: the delivery is evidence only. */
  function AcceptStoredKey(db: Database, id: ReceiptId, packet: Packet): (Database, AcceptanceResult)
    requires id < |db.receipts|
  {
    var receipt := db.receipts[id].(
      packet := Some(packet.key), duplicateOf := Some(packet.source), queueStatus := NOT_APPLICABLE);
    if ExactDuplicate(db, packet, db.receipts[id]) then
      var job := FindJob(db.jobs, packet.key);
      (db.(receipts := db.receipts[id := receipt.(status := DUPLICATE, reason := None)]),
       AcceptanceResult(
         id, Some(packet.key), job, DUPLICATE,
         if job.Some? then QueueStatusOf(db.jobs[job.value].state) else NOT_APPLICABLE,
         Some(packet.placement), packet.missingBefore, true, false, Some(packet.source)))
    else
      (db.(receipts := db.receipts[id := receipt.(status := CONFLICT, reason := Some(SEQUENCE_CONFLICT))]),
       AcceptanceResult(
         id, Some(packet.key), None, CONFLICT, NOT_APPLICABLE, None, 0, false, true, Some(packet.source)))
  }

  function CountsOf(db: Database, session: SessionKey): Option<Ledger.Row> {
    if session in db.sequences then Some(db.sequences[session].counts) else None
  }

  /** The session row after a packet was placed; a late one leaves the high-water
      packet as it was. */
  function SequenceRowAfter(db: Database, key: PacketKey, entry: Ledger.Entry): SequenceRow {
    var session := SessionOf(key);
    SequenceRow(
      Ledger.Advance(CountsOf(db, session), entry),
      if session in db.sequences && entry.placement == Ledger.LATE then db.sequences[session].lastHighWaterPacket
      else key)
  }

  /** One packet, one job and one step of the session row for a new key. */
  function AddRows(db: Database, id: ReceiptId, values: TelemetryFrame, maxAttempts: int, entry: Ledger.Entry): Database
    requires id < |db.receipts|
  {
    var key, receipt := KeyOf(values), db.receipts[id];
    db.(receipts := db.receipts[id := receipt.(
                      status := ACCEPTED, reason := None, packet := Some(key), queueStatus := AWAITS_QUEUE)],
        packets := db.packets + [Packet(key, id, values, receipt.bodyDigest, entry.placement, entry.missingBefore)],
        sequences := db.sequences[SessionOf(key) := SequenceRowAfter(db, key, entry)],
        jobs := db.jobs + [NewJob(key, maxAttempts)])
  }

  function AcceptNewKey(db: Database, id: ReceiptId, values: TelemetryFrame, maxAttempts: int)
    : (Database, AcceptanceResult)
    requires id < |db.receipts|
  {
    var key := KeyOf(values);
    match Ledger.Place(CountsOf(db, SessionOf(key)), key.sequenceNumber)
    case Err(_) =>
      (db.(receipts := db.receipts[id := db.receipts[id].(
                         status := CONFLICT, reason := Some(SEQUENCE_STATE_CONFLICT))]),
       AcceptanceResult(id, None, None, CONFLICT, NOT_APPLICABLE, None, 0, false, true, None))
    case Ok(entry) =>
      (AddRows(db, id, values, maxAttempts, entry),
       AcceptanceResult(
         id, Some(key), Some(|db.jobs|), ACCEPTED, AWAITS_QUEUE, Some(entry.placement), entry.missingBefore,
         false, false, None))
  }

  function AcceptPacket(db: Database, id: ReceiptId, values: TelemetryFrame, maxAttempts: int)
    : (Database, Result<AcceptanceResult, StorageError>)
  {
    if !Rules.IsUint32(values.sequenceNumber) || values.bootId <= 0 || maxAttempts <= 0 then (db, Err(ValueError))
    else if id >= |db.receipts| then (db, Err(DeliveryNotFound))
    else if db.receipts[id].status in {ACCEPTED, DUPLICATE} then (db, Ok(StoredAcceptance(db, id)))
    else if db.receipts[id].status != PENDING then (db, Err(InvalidDeliveryState))
    else
      var at := FindPacket(db.packets, KeyOf(values));
      var (db', result) :=
        if at.Some? then AcceptStoredKey(db, id, db.packets[at.value]) else AcceptNewKey(db, id, values, maxAttempts);
      (db', Ok(result))
  }

  // ----- mark_job_queued -----

  /** The accepted receipts of the packet learn that its job reached the queue. */
  function ReceiptsReachQueue(receipts: seq<Receipt>, key: PacketKey): (after: seq<Receipt>)
    ensures |after| == |receipts|
    ensures forall i :: 0 <= i < |receipts| ==>
              after[i] == if receipts[i].packet == Some(key) && receipts[i].status == ACCEPTED
                          then receipts[i].(queueStatus := REACHED_QUEUE) else receipts[i]
  {
    seq(|receipts|, i requires 0 <= i < |receipts| =>
      if receipts[i].packet == Some(key) && receipts[i].status == ACCEPTED
      then receipts[i].(queueStatus := REACHED_QUEUE) else receipts[i])
  }

  function MarkJobQueued(db: Database, id: JobId, message: JobId): (Database, Result<bool, StorageError>) {
    if id >= |db.jobs| then (db, Err(JobNotFound))
    else
      match MarkQueued(db.jobs[id], message)
      case Err(error) => (db, Err(error))
      case Ok((job, moved)) =>
        if moved then
          (db.(jobs := db.jobs[id := job], receipts := ReceiptsReachQueue(db.receipts, job.packet)), Ok(true))
        else (db, Ok(false))
  }

  // ----- recoverable_queue_jobs -----

  predicate Recoverable(job: Job, now: int) {
    job.state == PENDING_QUEUE || job.state == QUEUED || RetryDue(job, now)
  }

  /** The first `limit` recoverable jobs among the first `upTo`, in order of creation. */
  function RecoverableAmong(jobs: seq<Job>, upTo: nat, now: int, limit: nat): (ids: seq<JobId>)
    requires upTo <= |jobs|
    ensures |ids| <= limit
    ensures forall id :: id in ids ==> id < upTo && Recoverable(jobs[id], now)
    ensures |ids| < limit ==> forall id :: 0 <= id < upTo && Recoverable(jobs[id], now) ==> id in ids
    ensures forall i, k :: 0 <= i < k < |ids| ==> ids[i] < ids[k]
  {
    if upTo == 0 then []
    else
      var earlier := RecoverableAmong(jobs, upTo - 1, now, limit);
      assert forall i :: 0 <= i < |earlier| ==> earlier[i] in earlier;
      if |earlier| < limit && Recoverable(jobs[upTo - 1], now) then earlier + [upTo - 1] else earlier
  }

  function RecoverableJobs(db: Database, now: int, limit: int): Result<seq<JobId>, StorageError> {
    if !(1 <= limit <= 10_000) then Err(ValueError)
    else Ok(RecoverableAmong(db.jobs, |db.jobs|, now, limit))
  }

  // ----- claim_processing_job -----

  datatype WorkItem = WorkItem(
    job: JobId,
    packet: PacketKey,
    rawBody: Bytes,
    receivedAt: int,
    values: TelemetryFrame,
    attemptCount: int,
    maxAttempts: int)

  function ClaimJob(db: Database, id: JobId, worker: WorkerId, now: int, leaseSeconds: int)
    : (Database, Result<Option<WorkItem>, StorageError>)
  {
    if leaseSeconds <= 0 then (db, Err(ValueError))
    else if id >= |db.jobs| then (db, Err(JobNotFound))
    else
      var job := db.jobs[id];
      if job.packet in db.results then
        (if job.state == COMPLETE then db
         else db.(jobs := db.jobs[id := job.(state := COMPLETE, leaseExpiresAt := None)]),
         Ok(None))
      else if !Claimable(job, now) then (db, Ok(None))
      else
        var at := FindPacket(db.packets, job.packet);
        if at.None? || db.packets[at.value].source >= |db.receipts| then (db, Err(Inconsistent))
        else
          var claimed := Claim(job, worker, now, leaseSeconds);
          var packet := db.packets[at.value];
          var receipt := db.receipts[packet.source];
          (db.(jobs := db.jobs[id := claimed]),
           Ok(Some(WorkItem(
                     id, packet.key, receipt.rawBody, receipt.receivedAt, packet.values,
                     claimed.attemptCount, claimed.maxAttempts))))
  }

  // ----- complete_processing_job -----

  function CompleteJob(db: Database, id: JobId, result: ProcessingResult, worker: WorkerId, now: int)
    : (Database, Result<ResultRow, StorageError>)
  {
    if id >= |db.jobs| then (db, Err(JobNotFound))
    else
      var job := db.jobs[id];
      if job.packet in db.results then
        var stored := db.results[job.packet];
        if stored.result != result then (db, Err(ResultConflict))
        else (db.(jobs := db.jobs[id := job.(state := COMPLETE, leaseExpiresAt := None)]), Ok(stored))
      else if !OwnedBy(job, worker) then (db, Err(InvalidDeliveryState))
      else
        var row := ResultRow(id, result, now);
        (db.(jobs := db.jobs[id := Complete(job)], results := db.results[job.packet := row]), Ok(row))
  }

  // ----- fail_processing_attempt -----

  function FailJob(db: Database, id: JobId, worker: WorkerId, temporary: bool, baseSeconds: int, now: int)
    : (Database, Result<Job, StorageError>)
  {
    if baseSeconds <= 0 then (db, Err(ValueError))
    else if id >= |db.jobs| then (db, Err(JobNotFound))
    else
      match FailAttempt(db.jobs[id], worker, temporary, baseSeconds, now)
      case Err(error) => (db, Err(error))
      case Ok(job) => (db.(jobs := db.jobs[id := job]), Ok(job))
  }
}
