/** TelemetryRepository: every method is one transaction that updates the rows in place.
    Its contract is the specification function of the same transaction. */
module Repository {
  import opened Outcomes
  import opened Wire
  import opened FrameCodec
  import opened JobLifecycle
  import opened Storage
  import opened StorageInvariant
  import opened TransactionEffects
  import Rules = SequenceRules
  import Ledger = SequenceLedger

  class TelemetryRepository {
    const sha: Bytes -> Digest
    var receipts: seq<Receipt>
    var identities: map<RequestId, Identity>
    var packets: seq<Packet>
    var sequences: map<SessionKey, SequenceRow>
    var jobs: seq<Job>
    var results: map<PacketKey, ResultRow>

    function Snapshot(): Database
      reads this
    {
      Database(receipts, identities, packets, sequences, jobs, results)
    }

    ghost predicate Valid()
      reads this
    {
      DbOk(Snapshot())
    }

    constructor (sha: Bytes -> Digest)
      ensures Snapshot() == NEW_DATABASE && this.sha == sha
      ensures Valid()
    {
      this.sha := sha;
      receipts, identities, packets, sequences, jobs, results := [], map[], [], map[], [], map[];
      new;
      NewDatabaseOk();
    }

    method RecordDelivery(rawBody: Bytes, requestId: Option<RequestId>, receivedAt: int)
      returns (outcome: Result<DeliveryResult, StorageError>)
      requires Valid()
      modifies this
      ensures (Snapshot(), outcome) == Storage.RecordDelivery(old(Snapshot()), sha, rawBody, requestId, receivedAt)
      ensures Valid() && Extends(old(Snapshot()), Snapshot())
    {
      ghost var before := Snapshot();
      RecordKeepsDbOk(before, sha, rawBody, requestId, receivedAt);
      if |rawBody| > MAX_EVIDENCE_BODY_BYTES {
        return Err(ValueError);
      }
      var digest := sha(rawBody);
      var firstReceipt: Option<ReceiptId> := None;
      if requestId.Some? && requestId.value in identities {
        var identity := identities[requestId.value];
        if identity.firstReceipt >= |receipts| {
          return Err(Inconsistent);
        }
        firstReceipt := Some(identity.firstReceipt);
        if identity.bodyDigest == digest && receipts[identity.firstReceipt].rawBody == rawBody {
          return Ok(DeliveryOf(identity.firstReceipt, receipts[identity.firstReceipt], true, false));
        }
      }
      var conflict := firstReceipt.Some?;
      var id := |receipts|;
      receipts := receipts + [Receipt(
          requestId, receivedAt, rawBody, digest,
          if conflict then CONFLICT else PENDING,
          if conflict then Some(REQUEST_ID_REUSED_WITH_DIFFERENT_BODY) else None,
          firstReceipt, None, NOT_APPLICABLE)];
      if requestId.Some? && !conflict {
        identities := identities[requestId.value := Identity(id, digest)];
      }
      return Ok(DeliveryOf(id, receipts[id], false, conflict));
    }

    method RejectDelivery(id: ReceiptId, reason: ReceiptReason) returns (outcome: Result<DeliveryResult, StorageError>)
      requires Valid()
      modifies this`receipts
      ensures (Snapshot(), outcome) == Storage.RejectDelivery(old(Snapshot()), id, reason)
      ensures Valid() && Extends(old(Snapshot()), Snapshot())
    {
      ghost var before := Snapshot();
      RejectKeepsDbOk(before, id, reason);
      if id >= |receipts| {
        return Err(DeliveryNotFound);
      }
      if receipts[id].status == REJECTED {
        if receipts[id].reason != Some(reason) {
          return Err(InvalidDeliveryState);
        }
        return Ok(DeliveryOf(id, receipts[id], true, false));
      }
      if receipts[id].status != PENDING {
        return Err(InvalidDeliveryState);
      }
      receipts := receipts[id := receipts[id].(
          status := REJECTED, reason := Some(reason), queueStatus := NOT_APPLICABLE)];
      return Ok(DeliveryOf(id, receipts[id], false, false));
    }

    method AcceptPacketAndCreateJob(id: ReceiptId, values: TelemetryFrame, maxAttempts: int)
      returns (outcome: Result<AcceptanceResult, StorageError>)
      requires Valid()
      modifies this
      ensures (Snapshot(), outcome) == AcceptPacket(old(Snapshot()), id, values, maxAttempts)
      ensures Valid() && Extends(old(Snapshot()), Snapshot())
    {
      ghost var before := Snapshot();
      AcceptKeepsDbOk(before, id, values, maxAttempts);
      if !(0 <= values.sequenceNumber < TWO_TO_32) {
        return Err(ValueError);
      }
      if values.bootId <= 0 {
        return Err(ValueError);
      }
      if maxAttempts <= 0 {
        return Err(ValueError);
      }
      outcome := AcceptPacketTransaction(id, values, maxAttempts);
    }

    method AcceptPacketTransaction(id: ReceiptId, values: TelemetryFrame, maxAttempts: int)
      returns (outcome: Result<AcceptanceResult, StorageError>)
      requires Rules.IsUint32(values.sequenceNumber) && values.bootId > 0 && maxAttempts > 0
      requires SequencesOk(packets, sequences)
      modifies this
      ensures (Snapshot(), outcome) == AcceptPacket(old(Snapshot()), id, values, maxAttempts)
    {
      if id >= |receipts| {
        return Err(DeliveryNotFound);
      }
      if receipts[id].status in {ACCEPTED, DUPLICATE} {
        return Ok(StoredAcceptance(Snapshot(), id));
      }
      if receipts[id].status != PENDING {
        return Err(InvalidDeliveryState);
      }
      var existing := FindPacket(packets, KeyOf(values));
      if existing.Some? {
        var result := KeepAsEvidence(id, packets[existing.value]);
        return Ok(result);
      }
      HighWaterIsUint32(Snapshot(), SessionOf(KeyOf(values)));
      var result := PlaceNewPacket(id, values, maxAttempts);
      return Ok(result);
    }

    /** The branch for a key that is stored already. */
    method KeepAsEvidence(id: ReceiptId, packet: Packet) returns (result: AcceptanceResult)
      requires id < |receipts|
      modifies this`receipts
      ensures (Snapshot(), result) == AcceptStoredKey(old(Snapshot()), id, packet)
    {
      var receipt := receipts[id];
      var exactDuplicate :=
        packet.source < |receipts|
        && packet.rawDigest == receipt.bodyDigest
        && receipts[packet.source].rawBody == receipt.rawBody;
      receipt := receipt.(packet := Some(packet.key), duplicateOf := Some(packet.source));
      if exactDuplicate {
        receipts := receipts[id := receipt.(status := DUPLICATE, queueStatus := NOT_APPLICABLE, reason := None)];
        var job := FindJob(jobs, packet.key);
        result := AcceptanceResult(
          id, Some(packet.key), job, DUPLICATE,
          if job.Some? then QueueStatusOf(jobs[job.value].state) else NOT_APPLICABLE,
          Some(packet.placement), packet.missingBefore, true, false, Some(packet.source));
      } else {
        receipts := receipts[id := receipt.(
            status := CONFLICT, queueStatus := NOT_APPLICABLE, reason := Some(SEQUENCE_CONFLICT))];
        result := AcceptanceResult(
          id, Some(packet.key), None, CONFLICT, NOT_APPLICABLE, None, 0, false, true, Some(packet.source));
      }
    }

    /** The branch for a new key, with the sequence arithmetic written out inline. */
    method PlaceNewPacket(id: ReceiptId, values: TelemetryFrame, maxAttempts: int) returns (result: AcceptanceResult)
      requires id < |receipts| && Rules.IsUint32(values.sequenceNumber)
      requires var session := SessionOf(KeyOf(values));
               session in sequences ==> Rules.IsUint32(sequences[session].counts.highWater)
      modifies this
      ensures (Snapshot(), result) == AcceptNewKey(old(Snapshot()), id, values, maxAttempts)
    {
      var key, session := KeyOf(values), SessionKey(values.payloadId, values.bootId);
      var disposition, missingBefore := Ledger.FIRST, values.sequenceNumber;
      if session in sequences {
        var forwardDistance := (values.sequenceNumber - sequences[session].counts.highWater) % TWO_TO_32;
        if forwardDistance == 0 {
          receipts := receipts[id := receipts[id].(status := CONFLICT, reason := Some(SEQUENCE_STATE_CONFLICT))];
          return AcceptanceResult(id, None, None, CONFLICT, NOT_APPLICABLE, None, 0, false, true, None);
        }
        if forwardDistance == 1 {
          disposition, missingBefore := Ledger.PLACED_IN_ORDER, 0;
        } else if forwardDistance < Rules.HALF_RANGE {
          disposition, missingBefore := Ledger.PLACED_AFTER_GAP, forwardDistance - 1;
        } else {
          disposition, missingBefore := Ledger.LATE, 0;
        }
      }
      packets := packets + [Packet(key, id, values, receipts[id].bodyDigest, disposition, missingBefore)];
      if session !in sequences {
        sequences := sequences[session := SequenceRow(Ledger.Row(values.sequenceNumber, 1, missingBefore), key)];
      } else {
        var row := sequences[session];
        row := row.(counts := row.counts.(acceptedCount := row.counts.acceptedCount + 1));
        if disposition in {Ledger.PLACED_IN_ORDER, Ledger.PLACED_AFTER_GAP} {
          row := SequenceRow(
            row.counts.(highWater := values.sequenceNumber,
                        missingCount := row.counts.missingCount + missingBefore), key);
        }
        sequences := sequences[session := row];
      }
      var job := |jobs|;
      jobs := jobs + [NewJob(key, maxAttempts)];
      receipts := receipts[id := receipts[id].(
          status := ACCEPTED, reason := None, packet := Some(key), queueStatus := AWAITS_QUEUE)];
      result := AcceptanceResult(
        id, Some(key), Some(job), ACCEPTED, AWAITS_QUEUE, Some(disposition), missingBefore, false, false, None);
    }

    /** The gateway always names the message after the job, and then the tables stay
        consistent. */
    method MarkJobQueued(id: JobId, message: JobId) returns (outcome: Result<bool, StorageError>)
      requires Valid()
      modifies this`jobs, this`receipts
      ensures (Snapshot(), outcome) == Storage.MarkJobQueued(old(Snapshot()), id, message)
      ensures message == id ==> Valid() && Extends(old(Snapshot()), Snapshot())
    {
      MarkKeepsDbOk(Snapshot(), id);
      outcome := MarkQueued(id, message);
    }

    method MarkQueued(id: JobId, message: JobId) returns (outcome: Result<bool, StorageError>)
      modifies this`jobs, this`receipts
      ensures (Snapshot(), outcome) == Storage.MarkJobQueued(old(Snapshot()), id, message)
    {
      if id >= |jobs| {
        return Err(JobNotFound);
      }
      if jobs[id].state == QUEUED {
        if jobs[id].queueMessage != Some(message) {
          return Err(InvalidDeliveryState);
        }
        return Ok(false);
      }
      if jobs[id].state !in {PENDING_QUEUE, RETRY_WAIT} {
        return Err(InvalidDeliveryState);
      }
      jobs := jobs[id := jobs[id].(state := QUEUED, queueMessage := Some(message), nextAttemptAt := None)];
      TellReceipts(jobs[id].packet);
      return Ok(true);
    }

    /** Every accepted receipt of the packet gets the queue status QUEUED. */
    method TellReceipts(key: PacketKey)
      modifies this`receipts
      ensures receipts == ReceiptsReachQueue(old(receipts), key)
    {
      ghost var reached := ReceiptsReachQueue(receipts, key);
      for i := 0 to |receipts|
        invariant |receipts| == |reached|
        invariant forall k :: 0 <= k < i ==> receipts[k] == reached[k]
        invariant forall k :: i <= k < |receipts| ==> receipts[k] == old(receipts)[k]
      {
        if receipts[i].packet == Some(key) && receipts[i].status == ACCEPTED {
          receipts := receipts[i := receipts[i].(queueStatus := REACHED_QUEUE)];
        }
      }
    }

    method RecoverableQueueJobs(limit: int, now: int) returns (outcome: Result<seq<JobId>, StorageError>)
      ensures outcome == RecoverableJobs(Snapshot(), now, limit)
      ensures if limit < 1 || limit > 10_000 then outcome == Err(ValueError)
              else outcome.Ok? && ListsWaiting(jobs, now, limit, outcome.value)
    {
      hide ListsWaiting, WaitsForWorker, WaitingBefore;
      RecoverableOutcome(Snapshot(), now, limit);
      if !(1 <= limit <= 10_000) {
        return Err(ValueError);
      }
      var ids := [];
      for i := 0 to |jobs|
        invariant ids == RecoverableAmong(jobs, i, now, limit)
      {
        if |ids| < limit && Recoverable(jobs[i], now) {
          ids := ids + [i];
        }
      }
      return Ok(ids);
    }

    method ClaimProcessingJob(id: JobId, worker: WorkerId, now: int, leaseSeconds: int)
      returns (outcome: Result<Option<WorkItem>, StorageError>)
      requires Valid()
      modifies this`jobs
      ensures (Snapshot(), outcome) == ClaimJob(old(Snapshot()), id, worker, now, leaseSeconds)
      ensures Valid() && Extends(old(Snapshot()), Snapshot())
    {
      ClaimKeepsDbOk(Snapshot(), id, worker, now, leaseSeconds);
      outcome := Claim(id, worker, now, leaseSeconds);
    }

    method Claim(id: JobId, worker: WorkerId, now: int, leaseSeconds: int)
      returns (outcome: Result<Option<WorkItem>, StorageError>)
      modifies this`jobs
      ensures (Snapshot(), outcome) == ClaimJob(old(Snapshot()), id, worker, now, leaseSeconds)
    {
      if leaseSeconds <= 0 {
        return Err(ValueError);
      }
      if id >= |jobs| {
        return Err(JobNotFound);
      }
      var job := jobs[id];
      if job.packet in results {
        if job.state != COMPLETE {
          jobs := jobs[id := job.(state := COMPLETE, leaseExpiresAt := None)];
        }
        return Ok(None);
      }
      var expiredLease := job.state == PROCESSING && job.leaseExpiresAt.Some? && job.leaseExpiresAt.value <= now;
      var dueRetry := job.state == RETRY_WAIT && job.nextAttemptAt.Some? && job.nextAttemptAt.value <= now;
      if job.state != QUEUED && !expiredLease && !dueRetry {
        return Ok(None);
      }
      var at := FindPacket(packets, job.packet);
      if at.None? {
        return Err(Inconsistent);
      }
      var packet := packets[at.value];
      if packet.source >= |receipts| {
        return Err(Inconsistent);
      }
      job := job.(
        state := PROCESSING, attemptCount := job.attemptCount + 1, claimedBy := Some(worker),
        leaseExpiresAt := Some(now + leaseSeconds * SECOND_US), nextAttemptAt := None);
      jobs := jobs[id := job];
      return Ok(Some(WorkItem(
                       id, packet.key, receipts[packet.source].rawBody, receipts[packet.source].receivedAt,
                       packet.values,
                       job.attemptCount, job.maxAttempts)));
    }

    method CompleteProcessingJob(id: JobId, result: ProcessingResult, worker: WorkerId, now: int)
      returns (outcome: Result<ResultRow, StorageError>)
      requires Valid()
      modifies this`jobs, this`results
      ensures (Snapshot(), outcome) == CompleteJob(old(Snapshot()), id, result, worker, now)
      ensures Valid() && Extends(old(Snapshot()), Snapshot())
    {
      CompleteKeepsDbOk(Snapshot(), id, result, worker, now);
      outcome := StoreResult(id, result, worker, now);
    }

    method StoreResult(id: JobId, result: ProcessingResult, worker: WorkerId, now: int)
      returns (outcome: Result<ResultRow, StorageError>)
      modifies this`jobs, this`results
      ensures (Snapshot(), outcome) == CompleteJob(old(Snapshot()), id, result, worker, now)
    {
      if id >= |jobs| {
        return Err(JobNotFound);
      }
      var job := jobs[id];
      if job.packet in results {
        if results[job.packet].result != result {
          return Err(ResultConflict);
        }
        jobs := jobs[id := job.(state := COMPLETE, leaseExpiresAt := None)];
        return Ok(results[job.packet]);
      }
      if job.state != PROCESSING {
        return Err(InvalidDeliveryState);
      }
      if job.claimedBy != Some(worker) {
        return Err(InvalidDeliveryState);
      }
      var processed := ResultRow(id, result, now);
      results := results[job.packet := processed];
      jobs := jobs[id := job.(state := COMPLETE, leaseExpiresAt := None, nextAttemptAt := None)];
      return Ok(processed);
    }

    method FailProcessingAttempt(id: JobId, worker: WorkerId, temporary: bool, baseSeconds: int, now: int)
      returns (outcome: Result<Job, StorageError>)
      requires Valid()
      modifies this`jobs
      ensures (Snapshot(), outcome) == FailJob(old(Snapshot()), id, worker, temporary, baseSeconds, now)
      ensures Valid() && Extends(old(Snapshot()), Snapshot())
    {
      FailKeepsDbOk(Snapshot(), id, worker, temporary, baseSeconds, now);
      outcome := RecordFailure(id, worker, temporary, baseSeconds, now);
    }

    method RecordFailure(id: JobId, worker: WorkerId, temporary: bool, baseSeconds: int, now: int)
      returns (outcome: Result<Job, StorageError>)
      modifies this`jobs
      ensures (Snapshot(), outcome) == FailJob(old(Snapshot()), id, worker, temporary, baseSeconds, now)
    {
      if baseSeconds <= 0 {
        return Err(ValueError);
      }
      if id >= |jobs| {
        return Err(JobNotFound);
      }
      var job := jobs[id];
      if job.state == FAILED {
        assert jobs == jobs[id := job];
        return Ok(job);
      }
      if job.state != PROCESSING {
        return Err(InvalidDeliveryState);
      }
      if job.claimedBy != Some(worker) {
        return Err(InvalidDeliveryState);
      }
      var exhausted := job.attemptCount >= job.maxAttempts;
      job := job.(leaseExpiresAt := None);
      if !temporary || exhausted {
        job := job.(state := FAILED, nextAttemptAt := None);
      } else {
        var delay := Backoff(baseSeconds, job.attemptCount);
        job := job.(state := RETRY_WAIT, nextAttemptAt := Some(now + delay * SECOND_US));
      }
      jobs := jobs[id := job];
      return Ok(job);
    }
  }
}
