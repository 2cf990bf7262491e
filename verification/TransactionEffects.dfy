/** What each repository transaction does on consistent tables, told by the rows alone:
    every outcome, every refusal, and every field that changes. */
module TransactionEffects {
  import opened Outcomes
  import opened Wire
  import opened FrameCodec
  import opened JobLifecycle
  import opened Storage
  import opened StorageInvariant
  import opened PipelineInvariant
  import Ledger = SequenceLedger

  // ----- deliveries -----

  /** The first receipt that carries this request id. */
  function FirstWith(receipts: seq<Receipt>, requestId: Option<RequestId>): (first: Option<ReceiptId>)
    ensures first.Some? ==>
              && requestId.Some? && first.value < |receipts| && receipts[first.value].requestId == requestId
              && forall r :: 0 <= r < first.value ==> receipts[r].requestId != requestId
    ensures first.None? && requestId.Some? ==> forall r :: 0 <= r < |receipts| ==> receipts[r].requestId != requestId
  {
    if receipts == [] || requestId.None? then None
    else
      var earlier := FirstWith(receipts[..|receipts| - 1], requestId);
      if earlier.None? && receipts[|receipts| - 1].requestId == requestId then Some(|receipts| - 1) else earlier
  }

  lemma FirstIsKnown(db: Database, requestId: RequestId)
    requires IdentitiesOk(db.identities, db.receipts)
    ensures FirstWith(db.receipts, Some(requestId)) ==
            if requestId in db.identities then Some(db.identities[requestId].firstReceipt) else None
  {
    var first := FirstWith(db.receipts, Some(requestId));
    if requestId in db.identities {
      assert db.receipts[db.identities[requestId].firstReceipt].requestId == Some(requestId);
    }
  }

  /** A request id belongs to the bytes it first came with, for good: the same bytes find
      that first receipt as it is now, other bytes become conflicting evidence, and
      anything else becomes a new pending receipt. Only the bytes decide, not digests. */
  lemma RecordOutcome(db: Database, sha: Bytes -> Digest, body: Bytes, requestId: Option<RequestId>, now: int)
    requires IdentitiesOk(db.identities, db.receipts) && DigestsOk(db.receipts, sha)
    ensures var (db', outcome) := RecordDelivery(db, sha, body, requestId, now);
            var id, first := |db.receipts|, FirstWith(db.receipts, requestId);
            if |body| > 1_024 then db' == db && outcome == Err(ValueError)
            else if first.None? then
              && db' == db.(receipts := db'.receipts, identities := db'.identities)
              && db'.receipts
                 == db.receipts + [Receipt(requestId, now, body, sha(body), PENDING, None, None, None, NOT_APPLICABLE)]
              && outcome == Ok(DeliveryResult(id, PENDING, NOT_APPLICABLE, false, false, None, None))
            else
              var known := db.receipts[first.value];
              if known.rawBody == body then
                && db' == db
                && outcome == Ok(DeliveryResult(
                                   first.value, known.status, known.queueStatus, true, false, known.duplicateOf,
                                   known.packet))
              else
                && db' == db.(receipts := db'.receipts)
                && db'.receipts
                   == db.receipts
                      + [Receipt(
                           requestId, now, body, sha(body), CONFLICT, Some(REQUEST_ID_REUSED_WITH_DIFFERENT_BODY),
                           first, None, NOT_APPLICABLE)]
                && outcome == Ok(DeliveryResult(id, CONFLICT, NOT_APPLICABLE, false, true, first, None))
  {
    if requestId.Some? {
      FirstIsKnown(db, requestId.value);
    }
  }

  /** Only a pending delivery can be rejected; the same rejection again is a replay. */
  lemma RejectOutcome(db: Database, id: ReceiptId, reason: ReceiptReason)
    requires ReceiptsOk(db.receipts, db.packets) && QueueStatusesOk(db.receipts, db.packets, db.jobs)
    ensures var (db', outcome) := RejectDelivery(db, id, reason);
            if id >= |db.receipts| then db' == db && outcome == Err(DeliveryNotFound)
            else
              var receipt := db.receipts[id];
              if receipt.status == PENDING then
                && db' == db.(receipts := db.receipts[id := receipt.(status := REJECTED, reason := Some(reason))])
                && outcome
                   == Ok(DeliveryResult(id, REJECTED, NOT_APPLICABLE, false, false, receipt.duplicateOf, None))
              else
                && db' == db
                && outcome == if receipt.status == REJECTED && receipt.reason == Some(reason) then
                                Ok(DeliveryResult(
                                     id, REJECTED, NOT_APPLICABLE, true, false, receipt.duplicateOf, None))
                              else Err(InvalidDeliveryState)
  {
    if id < |db.receipts| {
      assert ReceiptOk(db.receipts, id, db.packets) && QueueStatusOk(db.receipts[id], db.packets, db.jobs);
    }
  }

  // ----- acceptance -----

  /** What cannot be decided is refused or answered from the tables, and changes nothing. */
  lemma AcceptRefused(db: Database, id: ReceiptId, values: TelemetryFrame, maxAttempts: int)
    ensures var (db', outcome) := AcceptPacket(db, id, values, maxAttempts);
            if !(0 <= values.sequenceNumber <= 0xFFFF_FFFF) || values.bootId < 1 || maxAttempts < 1 then
              db' == db && outcome == Err(ValueError)
            else if id >= |db.receipts| then db' == db && outcome == Err(DeliveryNotFound)
            else if db.receipts[id].status in {REJECTED, CONFLICT} then
              db' == db && outcome == Err(InvalidDeliveryState)
            else outcome.Ok? && (db.receipts[id].status != PENDING ==> db' == db)
  {
  }

  /** The answer for a delivery that was accepted, or found known, before: the packet with
      its bytes, and the job of that packet as it stands now. */
  lemma AcceptedBefore(db: Database, id: ReceiptId, values: TelemetryFrame, maxAttempts: int) returns (i: nat)
    requires DbOk(db) && id < |db.receipts| && db.receipts[id].status in {ACCEPTED, DUPLICATE}
    requires 0 <= values.sequenceNumber <= 0xFFFF_FFFF && values.bootId >= 1 && maxAttempts >= 1
    ensures i < |db.packets| && i < |db.jobs| && db.packets[i].source < |db.receipts|
    ensures db.receipts[db.packets[i].source].rawBody == db.receipts[id].rawBody
    ensures db.receipts[id].status == ACCEPTED ==> db.packets[i].source == id
    ensures AcceptPacket(db, id, values, maxAttempts) ==
            (db, Ok(AcceptanceResult(
                      id, Some(db.packets[i].key), Some(i), db.receipts[id].status,
                      if db.jobs[i].state == PENDING_QUEUE then AWAITS_QUEUE else REACHED_QUEUE,
                      Some(db.packets[i].placement), db.packets[i].missingBefore,
                      db.receipts[id].status == DUPLICATE, false, db.receipts[id].duplicateOf)))
  {
    assert ReceiptOk(db.receipts, id, db.packets);
    i := FindPacket(db.packets, db.receipts[id].packet.value).value;
    assert PacketOk(db.packets[i], db.receipts);
    FindJobSame(db.jobs, db.packets, db.packets[i].key);
  }

  /** A pending delivery under a key that is stored already is evidence only: known if its
      bytes are those stored, in conflict if not. */
  lemma AcceptStored(
    db: Database, sha: Bytes -> Digest, id: ReceiptId, values: TelemetryFrame, maxAttempts: int, i: nat)
    requires DbOk(db) && DigestsOk(db.receipts, sha) && Decides(db, id, values, maxAttempts)
    requires i < |db.packets| && db.packets[i].key == KeyOf(values)
    ensures i < |db.jobs| && db.packets[i].source < |db.receipts|
    ensures var (db', outcome) := AcceptPacket(db, id, values, maxAttempts);
            var source, key := db.packets[i].source, KeyOf(values);
            if db.receipts[source].rawBody == db.receipts[id].rawBody then
              && db' == db.(receipts := db.receipts[id := db.receipts[id].(
                              status := DUPLICATE, reason := None, duplicateOf := Some(source), packet := Some(key))])
              && outcome
                 == Ok(AcceptanceResult(
                         id, Some(key), Some(i), DUPLICATE,
                         if db.jobs[i].state == PENDING_QUEUE then AWAITS_QUEUE else REACHED_QUEUE,
                         Some(db.packets[i].placement), db.packets[i].missingBefore, true, false, Some(source)))
            else
              && db' == db.(receipts := db.receipts[id := db.receipts[id].(
                              status := CONFLICT, reason := Some(SEQUENCE_CONFLICT), duplicateOf := Some(source),
                              packet := Some(key))])
              && outcome
                 == Ok(AcceptanceResult(
                         id, Some(key), None, CONFLICT, NOT_APPLICABLE, None, 0, false, true, Some(source)))
  {
    hide SequencesOk, IdentitiesOk, ResultsOk, JobOk;
    FindUnique(db.packets, i);
    FindJobSame(db.jobs, db.packets, KeyOf(values));
    assert PacketOk(db.packets[i], db.receipts);
    assert QueueStatusOk(db.receipts[id], db.packets, db.jobs);
  }

  /** A pending delivery with a new key becomes one packet with these values, one new job,
      and one step of its own session's row. */
  lemma AcceptNew(db: Database, id: ReceiptId, values: TelemetryFrame, maxAttempts: int)
    returns (entry: Ledger.Entry)
    requires SequencesOk(db.packets, db.sequences) && Decides(db, id, values, maxAttempts)
    requires forall i :: 0 <= i < |db.packets| ==> db.packets[i].key != KeyOf(values)
    ensures entry.sequence == values.sequenceNumber
    ensures Ledger.Placed(CountsOf(db, SessionOf(KeyOf(values))), entry)
    ensures var (db', outcome) := AcceptPacket(db, id, values, maxAttempts);
            var key := PacketKey(values.payloadId, values.bootId, values.sequenceNumber);
            var receipt := db.receipts[id];
            && db' == db.(receipts := db'.receipts, packets := db'.packets, sequences := db'.sequences,
                          jobs := db'.jobs)
            && db'.receipts == db.receipts[id := receipt.(
                                 status := ACCEPTED, reason := None, packet := Some(key), queueStatus := AWAITS_QUEUE)]
            && db'.packets
               == db.packets + [Packet(key, id, values, receipt.bodyDigest, entry.placement, entry.missingBefore)]
            && db'.jobs == db.jobs + [Job(key, PENDING_QUEUE, None, 0, maxAttempts, None, None, None)]
            && (forall other: SessionKey :: other != SessionOf(key) ==>
                  (other in db'.sequences <==> other in db.sequences)
                  && (other in db.sequences ==> db'.sequences[other] == db.sequences[other]))
            && outcome == Ok(AcceptanceResult(
                               id, Some(key), Some(|db.jobs|), ACCEPTED, AWAITS_QUEUE, Some(entry.placement),
                               entry.missingBefore, false, false, None))
  {
    entry := NewKeyIsPlaced(db, KeyOf(values));
  }

  // ----- one job -----

  /** A mark moves waiting work to QUEUED under the message it names, finds work that is
      queued under that message done already, and is refused otherwise. The gateway always
      names the message after the job. */
  lemma MarkOutcome(db: Database, id: JobId, message: JobId)
    requires JobsOk(db.jobs, db.packets)
    ensures var (db', outcome) := MarkJobQueued(db, id, message);
            if id < |db.jobs| && db.jobs[id].state in {PENDING_QUEUE, RETRY_WAIT} then
              && outcome == Ok(true)
              && db' == db.(jobs := db.jobs[id := db.jobs[id].(
                              state := QUEUED, queueMessage := Some(message), nextAttemptAt := None)],
                            receipts := db'.receipts)
              && |db'.receipts| == |db.receipts|
              && forall r :: 0 <= r < |db.receipts| ==>
                   db'.receipts[r] == if db.receipts[r].status == ACCEPTED
                                         && db.receipts[r].packet == Some(db.jobs[id].packet)
                                      then db.receipts[r].(queueStatus := REACHED_QUEUE) else db.receipts[r]
            else
              && db' == db
              && outcome == if id >= |db.jobs| then Err(JobNotFound)
                            else if db.jobs[id].state == JobState.QUEUED && message == id then Ok(false)
                            else Err(InvalidDeliveryState)
  {
    if id < |db.jobs| {
      assert JobOk(db.jobs[id]);
    }
  }

  /** A worker gets queued work, work whose lease has run out, and retries that are due, and
      nothing else; it then owns the next attempt until the lease ends. */
  lemma ClaimOutcome(db: Database, id: JobId, worker: WorkerId, now: int, leaseSeconds: int)
    requires PacketsOk(db.packets, db.receipts) && JobsOk(db.jobs, db.packets) && ResultsOk(db.results, db.jobs)
    ensures var (db', outcome) := ClaimJob(db, id, worker, now, leaseSeconds);
            if leaseSeconds < 1 then db' == db && outcome == Err(ValueError)
            else if id >= |db.jobs| then db' == db && outcome == Err(JobNotFound)
            else
              var job := db.jobs[id];
              if || job.state == QUEUED
                 || (job.state == PROCESSING && job.leaseExpiresAt.Some? && job.leaseExpiresAt.value <= now)
                 || (job.state == RETRY_WAIT && job.nextAttemptAt.Some? && job.nextAttemptAt.value <= now)
              then
                && db' == db.(jobs := db.jobs[id := job.(
                                state := PROCESSING, attemptCount := job.attemptCount + 1, claimedBy := Some(worker),
                                leaseExpiresAt := Some(now + leaseSeconds * 1_000_000), nextAttemptAt := None)])
                && id < |db.packets| && db.packets[id].source < |db.receipts|
                && var receipt := db.receipts[db.packets[id].source];
                   outcome == Ok(Some(WorkItem(
                                        id, job.packet, receipt.rawBody, receipt.receivedAt, db.packets[id].values,
                                        job.attemptCount + 1, job.maxAttempts)))
              else db' == db && outcome == Ok(None)
  {
    if id < |db.jobs| {
      FindUnique(db.packets, id);
      assert PacketOk(db.packets[id], db.receipts);
      assert JobOk(db.jobs[id]) && ResultOk(db.results, db.jobs[id], id);
    }
  }

  /** The owner completes its job. Afterwards everyone who offers the stored result is told
      it is done, and everyone who offers another one that it is not; nothing changes. */
  lemma CompleteOutcome(db: Database, id: JobId, result: ProcessingResult, worker: WorkerId, now: int)
    requires JobsOk(db.jobs, db.packets) && ResultsOk(db.results, db.jobs)
    ensures id < |db.jobs| && db.jobs[id].state == COMPLETE ==> db.jobs[id].packet in db.results
    ensures var (db', outcome) := CompleteJob(db, id, result, worker, now);
            if id < |db.jobs| && db.jobs[id].state == PROCESSING && db.jobs[id].claimedBy == Some(worker) then
              var job, row := db.jobs[id], ResultRow(id, result, now);
              && db' == db.(jobs := db.jobs[id := job.(state := COMPLETE, leaseExpiresAt := None)],
                            results := db.results[job.packet := row])
              && outcome == Ok(row)
            else
              && db' == db
              && outcome == if id >= |db.jobs| then Err(JobNotFound)
                            else if db.jobs[id].state != COMPLETE then Err(InvalidDeliveryState)
                            else if db.results[db.jobs[id].packet].result == result then
                              Ok(db.results[db.jobs[id].packet])
                            else Err(ResultConflict)
  {
    if id < |db.jobs| {
      assert JobOk(db.jobs[id]) && ResultOk(db.results, db.jobs[id], id);
      assert db.jobs == db.jobs[id := db.jobs[id]];
    }
  }

  /** The owner's failed attempt is retried after its delay if it was temporary and attempts
      are left, and ends the job otherwise; a failed job stays failed. */
  lemma FailOutcome(db: Database, id: JobId, worker: WorkerId, temporary: bool, baseSeconds: int, now: int)
    requires JobsOk(db.jobs, db.packets)
    ensures var (db', outcome) := FailJob(db, id, worker, temporary, baseSeconds, now);
            if baseSeconds < 1 then db' == db && outcome == Err(ValueError)
            else if id >= |db.jobs| then db' == db && outcome == Err(JobNotFound)
            else
              var job := db.jobs[id];
              if job.state == PROCESSING && job.claimedBy == Some(worker) then
                && outcome.Ok?
                && db' == db.(jobs := db.jobs[id := outcome.value])
                && outcome.value ==
                   if temporary && job.attemptCount < job.maxAttempts then
                     job.(state := RETRY_WAIT, leaseExpiresAt := None,
                          nextAttemptAt := Some(now + 1_000_000 * Backoff(baseSeconds, job.attemptCount)))
                   else job.(state := FAILED, leaseExpiresAt := None)
              else
                && db' == db
                && outcome == if job.state == FAILED then Ok(job) else Err(InvalidDeliveryState)
  {
    if id < |db.jobs| {
      assert JobOk(db.jobs[id]);
      assert db.jobs == db.jobs[id := db.jobs[id]];
    }
  }

  // ----- the list a start-up recovery works off -----

  /** The job waits for a worker, and nothing else will bring it to one: it is new, or was
      queued, or its retry is due. */
  predicate WaitsForWorker(job: Job, now: int) {
    || job.state == PENDING_QUEUE
    || job.state == QUEUED
    || (job.state == RETRY_WAIT && job.nextAttemptAt.Some? && job.nextAttemptAt.value <= now)
  }

  /** How many of the first `upTo` jobs wait. */
  function WaitingBefore(jobs: seq<Job>, upTo: nat, now: int): nat
    requires upTo <= |jobs|
  {
    if upTo == 0 then 0
    else WaitingBefore(jobs, upTo - 1, now) + if WaitsForWorker(jobs[upTo - 1], now) then 1 else 0
  }

  lemma {:induction false} ListedIffWaiting(jobs: seq<Job>, upTo: nat, now: int, limit: nat)
    requires upTo <= |jobs|
    ensures |RecoverableAmong(jobs, upTo, now, limit)| ==
            if WaitingBefore(jobs, upTo, now) < limit then WaitingBefore(jobs, upTo, now) else limit
    ensures forall id: JobId :: id in RecoverableAmong(jobs, upTo, now, limit) <==>
              id < upTo && WaitsForWorker(jobs[id], now) && WaitingBefore(jobs, id, now) < limit
  {
    if upTo > 0 {
      assert Recoverable(jobs[upTo - 1], now) == WaitsForWorker(jobs[upTo - 1], now);
      hide Recoverable, WaitsForWorker;
      ListedIffWaiting(jobs, upTo - 1, now, limit);
      var earlier := RecoverableAmong(jobs, upTo - 1, now, limit);
      assert forall id: JobId :: id in earlier + [upTo - 1] <==> id in earlier || id == upTo - 1;
    }
  }

  /** Exactly the waiting jobs are listed, in order of creation, up to the limit. */
  ghost predicate ListsWaiting(jobs: seq<Job>, now: int, limit: int, ids: seq<JobId>) {
    && (forall i, k :: 0 <= i < k < |ids| ==> ids[i] < ids[k])
    && forall id: JobId :: id in ids <==>
         id < |jobs| && WaitsForWorker(jobs[id], now) && WaitingBefore(jobs, id, now) < limit
  }

  lemma RecoverableOutcome(db: Database, now: int, limit: int)
    ensures var outcome := RecoverableJobs(db, now, limit);
            if limit < 1 || limit > 10_000 then outcome == Err(ValueError)
            else outcome.Ok? && ListsWaiting(db.jobs, now, limit, outcome.value)
  {
    if 1 <= limit <= 10_000 {
      ListedIffWaiting(db.jobs, |db.jobs|, now, limit);
    }
  }
}
