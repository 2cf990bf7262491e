/** Every action keeps the invariant, so every run does. */
module PipelineSafety {
  import opened Outcomes
  import opened Wire
  import opened FrameCodec
  import opened JobLifecycle
  import opened Storage
  import opened StorageInvariant
  import opened Pipeline
  import opened PipelineInvariant
  import Q = RedisQueue
  import Rules = SequenceRules
  import Ledger = SequenceLedger

  // ----- the clock and the deliveries -----

  lemma TickKeeps(s: System, microseconds: nat, sha: Bytes -> Digest)
    requires LiveOk(s, sha, None)
    ensures LiveOk(s.(now := s.now + microseconds), sha, None)
  {
    forall worker | worker in s.workers ensures WorkerOk(s.db, s.now + microseconds, worker, s.workers[worker]) {
      assert WorkerOk(s.db, s.now, worker, s.workers[worker]);
    }
  }

  /** Tables that only grew, with new jobs at most, keep every position. */
  lemma GrowthKeeps(s: System, db': Database, sha: Bytes -> Digest)
    requires LiveOk(s, sha, None) && Extends(s.db, db')
    requires s.db.jobs <= db'.jobs
    requires forall id :: |s.db.jobs| <= id < |db'.jobs| ==>
               db'.jobs[id].state == PENDING_QUEUE && db'.jobs[id].claimedBy == None
    requires DigestsOk(db'.receipts, sha) && Authentic(db')
    ensures LiveOk(s.(db := db'), sha, None)
  {
    NewJobsKeepQueueOk(s.db.jobs, db'.jobs, s.queue);
    GatewaysKept(s, s.(db := db'));
    forall worker | worker in s.workers ensures WorkerOk(db', s.now, worker, s.workers[worker]) {
      PositionKept(s.db, db', s.now, worker, s.workers[worker]);
    }
  }

  lemma NewJobsKeepQueueOk(jobs: seq<Job>, later: seq<Job>, q: Q.QueueState)
    requires QueueOk(jobs, q) && jobs <= later
    requires forall id :: |jobs| <= id < |later| ==> later[id].state == PENDING_QUEUE
    ensures QueueOk(later, q)
  {
    forall id: JobId ensures MarkerOk(later, q, id) {
      assert MarkerOk(jobs, q, id);
    }
    forall id: JobId | id < |later| ensures JobInQueueOk(later, q, id) {
      if id < |jobs| {
        assert JobInQueueOk(jobs, q, id);
      } else {
        assert MarkerOk(jobs, q, id);
        assert Q.Listed(q)[Reference(later, id)] == 0;
      }
    }
  }

  lemma PositionKept(db: Database, db': Database, now: int, worker: WorkerId, state: Worker)
    requires Extends(db, db') && db.jobs <= db'.jobs && WorkerOk(db, now, worker, state)
    ensures WorkerOk(db', now, worker, state)
  {
    if state.Working? || state.Storing? || state.Failing? {
      WorkKept(db, db', state.message.job, state.claim.work);
    }
  }

  lemma RecordKeeps(s: System, body: Bytes, requestId: Option<RequestId>, at: int, sha: Bytes -> Digest)
    requires SystemOk(s, sha)
    ensures SystemOk(s.(db := RecordDelivery(s.db, sha, body, requestId, at).0), sha)
    ensures Extends(s.db, RecordDelivery(s.db, sha, body, requestId, at).0)
  {
    RecordKeepsDbOk(s.db, sha, body, requestId, at);
    RecordKeepsLive(s, body, requestId, at, sha);
  }

  lemma RecordKeepsLive(s: System, body: Bytes, requestId: Option<RequestId>, at: int, sha: Bytes -> Digest)
    requires LiveOk(s, sha, None)
    requires Extends(s.db, RecordDelivery(s.db, sha, body, requestId, at).0)
    ensures LiveOk(s.(db := RecordDelivery(s.db, sha, body, requestId, at).0), sha, None)
  {
    var db' := RecordDelivery(s.db, sha, body, requestId, at).0;
    AuthenticityKept(s.db, db');
    GrowthKeeps(s, db', sha);
  }

  lemma AuthenticityKept(db: Database, db': Database)
    requires Extends(db, db') && Authentic(db) && db'.packets == db.packets
    ensures Authentic(db')
  {
    forall i | 0 <= i < |db'.packets| ensures AuthenticPacket(db'.packets[i], db'.receipts) {
      assert AuthenticPacket(db.packets[i], db.receipts);
      assert ReceiptKept(db.receipts[db.packets[i].source], db'.receipts[db.packets[i].source]);
    }
  }

  lemma RejectKeeps(s: System, id: ReceiptId, reason: ReceiptReason, sha: Bytes -> Digest)
    requires SystemOk(s, sha)
    ensures SystemOk(s.(db := RejectDelivery(s.db, id, reason).0), sha)
    ensures Extends(s.db, RejectDelivery(s.db, id, reason).0)
  {
    var db' := RejectDelivery(s.db, id, reason).0;
    RejectKeepsDbOk(s.db, id, reason);
    EvidenceKept(s.db, db', sha);
    GrowthKeeps(s, db', sha);
  }

  lemma AcceptKeeps(s: System, id: ReceiptId, decodedAt: int, maxAttempts: int, sha: Bytes -> Digest)
    requires SystemOk(s, sha)
    ensures SystemOk(AcceptStep(s, id, decodedAt, maxAttempts), sha)
    ensures Extends(s.db, AcceptStep(s, id, decodedAt, maxAttempts).db)
  {
    var s' := AcceptStep(s, id, decodedAt, maxAttempts);
    if s' != s {
      var values := Decode(s.db.receipts[id].rawBody, decodedAt).value;
      AcceptKeepsDbOk(s.db, id, values, maxAttempts);
      EncodeInvertsDecode(s.db.receipts[id].rawBody, decodedAt);
      AcceptedEvidence(s.db, id, values, maxAttempts, sha);
      GrowthKeeps(s, s'.db, sha);
    } else {
      ExtendsReflexive(s.db);
    }
  }

  /** The jobs that were added are new, and the evidence still matches its packets. */
  ghost predicate Grown(jobs: seq<Job>, db': Database, sha: Bytes -> Digest) {
    && jobs <= db'.jobs
    && (forall job :: |jobs| <= job < |db'.jobs| ==>
          db'.jobs[job].state == PENDING_QUEUE && db'.jobs[job].claimedBy == None)
    && DigestsOk(db'.receipts, sha)
    && Authentic(db')
  }

  lemma AcceptedEvidence(db: Database, id: ReceiptId, values: TelemetryFrame, maxAttempts: int, sha: Bytes -> Digest)
    requires SequencesOk(db.packets, db.sequences) && Authentic(db) && DigestsOk(db.receipts, sha)
    requires id < |db.receipts| && ValidFrame(values) && WireForm(values) == db.receipts[id].rawBody
    ensures Grown(db.jobs, AcceptPacket(db, id, values, maxAttempts).0, sha)
  {
    hide Grown, AcceptStoredKey, AcceptNewKey, SequencesOk, Authentic, WireForm;
    if Decides(db, id, values, maxAttempts) {
      var at := FindPacket(db.packets, KeyOf(values));
      if at.Some? {
        StoredKeyGrown(db, id, db.packets[at.value], sha);
      } else {
        NewKeyGrown(db, id, values, maxAttempts, sha);
      }
    } else {
      NothingGrown(db, sha);
    }
  }

  lemma NothingGrown(db: Database, sha: Bytes -> Digest)
    requires Authentic(db) && DigestsOk(db.receipts, sha)
    ensures Grown(db.jobs, db, sha)
  {
  }

  lemma StoredKeyGrown(db: Database, id: ReceiptId, packet: Packet, sha: Bytes -> Digest)
    requires Authentic(db) && DigestsOk(db.receipts, sha) && id < |db.receipts|
    ensures Grown(db.jobs, AcceptStoredKey(db, id, packet).0, sha)
  {
    StoredKeyShape(db, id, packet);
    StoredKeyEvidence(db, AcceptStoredKey(db, id, packet).0, id, sha);
  }

  lemma NewKeyGrown(db: Database, id: ReceiptId, values: TelemetryFrame, maxAttempts: int, sha: Bytes -> Digest)
    requires SequencesOk(db.packets, db.sequences) && Authentic(db) && DigestsOk(db.receipts, sha)
    requires id < |db.receipts| && ValidFrame(values) && WireForm(values) == db.receipts[id].rawBody
    requires FindPacket(db.packets, KeyOf(values)).None?
    ensures Grown(db.jobs, AcceptNewKey(db, id, values, maxAttempts).0, sha)
  {
    var entry := NewKeyShape(db, id, values, maxAttempts);
    AddedEvidence(db, AcceptNewKey(db, id, values, maxAttempts).0, id, sha);
  }

  predicate SameBody(receipt: Receipt, later: Receipt) {
    later.rawBody == receipt.rawBody && later.bodyDigest == receipt.bodyDigest
  }

  lemma StoredKeyShape(db: Database, id: ReceiptId, packet: Packet)
    requires id < |db.receipts|
    ensures var db' := AcceptStoredKey(db, id, packet).0;
            && |db'.receipts| == |db.receipts|
            && db' == db.(receipts := db.receipts[id := db'.receipts[id]])
            && SameBody(db.receipts[id], db'.receipts[id])
  {
    var db' := AcceptStoredKey(db, id, packet).0;
    assert db'.receipts == db.receipts[id := db'.receipts[id]];
  }

  lemma NewKeyShape(db: Database, id: ReceiptId, values: TelemetryFrame, maxAttempts: int) returns (entry: Ledger.Entry)
    requires SequencesOk(db.packets, db.sequences) && id < |db.receipts|
    requires Rules.IsUint32(values.sequenceNumber) && FindPacket(db.packets, KeyOf(values)).None?
    ensures var db' := AcceptNewKey(db, id, values, maxAttempts).0;
            && |db'.receipts| == |db.receipts|
            && db'.receipts == db.receipts[id := db'.receipts[id]]
            && SameBody(db.receipts[id], db'.receipts[id])
            && db'.packets == db.packets + [Packet(
                 KeyOf(values), id, values, db.receipts[id].bodyDigest, entry.placement, entry.missingBefore)]
            && db'.jobs == db.jobs + [NewJob(KeyOf(values), maxAttempts)]
  {
    entry := NewKeyIsPlaced(db, KeyOf(values));
    var db' := AddRows(db, id, values, maxAttempts, entry);
    assert db'.receipts == db.receipts[id := db'.receipts[id]];
  }

  lemma StoredKeyEvidence(db: Database, db': Database, id: ReceiptId, sha: Bytes -> Digest)
    requires Authentic(db) && DigestsOk(db.receipts, sha) && id < |db.receipts| == |db'.receipts|
    requires db'.receipts == db.receipts[id := db'.receipts[id]] && SameBody(db.receipts[id], db'.receipts[id])
    requires db'.packets == db.packets
    ensures Authentic(db') && DigestsOk(db'.receipts, sha)
  {
    forall i | 0 <= i < |db'.packets| ensures AuthenticPacket(db'.packets[i], db'.receipts) {
      assert AuthenticPacket(db.packets[i], db.receipts);
    }
  }

  lemma AddedEvidence(db: Database, db': Database, id: ReceiptId, sha: Bytes -> Digest)
    requires Authentic(db) && DigestsOk(db.receipts, sha) && id < |db.receipts| == |db'.receipts|
    requires db'.receipts == db.receipts[id := db'.receipts[id]]
    requires SameBody(db.receipts[id], db'.receipts[id])
    requires |db'.packets| == |db.packets| + 1 && db.packets <= db'.packets
    requires db'.packets[|db.packets|].source == id
    requires ValidFrame(db'.packets[|db.packets|].values)
    requires WireForm(db'.packets[|db.packets|].values) == db.receipts[id].rawBody
    ensures Authentic(db') && DigestsOk(db'.receipts, sha)
  {
    forall i | 0 <= i < |db'.packets| ensures AuthenticPacket(db'.packets[i], db'.receipts) {
      if i < |db.packets| {
        assert AuthenticPacket(db.packets[i], db.receipts);
      }
    }
  }

  // ----- gateways -----

  lemma RecoveryKeeps(s: System, gateway: GatewayId, limit: int, sha: Bytes -> Digest)
    requires LiveOk(s, sha, None)
    ensures LiveOk(RecoveryStep(s, gateway, limit), sha, None)
    ensures RecoveryStep(s, gateway, limit).db == s.db
  {
    if gateway !in s.gateways && RecoverableJobs(s.db, s.now, limit).Ok? {
      GatewayMoves(s, gateway, RecoverableJobs(s.db, s.now, limit).value, sha);
    }
  }

  lemma EnqueueKeeps(s: System, gateway: GatewayId, sha: Bytes -> Digest)
    requires LiveOk(s, sha, None)
    ensures LiveOk(EnqueueStep(s, gateway), sha, None)
    ensures EnqueueStep(s, gateway).db == s.db
  {
    var s' := EnqueueStep(s, gateway);
    if s' != s {
      var ToEnqueue(job, rest) := s.gateways[gateway];
      assert GatewayOk(s.db.jobs, s.queue, s.gateways[gateway]);
      EnqueueKeepsQueueOk(s.db.jobs, s.queue, job);
      ScriptKeeps(s, s'.queue, sha);
      assert GatewayOk(s.db.jobs, s'.queue, ToMark(job, rest));
    }
  }

  lemma MarkKeepsTables(s: System, gateway: GatewayId)
    requires DbOk(s.db)
    ensures DbOk(MarkStep(s, gateway).db) && Extends(s.db, MarkStep(s, gateway).db)
  {
    hide DbOk, Extends;
    if gateway in s.gateways && s.gateways[gateway].ToMark? {
      MarkKeepsDbOk(s.db, s.gateways[gateway].job);
    } else {
      ExtendsReflexive(s.db);
    }
  }

  lemma MarkKeepsLive(s: System, gateway: GatewayId, sha: Bytes -> Digest)
    requires LiveOk(s, sha, None) && gateway in s.gateways && s.gateways[gateway].ToMark?
    requires Extends(s.db, MarkJobQueued(s.db, s.gateways[gateway].job, s.gateways[gateway].job).0)
    ensures LiveOk(MarkStep(s, gateway), sha, None)
  {
    var ToMark(job, rest) := s.gateways[gateway];
    assert GatewayOk(s.db.jobs, s.queue, s.gateways[gateway]);
    if MarkJobQueued(s.db, job, job).1.Ok? {
      MarkTransaction(s, job, sha);
      GatewayMoves(s.(db := MarkJobQueued(s.db, job, job).0), gateway, rest, sha);
    }
  }

  lemma MarkTransaction(s: System, job: JobId, sha: Bytes -> Digest)
    requires LiveOk(s, sha, None) && job < |s.db.jobs| && MarkJobQueued(s.db, job, job).1.Ok?
    requires Extends(s.db, MarkJobQueued(s.db, job, job).0)
    requires job in s.queue.markers || s.db.jobs[job].state == COMPLETE
    ensures LiveOk(s.(db := MarkJobQueued(s.db, job, job).0), sha, None)
  {
    TransactionKeeps(s, MarkJobQueued(s.db, job, job).0, job, None, sha);
  }

  // ----- workers: the queue -----

  lemma StartKeeps(s: System, worker: WorkerId, sha: Bytes -> Digest)
    requires LiveOk(s, sha, None)
    ensures LiveOk(StartStep(s, worker), sha, None) && StartStep(s, worker).db == s.db
  {
    if worker !in s.usedWorkers {
      RecoverKeepsQueueOk(s.db.jobs, s.queue);
      ScriptKeeps(s, Q.RecoverProcessing(s.queue), sha);
    }
  }

  lemma TakeKeeps(s: System, worker: WorkerId, seen: bool, sha: Bytes -> Digest)
    requires LiveOk(s, sha, None) && worker in s.workers
    ensures LiveOk(TakeStep(s, worker, seen), sha, None) && TakeStep(s, worker, seen).db == s.db
  {
    if s.workers[worker] == Idle {
      var (queue, claimed) := Q.Claim(s.queue);
      TakeKeepsQueueOk(s.db.jobs, s.queue);
      ScriptKeeps(s, queue, sha);
      if claimed.Message? && seen {
        WorkerMoves(s.(queue := queue), worker, Received(claimed.message), sha);
      }
    }
  }

  lemma LookKeeps(s: System, worker: WorkerId, sha: Bytes -> Digest)
    requires LiveOk(s, sha, None) && worker in s.workers
    ensures LiveOk(LookStep(s, worker), sha, None) && LookStep(s, worker).db == s.db
  {
    assert WorkerOk(s.db, s.now, worker, s.workers[worker]);
    if s.workers[worker].Unclaimed? {
      WorkerMoves(s, worker, LookStep(s, worker).workers[worker], sha);
    }
  }

  /** Work is acknowledged only when its job is complete, and dead-lettered only when it
      failed. */
  lemma SettledQueue(s: System, worker: WorkerId, seen: bool, sha: Bytes -> Digest)
    requires LiveOk(s, sha, None) && worker in s.workers
    ensures LiveOk(s.(queue := SettleStep(s, worker, seen).queue), sha, None)
  {
    var queue := SettleStep(s, worker, seen).queue;
    var state := s.workers[worker];
    assert WorkerOk(s.db, s.now, worker, state);
    if queue != s.queue {
      var message := state.message;
      if state.AckUnclaimed? || state.Stored? {
        AckKeepsQueueOk(s.db.jobs, s.queue, message);
      } else if state.DiscardUnclaimed? || state.Discard? {
        DeadLetterKeepsQueueOk(s.db.jobs, s.queue, message);
      } else {
        RetryKeepsQueueOk(s.db.jobs, s.queue, message);
      }
      ScriptKeeps(s, queue, sha);
    }
  }

  /** A worker that is where it was, or idle, or about to put its message back, may be
      anywhere in the tables. */
  lemma SettleKeeps(s: System, worker: WorkerId, seen: bool, sha: Bytes -> Digest)
    requires LiveOk(s, sha, None) && worker in s.workers
    ensures LiveOk(SettleStep(s, worker, seen), sha, None) && SettleStep(s, worker, seen).db == s.db
  {
    var s' := SettleStep(s, worker, seen);
    SettledQueue(s, worker, seen, sha);
    SettledPosition(s, worker, seen);
    if worker !in s'.workers {
      WorkerLeaves(s.(queue := s'.queue), worker, sha);
    } else {
      WorkerMoves(s.(queue := s'.queue), worker, s'.workers[worker], sha);
    }
  }

  lemma SettledPosition(s: System, worker: WorkerId, seen: bool)
    requires worker in s.workers && WorkerOk(s.db, s.now, worker, s.workers[worker])
    ensures var s' := SettleStep(s, worker, seen);
            if worker in s'.workers then
              s' == SetWorker(s.(queue := s'.queue), worker, s'.workers[worker])
              && WorkerOk(s.db, s.now, worker, s'.workers[worker])
            else s' == RemoveWorker(s.(queue := s'.queue), worker)
  {
    assert s.workers == s.workers[worker := s.workers[worker]];
  }

  // ----- workers: the tables -----

  lemma ClaimKeepsTables(s: System, worker: WorkerId, seen: bool)
    requires DbOk(s.db) && worker in s.workers
    ensures DbOk(ClaimStep(s, worker, seen).db) && Extends(s.db, ClaimStep(s, worker, seen).db)
  {
    hide DbOk, Extends;
    if s.workers[worker].Received? {
      ClaimKeepsDbOk(s.db, s.workers[worker].message.job, worker, s.now, LEASE_SECONDS);
    } else {
      ExtendsReflexive(s.db);
    }
  }

  lemma ClaimKeepsLive(s: System, worker: WorkerId, seen: bool, sha: Bytes -> Digest)
    requires LiveOk(s, sha, None) && worker in s.workers && Extends(s.db, ClaimStep(s, worker, seen).db)
    requires PacketsOk(s.db.packets, s.db.receipts) && JobsOk(s.db.jobs, s.db.packets)
    requires ResultsOk(s.db.results, s.db.jobs)
    ensures LiveOk(ClaimStep(s, worker, seen), sha, None)
  {
    hide LiveOk, ClaimJob, WorkOf, Extends;
    if s.workers[worker].Received? {
      var message := s.workers[worker].message;
      var (db', result) := ClaimJob(s.db, message.job, worker, s.now, LEASE_SECONDS);
      ClaimEffect(s.db, message.job, worker, s.now, LEASE_SECONDS);
      PositionOf(s, worker, sha);
      if Claimable(s.db.jobs[message.job], s.now) {
        ClaimedLive(s, worker, message, db', result.value.value, seen, sha);
      } else {
        WorkerMoves(s, worker, ClaimStep(s, worker, seen).workers[worker], sha);
      }
    }
  }

  /** The claim gives the worker its own attempt, until the lease it was told expires. */
  lemma ClaimedLive(
    s: System, worker: WorkerId, message: Q.QueueMessage, db': Database, work: WorkItem, seen: bool,
    sha: Bytes -> Digest)
    requires LiveOk(s, sha, None) && worker in s.workers && MessageOk(s.db.jobs, message)
    requires Extends(s.db, db') && Claimable(s.db.jobs[message.job], s.now)
    requires db' == s.db.(jobs := s.db.jobs[message.job := Claim(s.db.jobs[message.job], worker, s.now, LEASE_SECONDS)])
    requires WorkOf(s.db, message.job, work) && work.attemptCount == s.db.jobs[message.job].attemptCount + 1
    ensures var claim := ClaimView(work, s.now + LEASE_SECONDS * SECOND_US);
            var state := if seen then Working(message, claim) else Rescue(message);
            LiveOk(SetWorker(s.(db := db'), worker, state), sha, None)
  {
    var claim := ClaimView(work, s.now + LEASE_SECONDS * SECOND_US);
    TransactionKeeps(s, db', message.job, Some(worker), sha);
    WorkKept(s.db, db', message.job, work);
    WorkerMoves(s.(db := db'), worker, if seen then Working(message, claim) else Rescue(message), sha);
  }

  /** Steps that only move the worker, each to a position that asks for no more. */
  lemma LocalStepKeeps(s: System, worker: WorkerId, step: WorkerStep, sha: Bytes -> Digest)
    requires LiveOk(s, sha, None) && worker in s.workers
    requires step in {ErrorBeforeWork, Process, ErrorInWork, FailureUnrecorded}
    ensures LiveOk(WorkStep(s, worker, step), sha, None) && WorkStep(s, worker, step).db == s.db
  {
    hide LiveOk;
    PositionOf(s, worker, sha);
    LocalPosition(s, worker, step);
    WorkerMoves(s, worker, WorkStep(s, worker, step).workers[worker], sha);
  }

  lemma LocalPosition(s: System, worker: WorkerId, step: WorkerStep)
    requires worker in s.workers && WorkerOk(s.db, s.now, worker, s.workers[worker])
    requires step in {ErrorBeforeWork, Process, ErrorInWork, FailureUnrecorded}
    ensures var s' := WorkStep(s, worker, step);
            && worker in s'.workers
            && s' == SetWorker(s, worker, s'.workers[worker])
            && WorkerOk(s.db, s.now, worker, s'.workers[worker])
  {
    assert s.workers == s.workers[worker := s.workers[worker]];
  }

  lemma StoreKeepsTables(s: System, worker: WorkerId, seen: bool)
    requires DbOk(s.db) && worker in s.workers
    ensures DbOk(StoreStep(s, worker, seen).db) && Extends(s.db, StoreStep(s, worker, seen).db)
  {
    hide DbOk, Extends;
    match s.workers[worker]
    case Storing(message, claim, result) =>
      CompleteKeepsDbOk(s.db, claim.work.job, result, worker, s.now);
    case _ =>
      ExtendsReflexive(s.db);
  }

  lemma StoreKeepsLive(s: System, worker: WorkerId, seen: bool, sha: Bytes -> Digest)
    requires LiveOk(s, sha, None) && worker in s.workers && Extends(s.db, StoreStep(s, worker, seen).db)
    requires JobsOk(s.db.jobs, s.db.packets) && ResultsOk(s.db.results, s.db.jobs)
    ensures LiveOk(StoreStep(s, worker, seen), sha, None)
  {
    hide LiveOk, CompleteJob, Extends;
    if s.workers[worker].Storing? {
      var Storing(message, claim, result) := s.workers[worker];
      var (db', outcome) := CompleteJob(s.db, claim.work.job, result, worker, s.now);
      PositionOf(s, worker, sha);
      CompleteEffect(s.db, claim.work.job, result, worker, s.now);
      StoredLive(s, worker, message, claim, db', outcome.Ok? && seen, sha);
    }
  }

  lemma StoredLive(
    s: System, worker: WorkerId, message: Q.QueueMessage, claim: ClaimView, db': Database, stored: bool,
    sha: Bytes -> Digest)
    requires LiveOk(s, sha, None) && worker in s.workers && Extends(s.db, db')
    requires MessageOk(s.db.jobs, message) && ClaimOk(s.db, s.now, worker, message, claim)
    requires db' != s.db ==>
               && OwnedBy(s.db.jobs[message.job], worker)
               && db' == s.db.(jobs := s.db.jobs[message.job := Complete(s.db.jobs[message.job])],
                               results := db'.results)
    requires stored ==> |db'.jobs| == |s.db.jobs| && db'.jobs[message.job].state == COMPLETE
    ensures var state := if stored then Stored(message) else Failing(message, claim, true);
            LiveOk(SetWorker(s.(db := db'), worker, state), sha, None)
  {
    if db' != s.db {
      TransactionKeeps(s, db', message.job, Some(worker), sha);
      WorkKept(s.db, db', message.job, claim.work);
    }
    WorkerMoves(s.(db := db'), worker, if stored then Stored(message) else Failing(message, claim, true), sha);
  }

  lemma RecordFailureKeepsTables(s: System, worker: WorkerId, seen: bool)
    requires DbOk(s.db) && worker in s.workers
    ensures DbOk(RecordFailureStep(s, worker, seen).db) && Extends(s.db, RecordFailureStep(s, worker, seen).db)
  {
    hide DbOk, Extends;
    match s.workers[worker]
    case Failing(message, claim, temporary) =>
      FailKeepsDbOk(s.db, claim.work.job, worker, temporary, BASE_BACKOFF_SECONDS, s.now);
    case _ =>
      ExtendsReflexive(s.db);
  }

  lemma RecordFailureKeepsLive(s: System, worker: WorkerId, seen: bool, sha: Bytes -> Digest)
    requires LiveOk(s, sha, None) && worker in s.workers && Extends(s.db, RecordFailureStep(s, worker, seen).db)
    requires JobsOk(s.db.jobs, s.db.packets) && ResultsOk(s.db.results, s.db.jobs)
    ensures LiveOk(RecordFailureStep(s, worker, seen), sha, None)
  {
    hide LiveOk, FailJob, Extends, JobsOk, ResultsOk;
    if s.workers[worker].Failing? {
      var Failing(message, claim, temporary) := s.workers[worker];
      var (db', outcome) := FailJob(s.db, claim.work.job, worker, temporary, BASE_BACKOFF_SECONDS, s.now);
      PositionOf(s, worker, sha);
      FailEffect(s.db, claim.work.job, worker, temporary, BASE_BACKOFF_SECONDS, s.now);
      FailedLive(s, worker, message, db', sha);
      FailedLeaves(s, worker, message, db', seen, outcome, sha);
    }
  }

  lemma FailedLive(s: System, worker: WorkerId, message: Q.QueueMessage, db': Database, sha: Bytes -> Digest)
    requires LiveOk(s, sha, None) && worker in s.workers && Extends(s.db, db') && MessageOk(s.db.jobs, message)
    requires |db'.jobs| == |s.db.jobs|
    requires db' != s.db ==>
               && OwnedBy(s.db.jobs[message.job], worker)
               && db' == s.db.(jobs := s.db.jobs[message.job := db'.jobs[message.job]])
               && SameAttempt(s.db.jobs[message.job], db'.jobs[message.job])
    ensures LiveOk(s.(db := db'), sha, Some(worker)) && MessageOk(db'.jobs, message)
  {
    if db' != s.db {
      TransactionKeeps(s, db', message.job, Some(worker), sha);
    }
  }

  /** A reported failure sends the message to the failed list only if the job is FAILED. */
  lemma FailedLeaves(
    s: System, worker: WorkerId, message: Q.QueueMessage, db': Database, seen: bool, outcome: Result<Job, StorageError>,
    sha: Bytes -> Digest)
    requires LiveOk(s.(db := db'), sha, Some(worker)) && worker in s.workers && MessageOk(db'.jobs, message)
    requires outcome.Ok? ==> db'.jobs[message.job] == outcome.value
    ensures var s' := s.(db := db');
            LiveOk(
              if !seen then SetWorker(s', worker, Idle)
              else if outcome.Err? then RemoveWorker(s', worker)
              else SetWorker(s', worker, if outcome.value.state == FAILED then Discard(message) else Return(message)),
              sha, None)
  {
    hide LiveOk;
    if seen && outcome.Err? {
      WorkerLeaves(s.(db := db'), worker, sha);
    } else {
      WorkerMoves(
        s.(db := db'), worker,
        if !seen then Idle else if outcome.value.state == FAILED then Discard(message) else Return(message), sha);
    }
  }

  // ----- every step, every run -----

  lemma WorkKeepsTables(s: System, worker: WorkerId, step: WorkerStep, sha: Bytes -> Digest)
    requires SystemOk(s, sha) && worker in s.workers
    ensures DbOk(WorkStep(s, worker, step).db) && Extends(s.db, WorkStep(s, worker, step).db)
  {
    hide DbOk, Extends, LiveOk;
    ExtendsReflexive(s.db);
    match step
    case Take(seen) => TakeKeeps(s, worker, seen, sha);
    case ClaimWork(seen) => ClaimKeepsTables(s, worker, seen);
    case LookAgain => LookKeeps(s, worker, sha);
    case Settle(seen) => SettleKeeps(s, worker, seen, sha);
    case Store(seen) => StoreKeepsTables(s, worker, seen);
    case RecordFailure(seen) => RecordFailureKeepsTables(s, worker, seen);
    case ErrorBeforeWork => LocalStepKeeps(s, worker, step, sha);
    case Process => LocalStepKeeps(s, worker, step, sha);
    case ErrorInWork => LocalStepKeeps(s, worker, step, sha);
    case FailureUnrecorded => LocalStepKeeps(s, worker, step, sha);
  }

  lemma WorkKeepsLive(s: System, worker: WorkerId, step: WorkerStep, sha: Bytes -> Digest)
    requires SystemOk(s, sha) && worker in s.workers
    ensures LiveOk(WorkStep(s, worker, step), sha, None)
  {
    hide DbOk, Extends, LiveOk, PacketsOk, JobsOk, ResultsOk;
    WorkKeepsTables(s, worker, step, sha);
    TablesOk(s.db);
    match step
    case Take(seen) => TakeKeeps(s, worker, seen, sha);
    case ClaimWork(seen) => ClaimKeepsLive(s, worker, seen, sha);
    case LookAgain => LookKeeps(s, worker, sha);
    case Settle(seen) => SettleKeeps(s, worker, seen, sha);
    case Store(seen) => StoreKeepsLive(s, worker, seen, sha);
    case RecordFailure(seen) => RecordFailureKeepsLive(s, worker, seen, sha);
    case ErrorBeforeWork => LocalStepKeeps(s, worker, step, sha);
    case Process => LocalStepKeeps(s, worker, step, sha);
    case ErrorInWork => LocalStepKeeps(s, worker, step, sha);
    case FailureUnrecorded => LocalStepKeeps(s, worker, step, sha);
  }

  lemma StopKeeps(s: System, gateway: GatewayId, sha: Bytes -> Digest)
    requires LiveOk(s, sha, None)
    ensures LiveOk(RemoveGateway(s, gateway), sha, None)
  {
  }

  /** Every action keeps the invariant and undoes nothing that was decided. */
  lemma StepKeeps(s: System, action: Action, sha: Bytes -> Digest)
    requires SystemOk(s, sha)
    ensures SystemOk(Step(s, action, sha), sha)
    ensures Extends(s.db, Step(s, action, sha).db)
  {
    hide DbOk, Extends, LiveOk, WorkStep, AcceptStep, EnqueueStep, RecoveryStep, StartStep;
    ExtendsReflexive(s.db);
    match action
    case Tick(microseconds) => TickKeeps(s, microseconds, sha);
    case Record(body, requestId, receivedAt) => RecordKeeps(s, body, requestId, receivedAt, sha);
    case Reject(receipt, reason) => RejectKeeps(s, receipt, reason, sha);
    case Accept(receipt, decodedAt, maxAttempts) => AcceptKeeps(s, receipt, decodedAt, maxAttempts, sha);
    case BeginQueueing(gateway, job) =>
      if gateway !in s.gateways && job < |s.db.jobs| {
        GatewayMoves(s, gateway, [job], sha);
      }
    case BeginRecovery(gateway, limit) => RecoveryKeeps(s, gateway, limit, sha);
    case Enqueue(gateway) => EnqueueKeeps(s, gateway, sha);
    case Mark(gateway) =>
      MarkKeepsTables(s, gateway);
      if gateway in s.gateways && s.gateways[gateway].ToMark? {
        MarkKeepsLive(s, gateway, sha);
      }
    case GatewayStops(gateway) => StopKeeps(s, gateway, sha);
    case WorkerStarts(worker) => StartKeeps(s, worker, sha);
    case WorkerCrashes(worker) => WorkerLeaves(s, worker, sha);
    case Work(worker, step) =>
      if worker in s.workers {
        WorkKeepsTables(s, worker, step, sha);
        WorkKeepsLive(s, worker, step, sha);
      }
  }

  /** So no interleaving of gateways, workers, lost answers and crashes leads out of it. */
  lemma {:induction false} RunKeeps(s: System, actions: seq<Action>, sha: Bytes -> Digest)
    requires SystemOk(s, sha)
    ensures SystemOk(Run(s, actions, sha), sha)
    ensures Extends(s.db, Run(s, actions, sha).db)
    decreases actions
  {
    hide DbOk, Extends, LiveOk, Step;
    if actions == [] {
      ExtendsReflexive(s.db);
    } else {
      var s' := Step(s, actions[0], sha);
      StepKeeps(s, actions[0], sha);
      RunKeeps(s', actions[1..], sha);
      ExtendsTransitive(s.db, s'.db, Run(s, actions, sha).db);
    }
  }

  // ----- the tables alone -----

  /** Whatever became of Redis and of the processes, every action keeps the tables
      consistent and undoes nothing in them. */
  lemma StepKeepsTables(s: System, action: Action, sha: Bytes -> Digest)
    requires DbOk(s.db)
    ensures DbOk(Step(s, action, sha).db) && Extends(s.db, Step(s, action, sha).db)
  {
    hide DbOk, Extends, RecordDelivery, RejectDelivery, AcceptStep, MarkStep;
    hide EnqueueStep, RecoveryStep, StartStep, WorkStep;
    ExtendsReflexive(s.db);
    match action
    case Record(body, requestId, receivedAt) => RecordKeepsDbOk(s.db, sha, body, requestId, receivedAt);
    case Reject(receipt, reason) => RejectKeepsDbOk(s.db, receipt, reason);
    case Accept(receipt, decodedAt, maxAttempts) => AcceptKeepsTables(s, receipt, decodedAt, maxAttempts);
    case Mark(gateway) => MarkKeepsTables(s, gateway);
    case Work(worker, step) =>
      if worker in s.workers {
        AnyWorkKeepsTables(s, worker, step);
      }
    case _ => OthersKeepDatabase(s, action, sha);
  }

  lemma AcceptKeepsTables(s: System, id: ReceiptId, decodedAt: int, maxAttempts: int)
    requires DbOk(s.db)
    ensures var s' := AcceptStep(s, id, decodedAt, maxAttempts); DbOk(s'.db) && Extends(s.db, s'.db)
  {
    hide DbOk, Extends, AcceptPacket, Decode;
    ExtendsReflexive(s.db);
    if id < |s.db.receipts| && Decode(s.db.receipts[id].rawBody, decodedAt).Ok? {
      AcceptKeepsDbOk(s.db, id, Decode(s.db.receipts[id].rawBody, decodedAt).value, maxAttempts);
    }
  }

  lemma AnyWorkKeepsTables(s: System, worker: WorkerId, step: WorkerStep)
    requires DbOk(s.db) && worker in s.workers
    ensures DbOk(WorkStep(s, worker, step).db) && Extends(s.db, WorkStep(s, worker, step).db)
  {
    hide DbOk, Extends, ClaimJob, CompleteJob, FailJob, Decode, Q.Claim, Q.Ack, Q.Retry, Q.DeadLetter;
    ExtendsReflexive(s.db);
    match step
    case ClaimWork(seen) => ClaimKeepsTables(s, worker, seen);
    case Store(seen) => StoreKeepsTables(s, worker, seen);
    case RecordFailure(seen) => RecordFailureKeepsTables(s, worker, seen);
    case _ =>
  }

  lemma OthersKeepDatabase(s: System, action: Action, sha: Bytes -> Digest)
    requires !action.Record? && !action.Reject? && !action.Accept? && !action.Mark? && !action.Work?
    ensures Step(s, action, sha).db == s.db
  {
    hide RecoverableJobs, Q.Enqueue;
  }
}
