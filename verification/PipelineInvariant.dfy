/** The invariant that ties the two stores and every local position together, and the
    proof that each action keeps it. */
module PipelineInvariant {
  import opened Outcomes
  import opened Wire
  import opened FrameCodec
  import opened JobLifecycle
  import opened Storage
  import opened StorageInvariant
  import opened Pipeline
  import Q = RedisQueue

  // ----- the queue against the job table -----

  function Reference(jobs: seq<Job>, id: JobId): Q.Entry
    requires id < |jobs|
  {
    Q.Reference(Q.QueueMessage(id, jobs[id].packet))
  }

  predicate MarkerOk(jobs: seq<Job>, q: Q.QueueState, id: JobId) {
    id in q.markers ==> id < |jobs| && q.markers[id] == Q.QueueMessage(id, jobs[id].packet)
  }

  /** A job that is neither new nor complete is marked, and only failed work is in the
      failed list. */
  predicate JobInQueueOk(jobs: seq<Job>, q: Q.QueueState, id: JobId)
    requires id < |jobs|
  {
    && (id !in q.markers ==> jobs[id].state in {PENDING_QUEUE, COMPLETE})
    && (Reference(jobs, id) in q.failed ==> jobs[id].state == FAILED)
  }

  ghost predicate QueueOk(jobs: seq<Job>, q: Q.QueueState) {
    && Q.Consistent(q)
    && (forall id: JobId :: MarkerOk(jobs, q, id))
    && (forall id: JobId :: id < |jobs| ==> JobInQueueOk(jobs, q, id))
  }

  // ----- local positions -----

  predicate GatewayOk(jobs: seq<Job>, q: Q.QueueState, gateway: Gateway) {
    && gateway.job < |jobs|
    && (forall id :: id in gateway.rest ==> id < |jobs|)
    && (gateway.ToMark? ==> gateway.job in q.markers || jobs[gateway.job].state == COMPLETE)
  }

  predicate MessageOk(jobs: seq<Job>, message: Q.QueueMessage) {
    message.job < |jobs| && message.packet == jobs[message.job].packet
  }

  /** What a worker that still works on attempt `attempt` knows of the job row. */
  predicate HoldOk(job: Job, worker: WorkerId, attempt: int, expiresAt: int, now: int) {
    && attempt <= job.attemptCount
    && (job.claimedBy == Some(worker) ==> job.attemptCount == attempt)
    && (job.attemptCount == attempt ==>
          && job.claimedBy == Some(worker)
          && (job.state == COMPLETE || (job.state == PROCESSING && job.leaseExpiresAt == Some(expiresAt))))
    && (expiresAt > now ==> job.attemptCount == attempt)
  }

  predicate ClaimOk(db: Database, now: int, worker: WorkerId, message: Q.QueueMessage, claim: ClaimView) {
    && message.job < |db.jobs|
    && WorkOf(db, message.job, claim.work)
    && HoldOk(db.jobs[message.job], worker, claim.work.attemptCount, claim.expiresAt, now)
  }

  predicate WorkerOk(db: Database, now: int, worker: WorkerId, state: Worker) {
    && (state != Idle ==> MessageOk(db.jobs, state.message))
    && match state
       case AckUnclaimed(message) => db.jobs[message.job].state == COMPLETE
       case Stored(message) => db.jobs[message.job].state == COMPLETE
       case DiscardUnclaimed(message) => db.jobs[message.job].state == FAILED
       case Discard(message) => db.jobs[message.job].state == FAILED
       case Working(message, claim) => ClaimOk(db, now, worker, message, claim)
       case Storing(message, claim, result) =>
         && ClaimOk(db, now, worker, message, claim)
         && result == ProcessingResult(claim.work.values, claim.work.receivedAt)
       case Failing(message, claim, _) => ClaimOk(db, now, worker, message, claim)
       case _ => true
  }

  // ----- evidence -----

  predicate DigestsOk(receipts: seq<Receipt>, sha: Bytes -> Digest) {
    forall id :: 0 <= id < |receipts| ==> receipts[id].bodyDigest == sha(receipts[id].rawBody)
  }

  /** Every packet is the decoded form of the bytes its receipt preserves. */
  predicate AuthenticPacket(packet: Packet, receipts: seq<Receipt>) {
    && packet.source < |receipts|
    && ValidFrame(packet.values)
    && receipts[packet.source].rawBody == WireForm(packet.values)
  }

  predicate Authentic(db: Database) {
    forall i :: 0 <= i < |db.packets| ==> AuthenticPacket(db.packets[i], db.receipts)
  }

  // ----- the whole -----

  predicate ClaimantsKnown(jobs: seq<Job>, used: set<WorkerId>) {
    forall id :: 0 <= id < |jobs| ==> jobs[id].claimedBy.Some? ==> jobs[id].claimedBy.value in used
  }

  predicate GatewaysOk(s: System) {
    forall gateway :: gateway in s.gateways ==> GatewayOk(s.db.jobs, s.queue, s.gateways[gateway])
  }

  /** Every worker but the one named, if any, is where its position says. */
  predicate WorkersOk(s: System, but: Option<WorkerId>) {
    forall worker :: worker in s.workers ==>
      && worker in s.usedWorkers
      && (but != Some(worker) ==> WorkerOk(s.db, s.now, worker, s.workers[worker]))
  }

  /** All but the tables among themselves, and but the position of one worker. */
  ghost predicate LiveOk(s: System, sha: Bytes -> Digest, but: Option<WorkerId>) {
    && DigestsOk(s.db.receipts, sha)
    && Authentic(s.db)
    && QueueOk(s.db.jobs, s.queue)
    && GatewaysOk(s)
    && WorkersOk(s, but)
    && ClaimantsKnown(s.db.jobs, s.usedWorkers)
  }

  ghost predicate SystemOk(s: System, sha: Bytes -> Digest) {
    DbOk(s.db) && LiveOk(s, sha, None)
  }

  lemma StartOk(sha: Bytes -> Digest)
    ensures SystemOk(START, sha)
  {
    NewDatabaseOk();
  }

  // ----- queue scripts keep the queue against a fixed job table -----

  lemma EnqueueKeepsQueueOk(jobs: seq<Job>, q: Q.QueueState, id: JobId)
    requires QueueOk(jobs, q) && id < |jobs|
    ensures var (q', result) := Q.Enqueue(q, Q.QueueMessage(id, jobs[id].packet));
            && QueueOk(jobs, q')
            && result != -1
            && q'.markers.Keys == q.markers.Keys + {id}
  {
    var message := Q.QueueMessage(id, jobs[id].packet);
    var q' := Q.Enqueue(q, message).0;
    Q.EnqueueEffect(q, message);
    assert MarkerOk(jobs, q, id);
    forall other: JobId ensures MarkerOk(jobs, q', other) {
      assert MarkerOk(jobs, q, other);
    }
    forall other: JobId | other < |jobs| ensures JobInQueueOk(jobs, q', other) {
      assert JobInQueueOk(jobs, q, other);
    }
  }

  lemma TakeKeepsQueueOk(jobs: seq<Job>, q: Q.QueueState)
    requires QueueOk(jobs, q)
    ensures var (q', claimed) := Q.Claim(q);
            && QueueOk(jobs, q')
            && q'.markers == q.markers
            && (claimed.Message? ==> MessageOk(jobs, claimed.message))
  {
    var (q', claimed) := Q.Claim(q);
    Q.ClaimEffect(q);
    if claimed.Message? {
      assert MarkerOk(jobs, q, claimed.message.job);
    }
    SameMarkersQueueOk(jobs, q, q');
  }

  /** Scripts that only move references between pending and processing. */
  lemma SameMarkersQueueOk(jobs: seq<Job>, q: Q.QueueState, q': Q.QueueState)
    requires QueueOk(jobs, q) && Q.Consistent(q') && q'.markers == q.markers
    requires forall entry :: entry in q'.failed && entry !in q.failed ==>
               entry.Malformed? || (MessageOk(jobs, entry.message) && jobs[entry.message.job].state == FAILED)
    ensures QueueOk(jobs, q')
  {
    forall other: JobId ensures MarkerOk(jobs, q', other) {
      assert MarkerOk(jobs, q, other);
    }
    forall other: JobId | other < |jobs| ensures JobInQueueOk(jobs, q', other) {
      assert JobInQueueOk(jobs, q, other);
    }
  }

  lemma AckKeepsQueueOk(jobs: seq<Job>, q: Q.QueueState, message: Q.QueueMessage)
    requires QueueOk(jobs, q) && MessageOk(jobs, message) && jobs[message.job].state == COMPLETE
    ensures var q' := Q.Ack(q, message).0;
            && QueueOk(jobs, q')
            && forall id :: id in q.markers && id !in q'.markers ==> id < |jobs| && jobs[id].state == COMPLETE
  {
    var q' := Q.Ack(q, message).0;
    Q.AckEffect(q, message);
    forall other: JobId ensures MarkerOk(jobs, q', other) {
      assert MarkerOk(jobs, q, other);
    }
    forall other: JobId | other < |jobs| ensures JobInQueueOk(jobs, q', other) {
      assert JobInQueueOk(jobs, q, other);
    }
  }

  lemma RetryKeepsQueueOk(jobs: seq<Job>, q: Q.QueueState, message: Q.QueueMessage)
    requires QueueOk(jobs, q)
    ensures QueueOk(jobs, Q.Retry(q, message).0) && Q.Retry(q, message).0.markers == q.markers
  {
    Q.MoveEffect(q, message);
    SameMarkersQueueOk(jobs, q, Q.Retry(q, message).0);
  }

  lemma DeadLetterKeepsQueueOk(jobs: seq<Job>, q: Q.QueueState, message: Q.QueueMessage)
    requires QueueOk(jobs, q) && MessageOk(jobs, message) && jobs[message.job].state == FAILED
    ensures QueueOk(jobs, Q.DeadLetter(q, message).0) && Q.DeadLetter(q, message).0.markers == q.markers
  {
    Q.MoveEffect(q, message);
    SameMarkersQueueOk(jobs, q, Q.DeadLetter(q, message).0);
  }

  lemma RecoverKeepsQueueOk(jobs: seq<Job>, q: Q.QueueState)
    requires QueueOk(jobs, q)
    ensures QueueOk(jobs, Q.RecoverProcessing(q)) && Q.RecoverProcessing(q).markers == q.markers
  {
    Q.RecoverEffect(q);
    SameMarkersQueueOk(jobs, q, Q.RecoverProcessing(q));
  }

  // ----- job transactions against a fixed queue -----

  /** How one transaction, by a worker or by nobody, changes one row of the job table. */
  predicate RowMoves(job: Job, later: Job, actor: Option<WorkerId>, now: int) {
    || later == job
    || (actor.None? && job.state in {PENDING_QUEUE, RETRY_WAIT} && later.state == QUEUED
        && later.attemptCount == job.attemptCount && later.claimedBy == job.claimedBy)
    || (actor.Some? && Claimable(job, now) && later.attemptCount == job.attemptCount + 1 && later.claimedBy == actor)
    || (actor.Some? && OwnedBy(job, actor.value) && later.attemptCount == job.attemptCount
        && later.claimedBy == job.claimedBy)
  }

  predicate TableMoves(jobs: seq<Job>, later: seq<Job>, id: JobId, actor: Option<WorkerId>, now: int) {
    && id < |jobs| == |later|
    && later == jobs[id := later[id]]
    && RowMoves(jobs[id], later[id], actor, now)
    && later[id].packet == jobs[id].packet
    && (Terminal(jobs[id]) ==> later[id] == jobs[id])
  }

  /** No transaction of another process spoils what a worker knows of its own claim. */
  lemma OthersKeepHold(
    job: Job, later: Job, actor: Option<WorkerId>, now: int, worker: WorkerId, attempt: int, expiresAt: int)
    requires RowMoves(job, later, actor, now) && actor != Some(worker)
    requires HoldOk(job, worker, attempt, expiresAt, now)
    ensures HoldOk(later, worker, attempt, expiresAt, now)
  {
  }

  lemma OthersKeepWorkerOk(
    db: Database, db': Database, id: JobId, actor: Option<WorkerId>, now: int, worker: WorkerId, state: Worker)
    requires Extends(db, db') && |db'.jobs| == |db.jobs| && TableMoves(db.jobs, db'.jobs, id, actor, now)
    requires actor != Some(worker) && WorkerOk(db, now, worker, state)
    ensures WorkerOk(db', now, worker, state)
  {
    if state != Idle {
      if state.Working? || state.Storing? || state.Failing? {
        OthersKeepHold(
          db.jobs[state.message.job], db'.jobs[state.message.job], actor, now, worker,
          state.claim.work.attemptCount, state.claim.expiresAt);
        WorkKept(db, db', state.message.job, state.claim.work);
      }
      assert JobKept(db.jobs[state.message.job], db'.jobs[state.message.job]);
    }
  }

  lemma WorkKept(db: Database, db': Database, id: JobId, work: WorkItem)
    requires Extends(db, db') && WorkOf(db, id, work)
    ensures WorkOf(db', id, work)
  {
    assert db'.packets[id] == db.packets[id];
    assert ReceiptKept(db.receipts[db.packets[id].source], db'.receipts[db.packets[id].source]);
  }

  lemma TableMoveKeepsQueueOk(
    jobs: seq<Job>, later: seq<Job>, id: JobId, actor: Option<WorkerId>, now: int, q: Q.QueueState)
    requires QueueOk(jobs, q) && |later| == |jobs| && TableMoves(jobs, later, id, actor, now)
    requires jobs[id].state == PENDING_QUEUE && later[id].state != PENDING_QUEUE ==> id in q.markers
    ensures QueueOk(later, q)
  {
    forall other: JobId ensures MarkerOk(later, q, other) {
      assert MarkerOk(jobs, q, other);
    }
    forall other: JobId | other < |later| ensures JobInQueueOk(later, q, other) {
      assert JobInQueueOk(jobs, q, other);
    }
  }

  lemma EvidenceKept(db: Database, db': Database, sha: Bytes -> Digest)
    requires Extends(db, db') && Authentic(db) && DigestsOk(db.receipts, sha)
    requires db'.packets == db.packets && |db'.receipts| == |db.receipts|
    ensures Authentic(db') && DigestsOk(db'.receipts, sha)
  {
    forall i | 0 <= i < |db'.packets| ensures AuthenticPacket(db'.packets[i], db'.receipts) {
      assert AuthenticPacket(db.packets[i], db.receipts);
      assert ReceiptKept(db.receipts[db.packets[i].source], db'.receipts[db.packets[i].source]);
    }
    forall id | 0 <= id < |db'.receipts| ensures db'.receipts[id].bodyDigest == sha(db'.receipts[id].rawBody) {
      assert ReceiptKept(db.receipts[id], db'.receipts[id]);
    }
  }

  // ----- the actions -----

  /** One job transaction by a worker (or by a gateway, when `actor` is None) keeps all
      but the position of the actor itself. */
  lemma TransactionKeeps(s: System, db': Database, id: JobId, actor: Option<WorkerId>, sha: Bytes -> Digest)
    requires LiveOk(s, sha, None) && Extends(s.db, db')
    requires db'.packets == s.db.packets && |db'.receipts| == |s.db.receipts|
    requires TableMoves(s.db.jobs, db'.jobs, id, actor, s.now)
    requires s.db.jobs[id].state == PENDING_QUEUE && db'.jobs[id].state != PENDING_QUEUE ==> id in s.queue.markers
    requires actor.Some? ==> actor.value in s.workers
    ensures LiveOk(s.(db := db'), sha, actor)
  {
    EvidenceKept(s.db, db', sha);
    TableMoveKeepsQueueOk(s.db.jobs, db'.jobs, id, actor, s.now, s.queue);
    GatewaysKept(s, s.(db := db'));
    WorkersKept(s, db', id, actor);
  }

  lemma GatewaysKept(s: System, s': System)
    requires GatewaysOk(s) && s'.gateways == s.gateways && Extends(s.db, s'.db)
    requires forall id :: id in s.queue.markers && id !in s'.queue.markers ==>
               id < |s.db.jobs| && s.db.jobs[id].state == COMPLETE
    ensures GatewaysOk(s')
  {
    forall gateway | gateway in s'.gateways ensures GatewayOk(s'.db.jobs, s'.queue, s'.gateways[gateway]) {
      assert GatewayOk(s.db.jobs, s.queue, s.gateways[gateway]);
      assert JobKept(s.db.jobs[s.gateways[gateway].job], s'.db.jobs[s.gateways[gateway].job]);
    }
  }

  lemma WorkersKept(s: System, db': Database, id: JobId, actor: Option<WorkerId>)
    requires WorkersOk(s, None) && Extends(s.db, db') && |db'.jobs| == |s.db.jobs|
    requires TableMoves(s.db.jobs, db'.jobs, id, actor, s.now)
    ensures WorkersOk(s.(db := db'), actor)
  {
    forall worker | worker in s.workers && actor != Some(worker)
      ensures WorkerOk(db', s.now, worker, s.workers[worker])
    {
      OthersKeepWorkerOk(s.db, db', id, actor, s.now, worker, s.workers[worker]);
    }
  }

  /** A script keeps everything if the marks it removes belong to complete jobs. */
  lemma ScriptKeeps(s: System, queue: Q.QueueState, sha: Bytes -> Digest)
    requires LiveOk(s, sha, None) && QueueOk(s.db.jobs, queue)
    requires forall id :: id in s.queue.markers && id !in queue.markers ==>
               id < |s.db.jobs| && s.db.jobs[id].state == COMPLETE
    ensures LiveOk(s.(queue := queue), sha, None)
  {
    ExtendsReflexive(s.db);
    GatewaysKept(s, s.(queue := queue));
  }

  lemma WorkerMoves(s: System, worker: WorkerId, state: Worker, sha: Bytes -> Digest)
    requires LiveOk(s, sha, Some(worker)) || LiveOk(s, sha, None)
    requires worker in s.workers && WorkerOk(s.db, s.now, worker, state)
    ensures LiveOk(SetWorker(s, worker, state), sha, None)
  {
  }

  lemma PositionOf(s: System, worker: WorkerId, sha: Bytes -> Digest)
    requires LiveOk(s, sha, None) && worker in s.workers
    ensures WorkerOk(s.db, s.now, worker, s.workers[worker])
  {
  }

  lemma WorkerLeaves(s: System, worker: WorkerId, sha: Bytes -> Digest)
    requires LiveOk(s, sha, Some(worker)) || LiveOk(s, sha, None)
    ensures LiveOk(RemoveWorker(s, worker), sha, None)
  {
  }

  lemma GatewayMoves(s: System, gateway: GatewayId, rest: seq<JobId>, sha: Bytes -> Digest)
    requires LiveOk(s, sha, None) && forall id :: id in rest ==> id < |s.db.jobs|
    ensures LiveOk(NextInList(s, gateway, rest), sha, None)
  {
    if rest != [] {
      assert rest[0] in rest && forall id :: id in rest[1..] ==> id in rest;
      assert GatewayOk(s.db.jobs, s.queue, ToEnqueue(rest[0], rest[1..]));
    }
  }
}
