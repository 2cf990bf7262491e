/** What a loss of Redis really costs: work in progress whose reference is gone, and that no
    process holds, is never taken up again. */
module PipelineStranded {
  import opened Wire
  import opened FrameCodec
  import opened JobLifecycle
  import opened Storage
  import opened Pipeline
  import Ledger = SequenceLedger
  import Q = RedisQueue

  predicate RefersToJob(entry: Q.Entry, id: JobId) {
    entry.Reference? && entry.message.job == id
  }

  predicate Unlisted(entries: seq<Q.Entry>, id: JobId) {
    forall entry :: entry in entries ==> !RefersToJob(entry, id)
  }

  predicate HoldsOther(state: Worker, id: JobId) {
    && (state != Idle ==> state.message.job != id)
    && (state.Working? || state.Storing? || state.Failing? ==> state.claim.work.job != id)
  }

  predicate ListsOther(gateway: Gateway, id: JobId) {
    gateway.job != id && id !in gateway.rest
  }

  /** The job is in progress, but no list that workers take from refers to it, no worker
      holds it and no gateway is about to queue it. */
  predicate Stranded(s: System, id: JobId) {
    && id < |s.db.jobs| && s.db.jobs[id].state == PROCESSING
    && Unlisted(s.queue.pending, id) && Unlisted(s.queue.processing, id)
    && (forall worker :: worker in s.workers ==> HoldsOther(s.workers[worker], id))
    && (forall gateway :: gateway in s.gateways ==> ListsOther(s.gateways[gateway], id))
  }

  predicate SameRow(s: System, s': System, id: JobId)
    requires id < |s.db.jobs|
  {
    id < |s'.db.jobs| && s'.db.jobs[id] == s.db.jobs[id]
  }

  // ----- the queue scripts -----

  lemma {:induction false} RemoveFirstStaysUnlisted(list: seq<Q.Entry>, entry: Q.Entry, id: JobId)
    requires Unlisted(list, id)
    ensures Unlisted(Q.RemoveFirst(list, entry), id)
  {
    if list != [] && list[0] != entry {
      RemoveFirstStaysUnlisted(list[1..], entry, id);
    }
  }

  predicate UnlistedIn(q: Q.QueueState, id: JobId) {
    Unlisted(q.pending, id) && Unlisted(q.processing, id)
  }

  lemma ScriptsStayUnlisted(q: Q.QueueState, message: Q.QueueMessage, id: JobId)
    requires UnlistedIn(q, id) && message.job != id
    ensures UnlistedIn(Q.Enqueue(q, message).0, id)
    ensures UnlistedIn(Q.Ack(q, message).0, id)
    ensures UnlistedIn(Q.Retry(q, message).0, id)
    ensures UnlistedIn(Q.DeadLetter(q, message).0, id)
  {
    RemoveFirstStaysUnlisted(q.processing, Q.Reference(message), id);
  }

  lemma TakeStaysUnlisted(q: Q.QueueState, id: JobId)
    requires UnlistedIn(q, id)
    ensures UnlistedIn(Q.Claim(q).0, id) && UnlistedIn(Q.RecoverProcessing(q), id)
    ensures Q.Claim(q).1.Message? ==> Q.Claim(q).1.message.job != id
  {
    if q.pending != [] {
      assert q.pending[|q.pending| - 1] in q.pending;
    }
  }

  // ----- the transactions -----

  lemma AcceptKeepsRows(db: Database, receipt: ReceiptId, values: TelemetryFrame, maxAttempts: int)
    ensures db.jobs <= AcceptPacket(db, receipt, values, maxAttempts).0.jobs
  {
    hide Ledger.Place, FindPacket, FindJob, SequenceRowAfter, ExactDuplicate, StoredAcceptance;
  }

  lemma OthersKeepRow(db: Database, other: JobId, id: JobId, worker: WorkerId, now: int)
    requires id < |db.jobs| && other != id
    ensures var db' := MarkJobQueued(db, other, other).0; |db'.jobs| == |db.jobs| && db'.jobs[id] == db.jobs[id]
    ensures var db' := ClaimJob(db, other, worker, now, LEASE_SECONDS).0;
            |db'.jobs| == |db.jobs| && db'.jobs[id] == db.jobs[id]
  {
    hide FindPacket;
  }

  lemma ClaimShowsItsJob(db: Database, other: JobId, worker: WorkerId, now: int)
    ensures var claim := ClaimJob(db, other, worker, now, LEASE_SECONDS).1;
            claim.Ok? && claim.value.Some? ==> claim.value.value.job == other
  {
    hide FindPacket;
  }

  lemma WorkersKeepRow(
    db: Database, other: JobId, id: JobId, result: ProcessingResult, worker: WorkerId, temporary: bool, now: int)
    requires id < |db.jobs| && other != id
    ensures var db' := CompleteJob(db, other, result, worker, now).0;
            |db'.jobs| == |db.jobs| && db'.jobs[id] == db.jobs[id]
    ensures var db' := FailJob(db, other, worker, temporary, BASE_BACKOFF_SECONDS, now).0;
            |db'.jobs| == |db.jobs| && db'.jobs[id] == db.jobs[id]
  {
  }

  // ----- the actions -----

  lemma WorkKeepsRow(s: System, worker: WorkerId, step: WorkerStep, id: JobId)
    requires worker in s.workers && HoldsOther(s.workers[worker], id) && id < |s.db.jobs|
    ensures SameRow(s, WorkStep(s, worker, step), id)
  {
    hide ClaimJob, CompleteJob, FailJob, Q.Claim, Q.Ack, Q.Retry, Q.DeadLetter, Decode;
    match s.workers[worker]
    case Received(message) => OthersKeepRow(s.db, message.job, id, worker, s.now);
    case Storing(_, claim, result) => WorkersKeepRow(s.db, claim.work.job, id, result, worker, true, s.now);
    case Failing(_, claim, temporary) =>
      WorkersKeepRow(s.db, claim.work.job, id, ProcessingResult(claim.work.values, 0), worker, temporary, s.now);
    case _ =>
  }

  lemma WorkKeepsUnlisted(s: System, worker: WorkerId, step: WorkerStep, id: JobId)
    requires worker in s.workers && HoldsOther(s.workers[worker], id) && UnlistedIn(s.queue, id)
    ensures UnlistedIn(WorkStep(s, worker, step).queue, id)
  {
    hide ClaimJob, CompleteJob, FailJob, Q.Claim, Q.Ack, Q.Retry, Q.DeadLetter, Decode, UnlistedIn;
    TakeStaysUnlisted(s.queue, id);
    if s.workers[worker] != Idle {
      ScriptsStayUnlisted(s.queue, s.workers[worker].message, id);
    }
  }

  lemma WorkHoldsOther(s: System, worker: WorkerId, step: WorkerStep, id: JobId)
    requires worker in s.workers && HoldsOther(s.workers[worker], id) && UnlistedIn(s.queue, id)
    ensures var s' := WorkStep(s, worker, step);
            && s'.gateways == s.gateways
            && (forall other :: other in s'.workers ==>
                  if other == worker then HoldsOther(s'.workers[other], id)
                  else other in s.workers && s'.workers[other] == s.workers[other])
  {
    hide ClaimJob, CompleteJob, FailJob, Q.Claim, Q.Ack, Q.Retry, Q.DeadLetter, Decode, UnlistedIn;
    TakeStaysUnlisted(s.queue, id);
    if s.workers[worker].Received? {
      ClaimShowsItsJob(s.db, s.workers[worker].message.job, worker, s.now);
    }
  }

  lemma WorkLeavesStranded(s: System, worker: WorkerId, step: WorkerStep, id: JobId)
    requires Stranded(s, id) && worker in s.workers
    ensures Stranded(WorkStep(s, worker, step), id) && SameRow(s, WorkStep(s, worker, step), id)
  {
    hide WorkStep, Unlisted;
    WorkKeepsRow(s, worker, step, id);
    WorkKeepsUnlisted(s, worker, step, id);
    WorkHoldsOther(s, worker, step, id);
  }

  lemma GatewayLeavesStranded(s: System, action: Action, sha: Bytes -> Digest, id: JobId)
    requires Stranded(s, id) && (action.Enqueue? || action.Mark? || action.BeginRecovery?)
    ensures Stranded(Step(s, action, sha), id) && SameRow(s, Step(s, action, sha), id)
  {
    hide MarkJobQueued, ClaimJob, Q.Enqueue, Unlisted, RecoverableAmong;
    match action
    case Enqueue(gateway) =>
      if gateway in s.gateways && s.gateways[gateway].job < |s.db.jobs| {
        assert ListsOther(s.gateways[gateway], id);
        ScriptsStayUnlisted(s.queue, MessageOf(s.db, s.gateways[gateway].job), id);
      }
    case Mark(gateway) =>
      if gateway in s.gateways && s.gateways[gateway].ToMark? {
        assert ListsOther(s.gateways[gateway], id);
        OthersKeepRow(s.db, s.gateways[gateway].job, id, 0, s.now);
        NextListsOther(s.gateways[gateway].rest, id);
      }
    case BeginRecovery(gateway, limit) =>
      if RecoverableJobs(s.db, s.now, limit).Ok? {
        NextListsOther(RecoverableJobs(s.db, s.now, limit).value, id);
      }
  }

  lemma NextListsOther(rest: seq<JobId>, id: JobId)
    requires id !in rest
    ensures rest != [] ==> ListsOther(ToEnqueue(rest[0], rest[1..]), id)
  {
    assert rest != [] ==> rest[0] in rest && forall other :: other in rest[1..] ==> other in rest;
  }

  lemma DeliveryLeavesStranded(s: System, action: Action, sha: Bytes -> Digest, id: JobId)
    requires Stranded(s, id) && (action.Record? || action.Reject? || action.Accept?)
    ensures Stranded(Step(s, action, sha), id) && SameRow(s, Step(s, action, sha), id)
  {
    hide Decode, AcceptPacket, Unlisted;
    match action
    case Accept(receipt, decodedAt, maxAttempts) =>
      if receipt < |s.db.receipts| && Decode(s.db.receipts[receipt].rawBody, decodedAt).Ok? {
        AcceptKeepsRows(s.db, receipt, Decode(s.db.receipts[receipt].rawBody, decodedAt).value, maxAttempts);
      }
    case _ =>
  }

  lemma StepLeavesStranded(s: System, action: Action, sha: Bytes -> Digest, id: JobId)
    requires Stranded(s, id) && !(action.BeginQueueing? && action.job == id)
    ensures Stranded(Step(s, action, sha), id) && SameRow(s, Step(s, action, sha), id)
  {
    hide RecordDelivery, RejectDelivery, AcceptStep, MarkStep, EnqueueStep, RecoveryStep, WorkStep, Unlisted;
    match action
    case Record(_, _, _) => DeliveryLeavesStranded(s, action, sha, id);
    case Reject(_, _) => DeliveryLeavesStranded(s, action, sha, id);
    case Accept(_, _, _) => DeliveryLeavesStranded(s, action, sha, id);
    case Enqueue(_) => GatewayLeavesStranded(s, action, sha, id);
    case Mark(_) => GatewayLeavesStranded(s, action, sha, id);
    case BeginRecovery(_, _) => GatewayLeavesStranded(s, action, sha, id);
    case BeginQueueing(gateway, job) => NextListsOther([job], id);
    case WorkerStarts(_) => TakeStaysUnlisted(s.queue, id);
    case Work(worker, step) =>
      if worker in s.workers {
        WorkLeavesStranded(s, worker, step, id);
      }
    case _ =>
  }

  predicate NeverQueues(actions: seq<Action>, id: JobId) {
    forall action :: action in actions ==> !(action.BeginQueueing? && action.job == id)
  }

  /** With any number of recoveries, redeliveries, workers and lease times, a stranded row
      never changes again, unless a request queues that very job. */
  lemma {:induction false} StrandedForever(s: System, actions: seq<Action>, sha: Bytes -> Digest, id: JobId)
    requires Stranded(s, id) && NeverQueues(actions, id)
    ensures Stranded(Run(s, actions, sha), id) && SameRow(s, Run(s, actions, sha), id)
    decreases actions
  {
    hide Step, Unlisted;
    if actions != [] {
      assert actions[0] in actions;
      StepLeavesStranded(s, actions[0], sha, id);
      StrandedForever(Step(s, actions[0], sha), actions[1..], sha, id);
    }
  }

  /** So after a loss of Redis and a restart of all processes, no work that was in progress
      is ever finished by the system itself. */
  lemma LossStrandsWork(s: System, later: System, actions: seq<Action>, sha: Bytes -> Digest, id: JobId)
    requires later == s.(queue := Q.EMPTY, gateways := map[], workers := map[])
    requires id < |s.db.jobs| && s.db.jobs[id].state == PROCESSING && NeverQueues(actions, id)
    ensures var end := Run(later, actions, sha);
            id < |end.db.jobs| && end.db.jobs[id] == s.db.jobs[id]
  {
    StrandedForever(later, actions, sha, id);
  }
}
