/** What every run guarantees: the promises of the design, read off the invariant. */
module PipelineTheorems {
  import opened Outcomes
  import opened Wire
  import opened JobLifecycle
  import opened Storage
  import opened StorageInvariant
  import opened Pipeline
  import opened PipelineInvariant
  import opened PipelineSafety
  import Q = RedisQueue

  lemma Reachable(actions: seq<Action>, sha: Bytes -> Digest)
    ensures SystemOk(Run(START, actions, sha), sha)
  {
    hide DbOk, LiveOk;
    StartOk(sha);
    RunKeeps(START, actions, sha);
  }

  // ----- no lost work -----

  /** The reference of a job, exactly once in the lists that workers take from or hold. */
  predicate InHand(q: Q.QueueState, entry: Q.Entry) {
    multiset(q.pending)[entry] + multiset(q.processing)[entry] == 1
  }

  lemma NoLostWork(actions: seq<Action>, sha: Bytes -> Digest, id: JobId)
    requires id < |Run(START, actions, sha).db.jobs|
    ensures var s := Run(START, actions, sha);
            var entry, state := Reference(s.db.jobs, id), s.db.jobs[id].state;
            && (state in {QUEUED, PROCESSING, RETRY_WAIT} ==>
                  InHand(s.queue, entry) && Q.Marked(s.queue, entry.message))
            && (entry in s.queue.failed ==> state == FAILED)
            && (state == FAILED ==> Q.Listed(s.queue)[entry] == 1)
            && (id !in s.queue.markers ==> state in {PENDING_QUEUE, COMPLETE} && Q.Listed(s.queue)[entry] == 0)
  {
    Reachable(actions, sha);
    WorkIsListed(Run(START, actions, sha).db.jobs, Run(START, actions, sha).queue, id);
  }

  lemma WorkIsListed(jobs: seq<Job>, q: Q.QueueState, id: JobId)
    requires QueueOk(jobs, q) && id < |jobs|
    ensures var entry, state := Reference(jobs, id), jobs[id].state;
            && (state in {QUEUED, PROCESSING, RETRY_WAIT} ==> InHand(q, entry) && Q.Marked(q, entry.message))
            && (entry in q.failed ==> state == FAILED)
            && (state == FAILED ==> Q.Listed(q)[entry] == 1)
            && (id !in q.markers ==> state in {PENDING_QUEUE, COMPLETE} && Q.Listed(q)[entry] == 0)
  {
    var entry := Reference(jobs, id);
    assert MarkerOk(jobs, q, id) && JobInQueueOk(jobs, q, id);
    assert Q.Listed(q)[entry] == if Q.Marked(q, entry.message) then 1 else 0;
    assert entry in q.failed <==> multiset(q.failed)[entry] > 0;
  }

  // ----- exactly one result -----

  /** Between any two points of any run: a job is complete exactly if its packet has a
      result, a result stays as it was written, and what is finished stays finished. */
  lemma ExactlyOnceResult(earlier: seq<Action>, later: seq<Action>, sha: Bytes -> Digest, id: JobId)
    requires id < |Run(START, earlier, sha).db.jobs|
    ensures var before := Run(START, earlier, sha).db;
            var after := Run(Run(START, earlier, sha), later, sha).db;
            && id < |after.jobs|
            && after.jobs[id].packet == before.jobs[id].packet
            && (after.jobs[id].state == COMPLETE <==> after.jobs[id].packet in after.results)
            && (before.jobs[id].packet in before.results ==>
                  after.jobs[id].packet in after.results
                  && after.results[after.jobs[id].packet] == before.results[before.jobs[id].packet])
            && (Terminal(before.jobs[id]) ==> after.jobs[id] == before.jobs[id])
            && (before.jobs[id].state == FAILED ==> after.jobs[id].packet !in after.results)
  {
    hide LiveOk;
    var s := Run(START, earlier, sha);
    Reachable(earlier, sha);
    RunKeeps(s, later, sha);
    var after := Run(s, later, sha).db;
    assert JobKept(s.db.jobs[id], after.jobs[id]);
    assert ResultOk(after.results, after.jobs[id], id);
  }

  // ----- leases -----

  predicate Holds(s: System, worker: WorkerId, id: JobId) {
    && worker in s.workers
    && (s.workers[worker].Working? || s.workers[worker].Storing? || s.workers[worker].Failing?)
    && s.workers[worker].message.job == id
  }

  function ClaimOf(s: System, worker: WorkerId): ClaimView
    requires worker in s.workers
    requires s.workers[worker].Working? || s.workers[worker].Storing? || s.workers[worker].Failing?
  {
    s.workers[worker].claim
  }

  /** No two workers work on one job while both believe their leases good. */
  lemma LeaseExclusivity(actions: seq<Action>, sha: Bytes -> Digest, id: JobId, a: WorkerId, b: WorkerId)
    requires var s := Run(START, actions, sha);
             && Holds(s, a, id) && Holds(s, b, id)
             && ClaimOf(s, a).expiresAt > s.now && ClaimOf(s, b).expiresAt > s.now
    ensures a == b
  {
    hide DbOk, LiveOk, WorkOf;
    var s := Run(START, actions, sha);
    Reachable(actions, sha);
    PositionOf(s, a, sha);
    PositionOf(s, b, sha);
  }

  /** The job went on to another attempt than the one this worker claimed. */
  predicate TakenOver(s: System, worker: WorkerId, id: JobId) {
    && Holds(s, worker, id)
    && id < |s.db.jobs|
    && s.db.jobs[id].attemptCount != ClaimOf(s, worker).work.attemptCount
  }

  /** A worker that lost its claim writes nothing more, whatever it does next. */
  lemma TakenOverWritesNothing(
    actions: seq<Action>, sha: Bytes -> Digest, id: JobId, worker: WorkerId, step: WorkerStep)
    requires TakenOver(Run(START, actions, sha), worker, id)
    ensures var s := Run(START, actions, sha);
            WorkStep(s, worker, step).db == s.db
  {
    hide DbOk, LiveOk, WorkStep;
    var s := Run(START, actions, sha);
    Reachable(actions, sha);
    PositionOf(s, worker, sha);
    TablesOk(s.db);
    NotOwnerWritesNothing(s, worker, step);
  }

  lemma NotOwnerWritesNothing(s: System, worker: WorkerId, step: WorkerStep)
    requires JobsOk(s.db.jobs, s.db.packets) && ResultsOk(s.db.results, s.db.jobs)
    requires worker in s.workers
    requires s.workers[worker].Working? || s.workers[worker].Storing? || s.workers[worker].Failing?
    requires var id := s.workers[worker].claim.work.job;
             id < |s.db.jobs| && s.db.jobs[id].claimedBy != Some(worker)
    ensures WorkStep(s, worker, step).db == s.db
  {
    var id := s.workers[worker].claim.work.job;
    match step
    case Store(_) =>
      if s.workers[worker].Storing? {
        CompleteEffect(s.db, id, s.workers[worker].result, worker, s.now);
      }
    case RecordFailure(_) =>
      if s.workers[worker].Failing? {
        FailEffect(s.db, id, worker, s.workers[worker].temporary, BASE_BACKOFF_SECONDS, s.now);
      }
    case _ =>
  }

  /** And it stays without claim: an attempt that was overtaken never comes back. */
  lemma TakenOverStaysSo(
    earlier: seq<Action>, later: seq<Action>, sha: Bytes -> Digest, id: JobId, worker: WorkerId)
    requires TakenOver(Run(START, earlier, sha), worker, id)
    requires var s, s' := Run(START, earlier, sha), Run(Run(START, earlier, sha), later, sha);
             Holds(s', worker, id) && ClaimOf(s', worker).work.attemptCount == ClaimOf(s, worker).work.attemptCount
    ensures TakenOver(Run(Run(START, earlier, sha), later, sha), worker, id)
  {
    hide DbOk, LiveOk;
    var s := Run(START, earlier, sha);
    Reachable(earlier, sha);
    PositionOf(s, worker, sha);
    RunKeeps(s, later, sha);
    assert JobKept(s.db.jobs[id], Run(s, later, sha).db.jobs[id]);
  }
}
