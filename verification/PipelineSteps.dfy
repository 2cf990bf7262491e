/** What a worker's own steps do in every run: what it gets, what it writes, and what becomes
    of its message. */
module PipelineSteps {
  import opened Outcomes
  import opened Wire
  import opened JobLifecycle
  import opened Storage
  import opened StorageInvariant
  import opened TransactionEffects
  import opened Pipeline
  import opened PipelineInvariant
  import opened PipelineTheorems
  import Q = RedisQueue

  lemma PositionInRuns(actions: seq<Action>, sha: Bytes -> Digest, worker: WorkerId)
    requires worker in Run(START, actions, sha).workers
    ensures var s := Run(START, actions, sha);
            && WorkerOk(s.db, s.now, worker, s.workers[worker])
            && PacketsOk(s.db.packets, s.db.receipts) && JobsOk(s.db.jobs, s.db.packets)
            && ResultsOk(s.db.results, s.db.jobs)
  {
    hide DbOk, LiveOk, Run, WorkerOk, PacketsOk, JobsOk, ResultsOk;
    Reachable(actions, sha);
    PositionOf(Run(START, actions, sha), worker, sha);
    TablesOk(Run(START, actions, sha).db);
  }

  /** A worker that holds a message gets its job if that is queued, has a retry due, or has
      lost its lease, and then for one minute; it works on the packet's original receipt. */
  lemma ClaimInRuns(actions: seq<Action>, sha: Bytes -> Digest, worker: WorkerId)
    requires var s := Run(START, actions, sha); worker in s.workers && s.workers[worker].Received?
    ensures var s := Run(START, actions, sha);
            var message := s.workers[worker].message;
            var s', id := Step(s, Work(worker, ClaimWork(true)), sha), message.job;
            && id < |s.db.jobs|
            && worker in s'.workers
            && var job := s.db.jobs[id];
               if || job.state == JobState.QUEUED
                  || (job.state == PROCESSING && job.leaseExpiresAt.Some? && job.leaseExpiresAt.value <= s.now)
                  || (job.state == RETRY_WAIT && job.nextAttemptAt.Some? && job.nextAttemptAt.value <= s.now)
               then
                 && s'.db == s.db.(jobs := s.db.jobs[id := job.(
                                     state := PROCESSING, attemptCount := job.attemptCount + 1,
                                     claimedBy := Some(worker), leaseExpiresAt := Some(s.now + 60_000_000),
                                     nextAttemptAt := None)])
                 && s'.workers[worker].Working? && s'.workers[worker].message == message
                 && s'.workers[worker].claim.expiresAt == s.now + 60_000_000
                 && WorkOf(s.db, id, s'.workers[worker].claim.work)
               else s' == SetWorker(s, worker, Unclaimed(message))
  {
    hide Run, PacketsOk, JobsOk, ResultsOk, ClaimJob, JobOk;
    PositionInRuns(actions, sha, worker);
    var s := Run(START, actions, sha);
    var id := s.workers[worker].message.job;
    ClaimOutcome(s.db, id, worker, s.now, LEASE_SECONDS);
    PacketOfJob(s.db, id);
  }

  lemma PacketOfJob(db: Database, id: JobId)
    requires JobsOk(db.jobs, db.packets) && id < |db.jobs|
    ensures id < |db.packets| && db.packets[id].key == db.jobs[id].packet
  {
  }

  /** What one failure report makes of a job: due again after 1, 2, 4, ... seconds, at most
      five minutes, if it was temporary and attempts are left; and otherwise failed. */
  function Reported(job: Job, temporary: bool, now: int): Job {
    var power := Power2(if job.attemptCount >= 1 then job.attemptCount - 1 else 0);
    if temporary && job.attemptCount < job.maxAttempts then
      job.(state := RETRY_WAIT, leaseExpiresAt := None,
           nextAttemptAt := Some(now + 1_000_000 * if power <= 300 then power else 300))
    else job.(state := FAILED, leaseExpiresAt := None)
  }

  lemma ReportStep(s: System, worker: WorkerId, sha: Bytes -> Digest)
    requires JobsOk(s.db.jobs, s.db.packets) && worker in s.workers && s.workers[worker].Failing?
    requires s.workers[worker].claim.work.job < |s.db.jobs|
    ensures var Failing(message, claim, temporary) := s.workers[worker];
            var id := claim.work.job;
            var job := s.db.jobs[id];
            Step(s, Work(worker, RecordFailure(true)), sha) ==
            if job.state == PROCESSING && job.claimedBy == Some(worker) then
              var later := Reported(job, temporary, s.now);
              SetWorker(
                s.(db := s.db.(jobs := s.db.jobs[id := later])), worker,
                if later.state == FAILED then Discard(message) else Return(message))
            else if job.state == FAILED then SetWorker(s, worker, Discard(message))
            else RemoveWorker(s, worker)
  {
    hide JobsOk, FailJob, Backoff;
    var Failing(message, claim, temporary) := s.workers[worker];
    FailOutcome(s.db, claim.work.job, worker, temporary, BASE_BACKOFF_SECONDS, s.now);
    OneSecondBase(s.db.jobs[claim.work.job].attemptCount);
  }

  lemma OneSecondBase(attempt: int)
    ensures Backoff(1, attempt) ==
            var power := Power2(if attempt >= 1 then attempt - 1 else 0);
            if power <= 300 then power else 300
  {
  }

  lemma ReturnStep(s: System, worker: WorkerId, message: Q.QueueMessage, sha: Bytes -> Digest)
    requires worker in s.workers && s.workers[worker] == Return(message)
    ensures var s' := Step(s, Work(worker, Settle(true)), sha);
            if Q.Reference(message) in s.queue.processing then
              && s' == SetWorker(s.(queue := s'.queue), worker, Idle)
              && s'.queue.markers == s.queue.markers && s'.queue.failed == s.queue.failed
              && s'.queue.pending == [Q.Reference(message)] + s.queue.pending
            else s' == RemoveWorker(s, worker)
  {
    Q.SettleOutcome(s.queue, message);
  }

  lemma DiscardStep(s: System, worker: WorkerId, message: Q.QueueMessage, sha: Bytes -> Digest)
    requires worker in s.workers && s.workers[worker] == Discard(message)
    ensures var s' := Step(s, Work(worker, Settle(true)), sha);
            if Q.Reference(message) in s.queue.processing then
              && s' == SetWorker(s.(queue := s'.queue), worker, Idle)
              && s'.queue.markers == s.queue.markers && s'.queue.pending == s.queue.pending
              && s'.queue.failed == [Q.Reference(message)] + s.queue.failed
            else s' == RemoveWorker(s, worker)
  {
    Q.SettleOutcome(s.queue, message);
  }

  /** What became of a job and its message after its worker reported a failed attempt. If the
      work was still its own, the row is due again or failed, and the message went behind
      all waiting work or to the failed list. If the message was no longer in the processing
      list, or the work no longer its own, the process ended and the message stayed where it
      was. */
  predicate FailureHandled(s: System, worker: WorkerId, s': System)
    requires worker in s.workers && s.workers[worker].Failing? && s.workers[worker].message.job < |s.db.jobs|
  {
    var Failing(message, _, temporary) := s.workers[worker];
    var job := s.db.jobs[message.job];
    if job.state == PROCESSING && job.claimedBy == Some(worker) then
      var later := Reported(job, temporary, s.now);
      && s'.db == s.db.(jobs := s.db.jobs[message.job := later])
      && if Q.Reference(message) in s.queue.processing then
           && s'.workers == s.workers[worker := Idle]
           && s'.queue.markers == s.queue.markers
           && if later.state == RETRY_WAIT then
                && s'.queue.pending == [Q.Reference(message)] + s.queue.pending
                && s'.queue.failed == s.queue.failed
              else
                && s'.queue.pending == s.queue.pending
                && s'.queue.failed == [Q.Reference(message)] + s.queue.failed
         else s'.queue == s.queue && s'.workers == s.workers - {worker}
    else if job.state == FAILED then s'.db == s.db
    else s' == RemoveWorker(s, worker)
  }

  lemma FailureSteps(s: System, worker: WorkerId, sha: Bytes -> Digest)
    requires JobsOk(s.db.jobs, s.db.packets) && worker in s.workers && s.workers[worker].Failing?
    requires s.workers[worker].message.job == s.workers[worker].claim.work.job < |s.db.jobs|
    ensures var reported := Step(s, Work(worker, RecordFailure(true)), sha);
            FailureHandled(s, worker, Step(reported, Work(worker, Settle(true)), sha))
  {
    hide JobsOk, WorkStep, Power2;
    var Failing(message, claim, temporary) := s.workers[worker];
    ReportStep(s, worker, sha);
    var reported := Step(s, Work(worker, RecordFailure(true)), sha);
    if worker in reported.workers {
      if reported.workers[worker] == Return(message) {
        ReturnStep(reported, worker, message, sha);
      } else {
        DiscardStep(reported, worker, message, sha);
      }
      assert reported.workers[worker := Idle] == s.workers[worker := Idle];
      assert reported.workers - {worker} == s.workers - {worker};
    }
  }

  /** In every run a reported failure is handled that way. */
  lemma FailureInRuns(actions: seq<Action>, sha: Bytes -> Digest, worker: WorkerId)
    requires var s := Run(START, actions, sha); worker in s.workers && s.workers[worker].Failing?
    ensures var s := Run(START, actions, sha);
            && s.workers[worker].message.job < |s.db.jobs|
            && var reported := Step(s, Work(worker, RecordFailure(true)), sha);
               FailureHandled(s, worker, Step(reported, Work(worker, Settle(true)), sha))
  {
    hide Run, Step, PacketsOk, JobsOk, ResultsOk, FailureHandled;
    PositionInRuns(actions, sha, worker);
    FailureSteps(Run(START, actions, sha), worker, sha);
  }

  predicate BeforeWork(state: Worker) {
    state.Received? || state.Unclaimed? || state.AckUnclaimed? || state.DiscardUnclaimed? || state.ReturnUnclaimed?
  }

  /** An error before any work is known puts the message back behind all waiting work, if it
      is still in the processing list; the tables stay as they are and the worker goes on. */
  lemma ErrorBeforeWorkReturns(s: System, worker: WorkerId, sha: Bytes -> Digest)
    requires worker in s.workers && BeforeWork(s.workers[worker])
    ensures var message := s.workers[worker].message;
            var s' := Step(Step(s, Work(worker, ErrorBeforeWork), sha), Work(worker, Settle(true)), sha);
            && s' == s.(queue := s'.queue, workers := s.workers[worker := Idle])
            && s'.queue == s.queue.(pending := s'.queue.pending, processing := s'.queue.processing)
            && s'.queue.pending
               == (if Q.Reference(message) in s.queue.processing then [Q.Reference(message)] else []) + s.queue.pending
  {
    hide Q.Retry;
    var message := s.workers[worker].message;
    Q.SettleOutcome(s.queue, message);
    assert s.workers[worker := Rescue(message)][worker := Idle] == s.workers[worker := Idle];
    assert [] + s.queue.pending == s.queue.pending;
  }

  /** A message that could not be claimed and whose script finds it is dealt with; one that is
      not found, or whose answer is lost, is treated as after an error. */
  lemma UnclaimedSettles(s: System, worker: WorkerId, seen: bool, sha: Bytes -> Digest)
    requires worker in s.workers
    requires var state := s.workers[worker];
             state.AckUnclaimed? || state.DiscardUnclaimed? || state.ReturnUnclaimed?
    ensures var message := s.workers[worker].message;
            var s' := Step(s, Work(worker, Settle(seen)), sha);
            && s'.db == s.db
            && s'.workers == s.workers[worker :=
                               if seen && Q.Reference(message) in s.queue.processing then Idle else Rescue(message)]
            && (Q.Reference(message) !in s.queue.processing ==> s'.queue == s.queue)
  {
    Q.SettleOutcome(s.queue, s.workers[worker].message);
  }

  /** An error at work, as a lost answer of the transaction that stores the result, is
      reported as a temporary failure; a report that is lost or impossible leaves the
      message in the processing list and the worker goes on. */
  lemma ErrorInWorkIsReported(s: System, worker: WorkerId, sha: Bytes -> Digest)
    requires worker in s.workers
    ensures var state := s.workers[worker];
            && (state.Working? || state.Storing? ==>
                  Step(s, Work(worker, ErrorInWork), sha)
                  == SetWorker(s, worker, Failing(state.message, state.claim, true)))
            && (state.Storing? ==>
                  Step(s, Work(worker, Store(false)), sha).workers
                  == s.workers[worker := Failing(state.message, state.claim, true)])
            && (state.Failing? ==>
                  && Step(s, Work(worker, FailureUnrecorded), sha) == SetWorker(s, worker, Idle)
                  && var s' := Step(s, Work(worker, RecordFailure(false)), sha);
                     s'.workers == s.workers[worker := Idle] && s'.queue == s.queue)
  {
    hide CompleteJob, FailJob;
  }

  /** A lost answer changes nothing in what was done: both stores are as if it had come. */
  lemma LostAnswerIsDone(s: System, worker: WorkerId, sha: Bytes -> Digest)
    ensures forall step ::
              step in {Take(false), ClaimWork(false), Settle(false), Store(false), RecordFailure(false)} ==>
              var lost, seen := Step(s, Work(worker, step), sha), Step(s, Work(worker, step.(seen := true)), sha);
              lost.db == seen.db && lost.queue == seen.queue
  {
    hide ClaimJob, CompleteJob, FailJob, Q.Claim, Q.Ack, Q.Retry, Q.DeadLetter;
  }
}
