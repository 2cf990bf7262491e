/** Each run of the pipeline, seen from one job: a history of the job's own row. So
    what holds of every history of a row holds in every run. */
module PipelineJobs {
  import opened Outcomes
  import opened Wire
  import opened FrameCodec
  import opened JobLifecycle
  import opened Storage
  import opened StorageInvariant
  import opened Pipeline
  import opened PipelineInvariant
  import opened PipelineSafety

  /** The transaction of this action on the row of job `id`, if it is one. */
  function EventOf(s: System, action: Action, id: JobId): Option<JobEvent> {
    match action
    case Mark(gateway) =>
      if gateway in s.gateways && s.gateways[gateway].ToMark? && s.gateways[gateway].job == id then
        Some(MarkEvent(id))
      else None
    case Work(worker, step) => if worker in s.workers then WorkEventOf(s, worker, step, id) else None
    case _ => None
  }

  function WorkEventOf(s: System, worker: WorkerId, step: WorkerStep, id: JobId): Option<JobEvent>
    requires worker in s.workers
  {
    var state := s.workers[worker];
    if step.ClaimWork? && state.Received? && state.message.job == id then
      Some(ClaimEvent(worker, s.now, LEASE_SECONDS))
    else if step.Store? && state.Storing? && state.claim.work.job == id then Some(CompleteEvent(worker))
    else if step.RecordFailure? && state.Failing? && state.claim.work.job == id then
      Some(FailEvent(worker, state.temporary, s.now))
    else None
  }

  function Happen(job: Job, event: Option<JobEvent>): Job {
    if event.Some? then After(job, event.value, BASE_BACKOFF_SECONDS) else job
  }

  /** The history of job `id` in a run, from the moment the job exists. */
  function History(s: System, actions: seq<Action>, sha: Bytes -> Digest, id: JobId): seq<JobEvent>
    decreases actions
  {
    if actions == [] then []
    else
      var rest := History(Step(s, actions[0], sha), actions[1..], sha, id);
      if id < |s.db.jobs| && EventOf(s, actions[0], id).Some? then [EventOf(s, actions[0], id).value] + rest else rest
  }

  // ----- one action, one job -----

  /** Every job row goes the way of its event, and new rows are new jobs. */
  predicate RowsFollow(s: System, action: Action, jobs: seq<Job>) {
    && |s.db.jobs| <= |jobs|
    && (forall id :: 0 <= id < |s.db.jobs| ==> jobs[id] == Happen(s.db.jobs[id], EventOf(s, action, id)))
    && (forall id :: |s.db.jobs| <= id < |jobs| ==>
          jobs[id] == NewJob(jobs[id].packet, jobs[id].maxAttempts) && jobs[id].maxAttempts > 0)
  }

  lemma MarkFollows(s: System, gateway: GatewayId)
    requires gateway in s.gateways && s.gateways[gateway].ToMark? && s.gateways[gateway].job < |s.db.jobs|
    ensures RowsFollow(s, Mark(gateway), MarkStep(s, gateway).db.jobs)
  {
    var job := s.gateways[gateway].job;
    assert s.db.jobs == s.db.jobs[job := s.db.jobs[job]];
  }

  lemma ClaimFollows(s: System, worker: WorkerId, seen: bool)
    requires PacketsOk(s.db.packets, s.db.receipts) && JobsOk(s.db.jobs, s.db.packets)
    requires ResultsOk(s.db.results, s.db.jobs)
    requires worker in s.workers
    ensures RowsFollow(s, Work(worker, ClaimWork(seen)), ClaimStep(s, worker, seen).db.jobs)
  {
    hide PacketsOk, JobsOk, ResultsOk, WorkOf;
    if s.workers[worker].Received? {
      ClaimEffect(s.db, s.workers[worker].message.job, worker, s.now, LEASE_SECONDS);
    }
  }

  lemma StoreFollows(s: System, worker: WorkerId, seen: bool)
    requires JobsOk(s.db.jobs, s.db.packets) && ResultsOk(s.db.results, s.db.jobs) && worker in s.workers
    ensures RowsFollow(s, Work(worker, Store(seen)), StoreStep(s, worker, seen).db.jobs)
  {
    if s.workers[worker].Storing? {
      var Storing(_, claim, result) := s.workers[worker];
      OwnerStores(s.db, claim.work.job, result, worker, s.now);
    }
  }

  /** Of an existing job the owner, and only the owner, makes a complete one. */
  lemma OwnerStores(db: Database, id: JobId, result: ProcessingResult, worker: WorkerId, now: int)
    requires JobsOk(db.jobs, db.packets) && ResultsOk(db.results, db.jobs)
    ensures var jobs := CompleteJob(db, id, result, worker, now).0.jobs;
            && |jobs| == |db.jobs|
            && forall other :: 0 <= other < |jobs| ==>
                 jobs[other] == if other == id then After(db.jobs[id], CompleteEvent(worker), 1) else db.jobs[other]
  {
    if id < |db.jobs| {
      assert JobOk(db.jobs[id]) && ResultOk(db.results, db.jobs[id], id);
    }
  }

  lemma RecordFailureFollows(s: System, worker: WorkerId, seen: bool)
    requires worker in s.workers
    ensures RowsFollow(s, Work(worker, RecordFailure(seen)), RecordFailureStep(s, worker, seen).db.jobs)
  {
    if s.workers[worker].Failing? {
      var id := s.workers[worker].claim.work.job;
      assert id < |s.db.jobs| ==> s.db.jobs == s.db.jobs[id := s.db.jobs[id]];
    }
  }

  lemma AcceptFollows(s: System, receipt: ReceiptId, decodedAt: int, maxAttempts: int)
    requires SequencesOk(s.db.packets, s.db.sequences)
    ensures var s' := AcceptStep(s, receipt, decodedAt, maxAttempts);
            RowsFollow(s, Accept(receipt, decodedAt, maxAttempts), s'.db.jobs)
  {
    var s' := AcceptStep(s, receipt, decodedAt, maxAttempts);
    if s'.db.jobs != s.db.jobs {
      AcceptedJobs(s.db, receipt, Decode(s.db.receipts[receipt].rawBody, decodedAt).value, maxAttempts);
    }
  }

  lemma AcceptedJobs(db: Database, id: ReceiptId, values: TelemetryFrame, maxAttempts: int)
    requires SequencesOk(db.packets, db.sequences)
    ensures var jobs := AcceptPacket(db, id, values, maxAttempts).0.jobs;
            jobs == db.jobs || (jobs == db.jobs + [NewJob(KeyOf(values), maxAttempts)] && maxAttempts > 0)
  {
    if Decides(db, id, values, maxAttempts) {
      var at := FindPacket(db.packets, KeyOf(values));
      if at.Some? {
        StoredKeyShape(db, id, db.packets[at.value]);
      } else {
        var entry := NewKeyShape(db, id, values, maxAttempts);
      }
    }
  }

  lemma StepFollows(s: System, action: Action, sha: Bytes -> Digest)
    requires SystemOk(s, sha)
    ensures RowsFollow(s, action, Step(s, action, sha).db.jobs)
  {
    hide LiveOk, PacketsOk, JobsOk, ResultsOk, SequencesOk, WorkStep;
    match action
    case Mark(gateway) =>
      if gateway in s.gateways && s.gateways[gateway].ToMark? {
        GatewayPosition(s, gateway, sha);
        MarkFollows(s, gateway);
      }
    case Accept(receipt, decodedAt, maxAttempts) => AcceptFollows(s, receipt, decodedAt, maxAttempts);
    case BeginRecovery(gateway, limit) => RecoveryKeeps(s, gateway, limit, sha);
    case Enqueue(gateway) => EnqueueKeeps(s, gateway, sha);
    case WorkerStarts(worker) => StartKeeps(s, worker, sha);
    case Work(worker, step) =>
      if worker in s.workers {
        WorkFollows(s, worker, step, sha);
      }
    case _ =>
  }

  lemma GatewayPosition(s: System, gateway: GatewayId, sha: Bytes -> Digest)
    requires LiveOk(s, sha, None) && gateway in s.gateways
    ensures GatewayOk(s.db.jobs, s.queue, s.gateways[gateway])
  {
  }

  lemma WorkFollows(s: System, worker: WorkerId, step: WorkerStep, sha: Bytes -> Digest)
    requires LiveOk(s, sha, None) && worker in s.workers
    requires PacketsOk(s.db.packets, s.db.receipts) && JobsOk(s.db.jobs, s.db.packets)
    requires ResultsOk(s.db.results, s.db.jobs)
    ensures RowsFollow(s, Work(worker, step), WorkStep(s, worker, step).db.jobs)
  {
    hide LiveOk, PacketsOk, JobsOk, ResultsOk;
    match step
    case ClaimWork(seen) => ClaimFollows(s, worker, seen);
    case Store(seen) => StoreFollows(s, worker, seen);
    case RecordFailure(seen) => RecordFailureFollows(s, worker, seen);
    case Take(seen) => TakeKeeps(s, worker, seen, sha);
    case LookAgain => LookKeeps(s, worker, sha);
    case Settle(seen) => SettleKeeps(s, worker, seen, sha);
    case ErrorBeforeWork => LocalStepKeeps(s, worker, step, sha);
    case Process => LocalStepKeeps(s, worker, step, sha);
    case ErrorInWork => LocalStepKeeps(s, worker, step, sha);
    case FailureUnrecorded => LocalStepKeeps(s, worker, step, sha);
  }

  // ----- whole runs -----

  /** The row a run starts from: the one there is, or the new one it will get. */
  predicate Origin(s: System, id: JobId, origin: Job) {
    if id < |s.db.jobs| then origin == s.db.jobs[id]
    else origin == NewJob(origin.packet, origin.maxAttempts) && origin.maxAttempts > 0
  }

  lemma {:induction false} RunIsHistory(
    s: System, actions: seq<Action>, sha: Bytes -> Digest, id: JobId) returns (origin: Job)
    requires SystemOk(s, sha) && id < |Run(s, actions, sha).db.jobs|
    ensures Origin(s, id, origin)
    ensures Run(s, actions, sha).db.jobs[id] == Replay(origin, History(s, actions, sha, id), BASE_BACKOFF_SECONDS)
    decreases actions
  {
    hide SystemOk, Step, EventOf, After;
    if actions == [] {
      origin := s.db.jobs[id];
    } else {
      var s' := Step(s, actions[0], sha);
      StepKeeps(s, actions[0], sha);
      StepFollows(s, actions[0], sha);
      origin := RunIsHistory(s', actions[1..], sha, id);
      if id < |s.db.jobs| {
        origin := s.db.jobs[id];
        ReplayPrepends(s, actions, sha, id);
      }
    }
  }

  lemma ReplayPrepends(s: System, actions: seq<Action>, sha: Bytes -> Digest, id: JobId)
    requires actions != [] && id < |s.db.jobs|
    ensures var rest := History(Step(s, actions[0], sha), actions[1..], sha, id);
            Replay(s.db.jobs[id], History(s, actions, sha, id), BASE_BACKOFF_SECONDS) ==
            Replay(Happen(s.db.jobs[id], EventOf(s, actions[0], id)), rest, BASE_BACKOFF_SECONDS)
  {
    var rest := History(Step(s, actions[0], sha), actions[1..], sha, id);
    if EventOf(s, actions[0], id).Some? {
      assert History(s, actions, sha, id)[1..] == rest;
    }
  }

  /** Every row a run can produce comes from a new row by the history of the job. */
  lemma JobHistory(actions: seq<Action>, sha: Bytes -> Digest, id: JobId)
    requires id < |Run(START, actions, sha).db.jobs|
    ensures var job := Run(START, actions, sha).db.jobs[id];
            && job.maxAttempts > 0
            && var start := NewJob(job.packet, job.maxAttempts);
               job == Replay(start, History(START, actions, sha, id), BASE_BACKOFF_SECONDS)
  {
    hide SystemOk, Run, History;
    StartOk(sha);
    var origin := RunIsHistory(START, actions, sha, id);
    ReplayKeepsIdentity(origin, History(START, actions, sha, id));
  }

  lemma {:induction false} ReplayKeepsIdentity(job: Job, events: seq<JobEvent>)
    ensures var end := Replay(job, events, BASE_BACKOFF_SECONDS);
            end.packet == job.packet && end.maxAttempts == job.maxAttempts
    decreases events
  {
    if events != [] {
      ReplayKeepsIdentity(After(job, events[0], BASE_BACKOFF_SECONDS), events[1..]);
    }
  }

  /** In every run: attempts are fresh claims, at most max_attempts of them, plus
      takeovers; and waiting work always has an attempt left. */
  lemma AttemptsInRuns(actions: seq<Action>, sha: Bytes -> Digest, id: JobId)
    requires id < |Run(START, actions, sha).db.jobs|
    ensures var job := Run(START, actions, sha).db.jobs[id];
            var start, events := NewJob(job.packet, job.maxAttempts), History(START, actions, sha, id);
            && job.attemptCount == FreshClaims(start, events, BASE_BACKOFF_SECONDS)
                                   + Takeovers(start, events, BASE_BACKOFF_SECONDS)
            && FreshClaims(start, events, BASE_BACKOFF_SECONDS) <= job.maxAttempts
            && (job.state in {PENDING_QUEUE, QUEUED, RETRY_WAIT} ==> job.attemptCount < job.maxAttempts)
            && (job.attemptCount > job.maxAttempts ==> Takeovers(start, events, BASE_BACKOFF_SECONDS) > 0)
  {
    hide Run, History;
    JobHistory(actions, sha, id);
    var job := Run(START, actions, sha).db.jobs[id];
    AttemptAccounting(NewJob(job.packet, job.maxAttempts), History(START, actions, sha, id), BASE_BACKOFF_SECONDS);
  }

  /** In every run, read off the rows themselves: the delays of one job never decrease, the
      n-th is at least 2^(n-1) seconds, capped at five minutes, and exactly that without
      takeovers, and their total stays within both bounds. */
  lemma DelaysInRuns(actions: seq<Action>, sha: Bytes -> Digest, id: JobId)
    requires id < |Run(START, actions, sha).db.jobs|
    ensures var job := Run(START, actions, sha).db.jobs[id];
            var start, events := NewJob(job.packet, job.maxAttempts), History(START, actions, sha, id);
            var delays := Delays(start, events, BASE_BACKOFF_SECONDS);
            && job.maxAttempts > 0
            && (forall i, j :: 0 <= i < j < |delays| ==> delays[i] <= delays[j])
            && (forall i :: 0 <= i < |delays| ==>
                  var capped := 1_000_000 * if Power2(i) <= 300 then Power2(i) else 300;
                  && delays[i] >= capped
                  && (Takeovers(start, events, BASE_BACKOFF_SECONDS) == 0 ==> delays[i] == capped))
            && Sum(delays) <= 1_000_000 * (Power2(job.maxAttempts - 1) - 1)
            && Sum(delays) <= 300_000_000 * (job.maxAttempts - 1)
  {
    hide Run, History, Delays, Takeovers, Sum;
    JobHistory(actions, sha, id);
    var job := Run(START, actions, sha).db.jobs[id];
    BackoffBound(job.packet, job.maxAttempts, History(START, actions, sha, id), BASE_BACKOFF_SECONDS);
  }

  /** In every run: the row of a job changes at most 4 * max_attempts + 2 times, and once
      more for each takeover, so it cannot be retried forever. */
  lemma ChangesInRuns(actions: seq<Action>, sha: Bytes -> Digest, id: JobId)
    requires id < |Run(START, actions, sha).db.jobs|
    ensures var job := Run(START, actions, sha).db.jobs[id];
            var start, events := NewJob(job.packet, job.maxAttempts), History(START, actions, sha, id);
            Changes(start, events, BASE_BACKOFF_SECONDS)
            <= 4 * job.maxAttempts + 2 + Takeovers(start, events, BASE_BACKOFF_SECONDS)
  {
    hide Run, History;
    JobHistory(actions, sha, id);
    var job := Run(START, actions, sha).db.jobs[id];
    FewChanges(NewJob(job.packet, job.maxAttempts), History(START, actions, sha, id), BASE_BACKOFF_SECONDS);
  }
}
