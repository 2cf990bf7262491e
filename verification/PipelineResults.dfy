/** Which result a packet gets: the one its preserved bytes determine, whoever wrote it. */
module PipelineResults {
  import opened Outcomes
  import opened Wire
  import opened FrameCodec
  import opened JobLifecycle
  import opened Storage
  import opened StorageInvariant
  import opened Pipeline
  import opened PipelineInvariant
  import opened PipelineSafety
  import opened PipelineJobs
  import opened TransactionEffects
  import Ledger = SequenceLedger
  import Q = RedisQueue

  /** The result of the job's packet, if there is one, is made of the packet's values and
      the receipt time of its accepted delivery. */
  predicate ResultDetermined(db: Database, id: JobId)
    requires id < |db.jobs|
  {
    db.jobs[id].packet in db.results ==>
      && id < |db.packets| && db.packets[id].source < |db.receipts|
      && db.results[db.jobs[id].packet].result
         == ProcessingResult(db.packets[id].values, db.receipts[db.packets[id].source].receivedAt)
  }

  predicate ResultsDetermined(db: Database) {
    forall id :: 0 <= id < |db.jobs| ==> ResultDetermined(db, id)
  }

  lemma DeterminedForever(db: Database, later: Database, id: JobId)
    requires Extends(db, later) && id < |db.jobs| && ResultDetermined(db, id) && db.jobs[id].packet in db.results
    ensures ResultDetermined(later, id)
  {
    assert JobKept(db.jobs[id], later.jobs[id]);
    assert ReceiptKept(db.receipts[db.packets[id].source], later.receipts[db.packets[id].source]);
  }

  /** The action stores a result of job `id`. */
  predicate StoresResult(s: System, action: Action, id: JobId) {
    && action.Work? && action.step.Store?
    && action.worker in s.workers && s.workers[action.worker].Storing?
    && s.workers[action.worker].claim.work.job == id
  }

  /** A result that was not there before was stored by this very action. */
  lemma NewResult(s: System, action: Action, sha: Bytes -> Digest, key: PacketKey)
    requires JobsOk(s.db.jobs, s.db.packets) && ResultsOk(s.db.results, s.db.jobs)
    requires key in Step(s, action, sha).db.results && key !in s.db.results
    ensures action.Work? && action.worker in s.workers
    ensures var state := s.workers[action.worker];
            && state.Storing?
            && StoresResult(s, action, state.claim.work.job)
            && state.claim.work.job < |s.db.jobs|
            && key == s.db.jobs[state.claim.work.job].packet
            && Step(s, action, sha).db.results[key].result == state.result
  {
    hide RecordDelivery, RejectDelivery, AcceptStep, MarkStep, EnqueueStep, RecoveryStep, StartStep, JobsOk, ResultsOk;
    hide TakeStep, ClaimStep, SettleStep, ProcessStep, RecordFailureStep;
    if action.Work? && action.step.Store? && action.worker in s.workers && s.workers[action.worker].Storing? {
      var Storing(_, claim, result) := s.workers[action.worker];
      CompleteEffect(s.db, claim.work.job, result, action.worker, s.now);
    } else {
      OtherStepsKeepResults(s, action, sha);
    }
  }

  lemma OtherStepsKeepResults(s: System, action: Action, sha: Bytes -> Digest)
    requires !(action.Work? && action.step.Store? && action.worker in s.workers && s.workers[action.worker].Storing?)
    ensures Step(s, action, sha).db.results == s.db.results
  {
    match action
    case Accept(receipt, decodedAt, maxAttempts) => AcceptKeepsResults(s, receipt, decodedAt, maxAttempts);
    case Work(worker, step) =>
      if worker in s.workers {
        WorkKeepsResults(s, worker, step);
      }
    case _ =>
  }

  lemma AcceptKeepsResults(s: System, receipt: ReceiptId, decodedAt: int, maxAttempts: int)
    ensures AcceptStep(s, receipt, decodedAt, maxAttempts).db.results == s.db.results
  {
    hide Decode, Ledger.Place, FindPacket, FindJob, SequenceRowAfter, ExactDuplicate, StoredAcceptance;
  }

  lemma WorkKeepsResults(s: System, worker: WorkerId, step: WorkerStep)
    requires worker in s.workers && !(step.Store? && s.workers[worker].Storing?)
    ensures WorkStep(s, worker, step).db.results == s.db.results
  {
    hide Decode, Q.Claim, Q.Ack, Q.Retry, Q.DeadLetter, JobLifecycle.Claim, Claimable, FailAttempt, FindPacket;
  }

  lemma StepKeepsResults(s: System, action: Action, sha: Bytes -> Digest)
    requires SystemOk(s, sha) && ResultsDetermined(s.db)
    ensures ResultsDetermined(Step(s, action, sha).db)
  {
    hide DbOk, LiveOk, Step, Extends, ResultDetermined;
    var s' := Step(s, action, sha);
    StepKeeps(s, action, sha);
    SameJobPackets(s.db, s'.db);
    forall id | 0 <= id < |s'.db.jobs| ensures ResultDetermined(s'.db, id) {
      ResultAfter(s, action, sha, id);
    }
  }

  lemma SameJobPackets(db: Database, later: Database)
    requires Extends(db, later)
    ensures forall id :: 0 <= id < |db.jobs| ==> id < |later.jobs| && later.jobs[id].packet == db.jobs[id].packet
  {
    forall id | 0 <= id < |db.jobs| ensures id < |later.jobs| && later.jobs[id].packet == db.jobs[id].packet {
      assert JobKept(db.jobs[id], later.jobs[id]);
    }
  }

  lemma ResultAfter(s: System, action: Action, sha: Bytes -> Digest, id: JobId)
    requires SystemOk(s, sha) && ResultsDetermined(s.db) && id < |Step(s, action, sha).db.jobs|
    requires DbOk(Step(s, action, sha).db) && Extends(s.db, Step(s, action, sha).db)
    ensures ResultDetermined(Step(s, action, sha).db, id)
  {
    hide DbOk, LiveOk, Step, Extends, ResultDetermined, JobsOk, PacketsOk, ResultsOk;
    var s' := Step(s, action, sha);
    TablesOk(s.db);
    TablesOk(s'.db);
    StepFollows(s, action, sha);
    SameJobPackets(s.db, s'.db);
    var key := s'.db.jobs[id].packet;
    if key in s'.db.results {
      CompleteIsOld(s, action, s'.db, id);
      if key in s.db.results {
        assert ResultDetermined(s.db, id);
        DeterminedForever(s.db, s'.db, id);
      } else {
        NewResult(s, action, sha, key);
        StoredByWorker(s, action.worker, sha);
        SamePacketSameJob(s.db, id, s.workers[action.worker].claim.work.job);
        StoredIsDetermined(s, action, s'.db, id, sha);
      }
    } else {
      NoResult(s'.db, id);
    }
  }

  lemma NoResult(db: Database, id: JobId)
    requires id < |db.jobs| && db.jobs[id].packet !in db.results
    ensures ResultDetermined(db, id)
  {
  }

  /** A job with a result is complete, so it is not a new one. */
  lemma CompleteIsOld(s: System, action: Action, db': Database, id: JobId)
    requires ResultsOk(db'.results, db'.jobs) && id < |db'.jobs| && db'.jobs[id].packet in db'.results
    requires RowsFollow(s, action, db'.jobs)
    ensures id < |s.db.jobs|
  {
    hide EventOf;
    assert ResultOk(db'.results, db'.jobs[id], id);
  }

  lemma StoredByWorker(s: System, worker: WorkerId, sha: Bytes -> Digest)
    requires LiveOk(s, sha, None) && worker in s.workers && s.workers[worker].Storing?
    ensures var claim := s.workers[worker].claim;
            && WorkOf(s.db, claim.work.job, claim.work)
            && s.workers[worker].result == ProcessingResult(claim.work.values, claim.work.receivedAt)
  {
    hide LiveOk;
    PositionOf(s, worker, sha);
  }

  lemma SamePacketSameJob(db: Database, a: JobId, b: JobId)
    requires PacketsOk(db.packets, db.receipts) && JobsOk(db.jobs, db.packets) && a < |db.jobs| && b < |db.jobs|
    ensures db.jobs[a].packet == db.jobs[b].packet ==> a == b
  {
    assert db.packets[a].key == db.jobs[a].packet && db.packets[b].key == db.jobs[b].packet;
  }

  lemma StoredIsDetermined(s: System, action: Action, db': Database, id: JobId, sha: Bytes -> Digest)
    requires Extends(s.db, db') && StoresResult(s, action, id) && id < |s.db.jobs|
    requires var claim := s.workers[action.worker].claim;
             && WorkOf(s.db, claim.work.job, claim.work)
             && s.workers[action.worker].result == ProcessingResult(claim.work.values, claim.work.receivedAt)
    requires db'.jobs[id].packet in db'.results
    requires db'.results[db'.jobs[id].packet].result == s.workers[action.worker].result
    ensures ResultDetermined(db', id)
  {
    assert ReceiptKept(s.db.receipts[s.db.packets[id].source], db'.receipts[s.db.packets[id].source]);
  }

  lemma {:induction false} RunKeepsResults(s: System, actions: seq<Action>, sha: Bytes -> Digest)
    requires SystemOk(s, sha) && ResultsDetermined(s.db)
    ensures ResultsDetermined(Run(s, actions, sha).db)
    decreases actions
  {
    hide SystemOk, Step, ResultsDetermined;
    if actions != [] {
      StepKeeps(s, actions[0], sha);
      StepKeepsResults(s, actions[0], sha);
      RunKeepsResults(Step(s, actions[0], sha), actions[1..], sha);
    }
  }

  /** In every run every result is the one that the packet's own bytes and receipt time
      determine, whichever worker stored it and however often the work was taken over. */
  lemma ResultsAreDetermined(actions: seq<Action>, sha: Bytes -> Digest, id: JobId)
    requires id < |Run(START, actions, sha).db.jobs|
    ensures ResultDetermined(Run(START, actions, sha).db, id)
  {
    hide SystemOk, Step;
    StartOk(sha);
    RunKeepsResults(START, actions, sha);
  }

  /** So a worker that stores its result never meets a different one. */
  lemma NoResultConflict(actions: seq<Action>, sha: Bytes -> Digest, worker: WorkerId)
    requires var s := Run(START, actions, sha); worker in s.workers && s.workers[worker].Storing?
    ensures var s := Run(START, actions, sha);
            var Storing(_, claim, result) := s.workers[worker];
            CompleteJob(s.db, claim.work.job, result, worker, s.now).1 != Err(ResultConflict)
  {
    hide DbOk, LiveOk, Run;
    StartOk(sha);
    RunKeeps(START, actions, sha);
    var s := Run(START, actions, sha);
    StoredByWorker(s, worker, sha);
    ResultsAreDetermined(actions, sha, s.workers[worker].claim.work.job);
  }

  /** What became of a worker that stored its result. It succeeded exactly if it still owned
      the work or the work was complete by then. In the second case, say after another
      worker took the work over and finished it, the tables stayed as they were and the late
      worker goes on to acknowledge the message and to its next turn, not to a failure. */
  predicate StoreHandled(s: System, worker: WorkerId, s': System, settled: System)
    requires worker in s.workers && s.workers[worker].Storing?
  {
    var Storing(message, claim, _) := s.workers[worker];
    && claim.work.job < |s.db.jobs|
    && var job := s.db.jobs[claim.work.job];
       && s'.workers
          == s.workers[worker :=
               if job.state == COMPLETE || (job.state == PROCESSING && job.claimedBy == Some(worker)) then
                 Stored(message)
               else Failing(message, claim, true)]
       && (job.state == COMPLETE ==>
             && s' == s.(workers := s'.workers)
             && settled.db == s.db && settled.workers == s.workers[worker := Idle])
  }

  lemma StoreSteps(s: System, worker: WorkerId, sha: Bytes -> Digest)
    requires JobsOk(s.db.jobs, s.db.packets) && ResultsOk(s.db.results, s.db.jobs)
    requires worker in s.workers && s.workers[worker].Storing? && s.workers[worker].claim.work.job < |s.db.jobs|
    requires var Storing(_, claim, result) := s.workers[worker];
             var packet := s.db.jobs[claim.work.job].packet;
             packet in s.db.results ==> s.db.results[packet].result == result
    ensures var s' := Step(s, Work(worker, Store(true)), sha);
            StoreHandled(s, worker, s', Step(s', Work(worker, Settle(true)), sha))
  {
    hide JobsOk, ResultsOk, Q.Ack, CompleteJob;
    var Storing(message, claim, result) := s.workers[worker];
    CompleteOutcome(s.db, claim.work.job, result, worker, s.now);
    assert s.workers[worker := Stored(message)][worker := Idle] == s.workers[worker := Idle];
  }

  /** In every run a late result is acknowledged. */
  lemma LateResultIsAcknowledged(actions: seq<Action>, sha: Bytes -> Digest, worker: WorkerId)
    requires var s := Run(START, actions, sha); worker in s.workers && s.workers[worker].Storing?
    ensures var s := Run(START, actions, sha);
            var s' := Step(s, Work(worker, Store(true)), sha);
            StoreHandled(s, worker, s', Step(s', Work(worker, Settle(true)), sha))
  {
    hide DbOk, LiveOk, Run, Step, JobsOk, ResultsOk, PacketsOk, StoreHandled;
    StartOk(sha);
    RunKeeps(START, actions, sha);
    var s := Run(START, actions, sha);
    TablesOk(s.db);
    StoredByWorker(s, worker, sha);
    ResultsAreDetermined(actions, sha, s.workers[worker].claim.work.job);
    StoreSteps(s, worker, sha);
  }
}
