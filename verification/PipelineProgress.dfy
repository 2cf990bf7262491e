/** No reachable state is a dead end for any job: if the clock moves on and one new worker
    takes its turns undisturbed, every unfinished job is finished. */
module PipelineProgress {
  import opened Wire
  import opened JobLifecycle
  import opened Storage
  import opened StorageInvariant
  import opened Pipeline
  import opened PipelineInvariant
  import opened PipelineSafety
  import opened PipelineTheorems
  import opened GatewayRuns
  import opened WorkerRuns
  import GatewayFlow
  import Recovery = GatewayRecovery
  import Flow = WorkerFlow

  /** When the lease or the backoff of a waiting job is over. */
  function Due(job: Job, now: int): int {
    if job.state == PROCESSING && job.leaseExpiresAt.Some? then job.leaseExpiresAt.value
    else if job.state == RETRY_WAIT && job.nextAttemptAt.Some? then job.nextAttemptAt.value
    else now
  }

  lemma DueIsClaimable(jobs: seq<Job>, packets: seq<Packet>, id: JobId, now: int, at: int)
    requires JobsOk(jobs, packets) && id < |jobs| && jobs[id].state in {QUEUED, PROCESSING, RETRY_WAIT}
    requires now <= at && Due(jobs[id], now) <= at
    ensures Claimable(jobs[id], at)
  {
    assert JobOk(jobs[id]);
  }

  lemma {:induction false} Above(used: set<nat>) returns (free: nat)
    ensures forall number :: number in used ==> number < free
    decreases |used|
  {
    free := 0;
    if used != {} {
      var some :| some in used;
      var below := Above(used - {some});
      free := if some < below then below else some + 1;
      forall number | number in used ensures number < free {
        assert number == some || number in used - {some};
      }
    }
  }

  /** Clocks that stand still at one moment. */
  function Still(at: int, n: nat): (clocks: seq<Flow.Clock>)
    ensures |clocks| == n
    ensures Flow.Starting(clocks, at)
    ensures AllInOrder(at, clocks)
  {
    if n == 0 then [] else [Flow.Clock(at, at, at)] + Still(at, n - 1)
  }

  lemma StoresAreSound(s: System, sha: Bytes -> Digest)
    requires SystemOk(s, sha)
    ensures Flow.Sound(StoresOf(s)) && QueueOk(s.db.jobs, s.queue)
  {
  }

  /** A new worker returns the stranded work, so the job's message waits in pending. */
  lemma NewWorkerFindsMessage(s: System, worker: WorkerId, sha: Bytes -> Digest, id: JobId) returns (i: nat)
    requires SystemOk(s, sha) && SystemOk(Step(s, WorkerStarts(worker), sha), sha) && worker !in s.usedWorkers
    requires id < |s.db.jobs| && s.db.jobs[id].state in {QUEUED, PROCESSING, RETRY_WAIT}
    ensures var s' := Step(s, WorkerStarts(worker), sha);
            && s'.db == s.db && s'.now == s.now
            && worker in s'.workers && s'.workers[worker] == Idle
            && i < |s'.queue.pending| && s'.queue.pending[i] == Reference(s.db.jobs, id)
  {
    hide SystemOk, DbOk, LiveOk, QueueOk, Flow.Sound;
    var s' := Step(s, WorkerStarts(worker), sha);
    StoresAreSound(s', sha);
    WorkIsListed(s'.db.jobs, s'.queue, id);
    var entry := Reference(s.db.jobs, id);
    assert s'.queue.processing == [] && multiset(s'.queue.pending)[entry] == 1;
    assert entry in s'.queue.pending;
    i :| 0 <= i < |s'.queue.pending| && s'.queue.pending[i] == entry;
  }

  /** All turns of a new worker, at a time when the job can be claimed. */
  lemma NewWorkerSettles(s: System, sha: Bytes -> Digest, id: JobId) returns (actions: seq<Action>)
    requires SystemOk(s, sha) && id < |s.db.jobs| && s.db.jobs[id].state in {QUEUED, PROCESSING, RETRY_WAIT}
    requires Claimable(s.db.jobs[id], s.now)
    ensures Flow.Settled(StoresOf(Run(s, actions, sha)), id)
  {
    hide DbOk, LiveOk, Step, Run, Flow.Turns, Flow.Settled, Flow.Sound, Flow.NotYet, Claimable, Extends;
    var worker := Above(s.usedWorkers);
    var start := WorkerStarts(worker);
    var s' := Step(s, start, sha);
    StepKeeps(s, start, sha);
    StoresAreSound(s', sha);
    assert SoundParts(StoresOf(s')) by { HaveSoundParts(StoresOf(s')); }
    var i := NewWorkerFindsMessage(s, worker, sha, id);
    var clocks := Still(s.now, |s'.queue.pending|);
    Flow.QueueIsDrained(StoresOf(s'), worker, clocks, s.now);
    var turns := TurnsAreRun(s', worker, clocks, sha);
    RunConcat(s, [start], turns, sha);
    RunOne(s, start, sha);
    actions := [start] + turns;
  }

  ghost predicate SoundParts(s: GatewayFlow.Stores) {
    DbOk(s.db) && Authentic(s.db) && Recovery.MarkersMatch(s.db.jobs, s.queue)
  }

  lemma HaveSoundParts(s: GatewayFlow.Stores)
    requires Flow.Sound(s)
    ensures SoundParts(s)
  {
  }

  /** The same from any time: first the lease or the backoff has to run out. */
  lemma WorkCanFinish(s: System, sha: Bytes -> Digest, id: JobId) returns (actions: seq<Action>)
    requires SystemOk(s, sha) && id < |s.db.jobs| && s.db.jobs[id].state in {QUEUED, PROCESSING, RETRY_WAIT}
    ensures Flow.Settled(StoresOf(Run(s, actions, sha)), id)
  {
    hide DbOk, LiveOk, Run, Flow.Settled;
    TablesOk(s.db);
    var due := Due(s.db.jobs[id], s.now);
    var wait := if s.now < due then due - s.now else 0;
    DueIsClaimable(s.db.jobs, s.db.packets, id, s.now, s.now + wait);
    StepKeeps(s, Tick(wait), sha);
    var rest := NewWorkerSettles(Step(s, Tick(wait), sha), sha, id);
    Run1(s, Tick(wait), rest, sha);
    actions := [Tick(wait)] + rest;
  }

  /** A job that never reached the queue is queued first. */
  lemma NewJobCanBeQueued(s: System, sha: Bytes -> Digest, id: JobId) returns (actions: seq<Action>)
    requires SystemOk(s, sha) && id < |s.db.jobs| && s.db.jobs[id].state == PENDING_QUEUE
    ensures var s' := Run(s, actions, sha);
            id < |s'.db.jobs| && s'.db.jobs[id].state == QUEUED
  {
    hide DbOk, LiveOk, Run, Extends, Flow.Sound;
    var gateway := Above(s.gateways.Keys);
    StoresAreSound(s, sha);
    HaveSoundParts(StoresOf(s));
    Recovery.QueueOneEffect(StoresOf(s), id);
    actions := QueueOneIsRun(s, gateway, id, sha);
  }

  /** From every reachable state every unfinished job can still be finished: complete if its
      packet is in time, failed for good with its reference kept if not, no matter how often
      it was taken over. */
  lemma EveryJobCanFinish(actions: seq<Action>, sha: Bytes -> Digest, id: JobId) returns (more: seq<Action>)
    requires id < |Run(START, actions, sha).db.jobs| && !Terminal(Run(START, actions, sha).db.jobs[id])
    ensures Flow.Settled(StoresOf(Run(Run(START, actions, sha), more, sha)), id)
  {
    hide DbOk, LiveOk, Run, Flow.Settled;
    var s := Run(START, actions, sha);
    Reachable(actions, sha);
    if s.db.jobs[id].state == PENDING_QUEUE {
      var first := NewJobCanBeQueued(s, sha, id);
      RunKeeps(s, first, sha);
      var rest := WorkCanFinish(Run(s, first, sha), sha, id);
      RunConcat(s, first, rest, sha);
      more := first + rest;
    } else {
      more := WorkCanFinish(s, sha, id);
    }
  }
}
