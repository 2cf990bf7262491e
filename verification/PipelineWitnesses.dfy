/** Two runs worth knowing, as concrete sequences of actions: a request that is answered as
    queued and fails for good at its first attempt, and takeovers without end. */
module PipelineWitnesses {
  import opened Outcomes
  import opened Wire
  import opened FrameCodec
  import opened JobLifecycle
  import opened Storage
  import opened StorageInvariant
  import opened Pipeline
  import opened PipelineInvariant
  import opened PipelineSafety
  import opened PipelineTheorems
  import opened PipelineRedecode
  import Q = RedisQueue

  // ----- one frame, accepted by the request that recorded it or by a later one -----

  /** The frame arrives at the project epoch; a request that comes `wait` later accepts it. */
  function Accepting(frame: TelemetryFrame, wait: nat, maxAttempts: int): seq<Action>
    requires ValidFrame(frame)
  {
    [Tick(PROJECT_EPOCH_US)]
    + ([Record(WireForm(frame), Some(0), PROJECT_EPOCH_US)]
       + ([Tick(wait)] + ([Accept(0, PROJECT_EPOCH_US + wait, maxAttempts)] + [])))
  }

  /** The tables with the delivery on record and undecided. */
  function Recorded(frame: TelemetryFrame, sha: Bytes -> Digest): Database
    requires ValidFrame(frame)
  {
    var body := WireForm(frame);
    NEW_DATABASE.(receipts := [NewReceipt(sha, body, Some(0), PROJECT_EPOCH_US)],
                  identities := map[0 := Identity(0, sha(body))])
  }

  /** No process runs and Redis is empty. */
  function Quiet(db: Database, now: int): System {
    System(db, Q.EMPTY, map[], map[], {}, now)
  }

  lemma AcceptingDecodes(frame: TelemetryFrame, wait: nat, maxAttempts: int, sha: Bytes -> Digest)
    requires ValidFrame(frame) && StampedBy(frame, PROJECT_EPOCH_US + wait)
    ensures Run(START, Accepting(frame, wait, maxAttempts), sha) ==
            Quiet(AcceptPacket(Recorded(frame, sha), 0, frame, maxAttempts).0, PROJECT_EPOCH_US + wait)
  {
    hide AcceptPacket, WireForm, Decode;
    var body := WireForm(frame);
    var record, accept := Record(body, Some(0), PROJECT_EPOCH_US), Accept(0, PROJECT_EPOCH_US + wait, maxAttempts);
    Run1(START, Tick(PROJECT_EPOCH_US), [record] + ([Tick(wait)] + ([accept] + [])), sha);
    var s1 := START.(now := PROJECT_EPOCH_US);
    Run1(s1, record, [Tick(wait)] + ([accept] + []), sha);
    var s2 := s1.(db := Recorded(frame, sha));
    assert Step(s1, record, sha) == s2;
    Run1(s2, Tick(wait), [accept] + [], sha);
    Run1(Quiet(Recorded(frame, sha), PROJECT_EPOCH_US + wait), accept, [], sha);
    DecodeInvertsEncode(frame, PROJECT_EPOCH_US + wait);
  }

  lemma AcceptingAccepts(frame: TelemetryFrame, wait: nat, maxAttempts: int, sha: Bytes -> Digest)
    requires ValidFrame(frame) && StampedBy(frame, PROJECT_EPOCH_US + wait) && maxAttempts > 0
    ensures var s := Run(START, Accepting(frame, wait, maxAttempts), sha);
            && s == Quiet(s.db, PROJECT_EPOCH_US + wait)
            && s.db.jobs == [NewJob(KeyOf(frame), maxAttempts)]
            && |s.db.packets| == 1
            && (InTime(s.db, 0) <==> StampedBy(frame, PROJECT_EPOCH_US))
  {
    hide WireForm;
    AcceptingDecodes(frame, wait, maxAttempts, sha);
    var db := Recorded(frame, sha);
    assert SequencesOk(db.packets, db.sequences);
    var entry := NewKeyShape(db, 0, frame, maxAttempts);
    AddedPacket(db, 0, frame, maxAttempts);
  }

  const QUEUED := [BeginQueueing(0, 0)] + ([Enqueue(0)] + ([Mark(0)] + []))

  function ReferenceOf(frame: TelemetryFrame): Q.QueueMessage {
    Q.QueueMessage(0, KeyOf(frame))
  }

  /** Redis with the one message in the list that `processing` says. */
  function Holding(message: Q.QueueMessage, processing: bool): Q.QueueState {
    Q.QueueState(
      if processing then [] else [Q.Reference(message)],
      if processing then [Q.Reference(message)] else [],
      [], map[message.job := message])
  }

  lemma OnlyJobIsQueued(s: System, frame: TelemetryFrame, sha: Bytes -> Digest)
    requires s == Quiet(s.db, s.now) && |s.db.jobs| == 1
    requires s.db.jobs[0] == NewJob(KeyOf(frame), s.db.jobs[0].maxAttempts)
    ensures var s' := Run(s, QUEUED, sha);
            && s' == Quiet(s'.db, s.now).(queue := Holding(ReferenceOf(frame), false))
            && |s'.db.jobs| == 1
            && s'.db.jobs[0] == s.db.jobs[0].(state := JobState.QUEUED, queueMessage := Some(0))
  {
    hide EnqueueStep, MarkStep, RecoveryStep, Holding;
    var s1 := s.(gateways := map[0 := ToEnqueue(0, [])]);
    var s2 := EnqueueStep(s1, 0);
    assert s.gateways[0 := ToEnqueue(0, [])] == map[0 := ToEnqueue(0, [])];
    assert [0][1..] == [];
    assert Step(s, BeginQueueing(0, 0), sha) == s1;
    Run1(s, BeginQueueing(0, 0), [Enqueue(0)] + ([Mark(0)] + []), sha);
    assert Step(s1, Enqueue(0), sha) == s2;
    Run1(s1, Enqueue(0), [Mark(0)] + [], sha);
    OnlyJobIsEnqueued(s1, frame);
    Run1(s2, Mark(0), [], sha);
    OnlyJobIsMarked(s2);
    assert Run(s, QUEUED, sha) == MarkStep(s2, 0);
  }

  lemma OnlyJobIsEnqueued(s: System, frame: TelemetryFrame)
    requires s.queue == Q.EMPTY && s.gateways == map[0 := ToEnqueue(0, [])]
    requires |s.db.jobs| == 1 && s.db.jobs[0] == NewJob(KeyOf(frame), s.db.jobs[0].maxAttempts)
    ensures EnqueueStep(s, 0)
            == s.(queue := Holding(ReferenceOf(frame), false), gateways := map[0 := ToMark(0, [])])
  {
    assert MessageOf(s.db, 0) == ReferenceOf(frame);
  }

  lemma OnlyJobIsMarked(s: System)
    requires s.gateways == map[0 := ToMark(0, [])]
    requires |s.db.jobs| == 1 && s.db.jobs[0] == NewJob(s.db.jobs[0].packet, s.db.jobs[0].maxAttempts)
    ensures var s' := MarkStep(s, 0);
            && s' == s.(db := s'.db, gateways := map[])
            && |s'.db.jobs| == 1
            && s'.db.jobs[0] == s.db.jobs[0].(state := JobState.QUEUED, queueMessage := Some(0))
  {
    assert map[0 := ToMark(0, [])] - {0} == map[];
  }

  // ----- a new worker takes the only message -----

  function Claiming(worker: WorkerId): seq<Action> {
    [WorkerStarts(worker)] + ([Work(worker, Take(true))] + ([Work(worker, ClaimWork(true))] + []))
  }

  function TakenBy(s: System, worker: WorkerId, message: Q.QueueMessage): System {
    s.(queue := Holding(message, true), workers := s.workers[worker := Received(message)],
       usedWorkers := s.usedWorkers + {worker})
  }

  lemma StartedAndTaken(s: System, worker: WorkerId, message: Q.QueueMessage, processing: bool, sha: Bytes -> Digest)
    requires s.queue == Holding(message, processing) && worker !in s.usedWorkers
    ensures Step(Step(s, WorkerStarts(worker), sha), Work(worker, Take(true)), sha) == TakenBy(s, worker, message)
  {
    hide Q.RecoverProcessing;
    var entry := Q.Reference(message);
    HeldIsRecovered(message, processing);
    var s1 := Step(s, WorkerStarts(worker), sha);
    assert [entry][..0] == [] && [entry] + [] == [entry];
    assert s1.workers[worker := Received(message)] == s.workers[worker := Received(message)];
  }

  lemma HeldIsRecovered(message: Q.QueueMessage, processing: bool)
    ensures Q.RecoverProcessing(Holding(message, processing)) == Holding(message, false)
  {
    var q := Holding(message, processing);
    assert q.processing + q.pending == [Q.Reference(message)];
  }

  lemma OnlyMessageIsTaken(s: System, worker: WorkerId, message: Q.QueueMessage, processing: bool, sha: Bytes -> Digest)
    requires s.queue == Holding(message, processing) && worker !in s.usedWorkers
    ensures Run(s, Claiming(worker), sha) == ClaimStep(TakenBy(s, worker, message), worker, true)
  {
    hide ClaimStep, StartStep, TakeStep, TakenBy;
    Run1(s, WorkerStarts(worker), [Work(worker, Take(true))] + ([Work(worker, ClaimWork(true))] + []), sha);
    var s1 := Step(s, WorkerStarts(worker), sha);
    Run1(s1, Work(worker, Take(true)), [Work(worker, ClaimWork(true))] + [], sha);
    StartedAndTaken(s, worker, message, processing, sha);
    TakenIsThere(s, worker, message);
    Run1(TakenBy(s, worker, message), Work(worker, ClaimWork(true)), [], sha);
  }

  lemma TakenIsThere(s: System, worker: WorkerId, message: Q.QueueMessage)
    ensures worker in TakenBy(s, worker, message).workers
  {
  }

  lemma OnlyJobIsClaimed(s: System, worker: WorkerId, message: Q.QueueMessage, processing: bool, sha: Bytes -> Digest)
    requires PacketsOk(s.db.packets, s.db.receipts) && JobsOk(s.db.jobs, s.db.packets)
    requires ResultsOk(s.db.results, s.db.jobs)
    requires s.queue == Holding(message, processing) && worker !in s.usedWorkers && message.job == 0
    requires |s.db.jobs| == 1 && Claimable(s.db.jobs[0], s.now)
    ensures var s' := Run(s, Claiming(worker), sha);
            && worker in s'.workers && s'.workers[worker].Working? && s'.workers[worker].message == message
            && s'.db.jobs == [Claim(s.db.jobs[0], worker, s.now, LEASE_SECONDS)]
            && s'.queue == Holding(message, true)
            && s'.now == s.now && s'.usedWorkers == s.usedWorkers + {worker}
  {
    hide ClaimJob, WorkOf, PacketsOk, JobsOk, ResultsOk, Run;
    OnlyMessageIsTaken(s, worker, message, processing, sha);
    ClaimEffect(s.db, 0, worker, s.now, LEASE_SECONDS);
  }

  function UpToClaim(frame: TelemetryFrame, wait: nat, maxAttempts: int): seq<Action>
    requires ValidFrame(frame)
  {
    (Accepting(frame, wait, maxAttempts) + QUEUED) + Claiming(0)
  }

  lemma FirstClaim(frame: TelemetryFrame, wait: nat, maxAttempts: int, sha: Bytes -> Digest)
    requires ValidFrame(frame) && StampedBy(frame, PROJECT_EPOCH_US + wait) && maxAttempts > 0
    ensures var s := Run(START, UpToClaim(frame, wait, maxAttempts), sha);
            && 0 in s.workers && s.workers[0].Working? && s.workers[0].message == ReferenceOf(frame)
            && |s.db.jobs| == 1 && OwnedBy(s.db.jobs[0], 0)
            && s.db.jobs[0].attemptCount == 1 && s.db.jobs[0].maxAttempts == maxAttempts
            && s.db.jobs[0].leaseExpiresAt == Some(s.now + LEASE_SECONDS * SECOND_US)
            && s.queue == Holding(ReferenceOf(frame), true) && s.usedWorkers == {0}
  {
    hide DbOk, LiveOk, Run, Accepting, PacketsOk, JobsOk, ResultsOk, InTime;
    var accepted := Accepting(frame, wait, maxAttempts);
    AcceptingAccepts(frame, wait, maxAttempts, sha);
    RunConcat(START, accepted, QUEUED, sha);
    OnlyJobIsQueued(Run(START, accepted, sha), frame, sha);
    Reachable(accepted + QUEUED, sha);
    TablesOk(Run(START, accepted + QUEUED, sha).db);
    RunConcat(START, accepted + QUEUED, Claiming(0), sha);
    OnlyJobIsClaimed(Run(START, accepted + QUEUED, sha), 0, ReferenceOf(frame), false, sha);
  }

  // ----- a replayed request whose job fails for good -----

  /** Sampled one microsecond more than five minutes after the first receipt. */
  const EARLY := TelemetryFrame(1, 1, 1, 0, PROJECT_EPOCH_US + MAX_FUTURE_SKEW_US + 1, 0, 0, 0, 0)

  const PROCESSED := [Work(0, Process)] + ([Work(0, RecordFailure(true))] + [])

  lemma StillOutOfTime(earlier: seq<Action>, later: seq<Action>, sha: Bytes -> Digest)
    requires var db := Run(START, earlier, sha).db; |db.packets| == 1 && !InTime(db, 0)
    ensures !InTime(Run(START, earlier + later, sha).db, 0)
  {
    hide DbOk, LiveOk;
    Reachable(earlier, sha);
    AuthenticOf(Run(START, earlier, sha), sha);
    RunConcat(START, earlier, later, sha);
    RunKeeps(Run(START, earlier, sha), later, sha);
    assert AuthenticPacket(Run(START, earlier, sha).db.packets[0], Run(START, earlier, sha).db.receipts);
    InTimeForever(Run(START, earlier, sha).db, Run(START, earlier + later, sha).db, 0);
  }

  lemma ReplayStaysOutOfTime(sha: Bytes -> Digest)
    ensures !InTime(Run(START, UpToClaim(EARLY, 1, 3), sha).db, 0)
  {
    hide Run, InTime, Accepting;
    AcceptingAccepts(EARLY, 1, 3, sha);
    StillOutOfTime(Accepting(EARLY, 1, 3), QUEUED + Claiming(0), sha);
    assert Accepting(EARLY, 1, 3) + (QUEUED + Claiming(0)) == UpToClaim(EARLY, 1, 3);
  }

  /** The frame is recorded, its request dies, and the same request comes again a
      microsecond later: then the frame decodes and is queued, and it fails at its first
      attempt, for good. */
  lemma ReplayedRequestCanFail(sha: Bytes -> Digest)
    ensures var s := Run(START, UpToClaim(EARLY, 1, 3) + PROCESSED, sha);
            && |s.db.jobs| == 1
            && s.db.jobs[0].state == FAILED
            && s.db.jobs[0].attemptCount == 1 < s.db.jobs[0].maxAttempts == 3
  {
    hide DbOk, LiveOk, Run, ProcessStep, UpToClaim, InTime;
    var actions := UpToClaim(EARLY, 1, 3);
    RunConcat(START, actions, PROCESSED, sha);
    FirstClaim(EARLY, 1, 3, sha);
    ReplayStaysOutOfTime(sha);
    IntegrityCheckIff(actions, sha, 0);
    Reachable(actions, sha);
    ProcessKeepsWorker(Run(START, actions, sha), 0);
    WorkFails(Run(START, actions, sha), sha);
  }

  lemma ProcessKeepsWorker(s: System, worker: WorkerId)
    requires worker in s.workers
    ensures worker in ProcessStep(s, worker).workers
  {
    hide Decode;
  }

  lemma WorkFails(s: System, sha: Bytes -> Digest)
    requires LiveOk(s, sha, None) && 0 in s.workers && s.workers[0].Working? && s.workers[0].message.job == 0
    requires |s.db.jobs| == 1 && OwnedBy(s.db.jobs[0], 0)
    requires var s' := ProcessStep(s, 0);
             0 in s'.workers && s'.workers[0].Failing? && !s'.workers[0].temporary
    ensures Run(s, PROCESSED, sha).db.jobs
            == [s.db.jobs[0].(state := FAILED, leaseExpiresAt := None, nextAttemptAt := None)]
  {
    hide LiveOk, Decode, WorkerOk;
    assert s.workers[0].claim.work.job == 0 by {
      PositionOf(s, 0, sha);
      WorkingOnIts(s, 0);
    }
    Run1(s, Work(0, Process), [Work(0, RecordFailure(true))] + [], sha);
    Run1(ProcessStep(s, 0), Work(0, RecordFailure(true)), [], sha);
  }

  lemma WorkingOnIts(s: System, worker: WorkerId)
    requires worker in s.workers && s.workers[worker].Working? && WorkerOk(s.db, s.now, worker, s.workers[worker])
    ensures s.workers[worker].claim.work.job == s.workers[worker].message.job
  {
  }

  // ----- takeovers without end -----

  /** Sampled at the moment it arrives. */
  const PROMPT := TelemetryFrame(1, 1, 1, 0, PROJECT_EPOCH_US, 0, 0, 0, 0)

  /** The only job is at attempt `attempt` of its limit, with a fresh lease and its message
      in the processing list; only workers below that number were ever started. */
  predicate AtAttempt(s: System, message: Q.QueueMessage, maxAttempts: int, attempt: nat) {
    && |s.db.jobs| == 1 && message.job == 0
    && s.db.jobs[0].state == PROCESSING
    && s.db.jobs[0].attemptCount == attempt
    && s.db.jobs[0].maxAttempts == maxAttempts
    && s.db.jobs[0].leaseExpiresAt == Some(s.now + LEASE_SECONDS * SECOND_US)
    && s.queue == Holding(message, true)
    && forall worker :: worker in s.usedWorkers ==> worker < attempt
  }

  /** The worker crashes, its lease runs out, and the next worker starts and claims. */
  function Takeover(attempt: nat): seq<Action>
    requires attempt > 0
  {
    [WorkerCrashes(attempt - 1)] + ([Tick(LEASE_SECONDS * SECOND_US)] + Claiming(attempt))
  }

  lemma NextTakeover(s: System, message: Q.QueueMessage, maxAttempts: int, attempt: nat, sha: Bytes -> Digest)
    requires SystemOk(s, sha) && AtAttempt(s, message, maxAttempts, attempt) && attempt > 0
    ensures AtAttempt(Run(s, Takeover(attempt), sha), message, maxAttempts, attempt + 1)
  {
    hide DbOk, LiveOk, PacketsOk, JobsOk, ResultsOk, Claiming, Run;
    TablesOk(s.db);
    Run1(s, WorkerCrashes(attempt - 1), [Tick(LEASE_SECONDS * SECOND_US)] + Claiming(attempt), sha);
    var s1 := RemoveWorker(s, attempt - 1);
    Run1(s1, Tick(LEASE_SECONDS * SECOND_US), Claiming(attempt), sha);
    OnlyJobIsClaimed(s1.(now := s.now + LEASE_SECONDS * SECOND_US), attempt, message, true, sha);
  }

  /** attempt_count is not limited by max_attempts: for every limit and every number there
      is a run with as many takeovers of 60-second leases. */
  lemma {:induction false} TakeoversExceedAnyLimitInRuns(maxAttempts: int, n: nat, sha: Bytes -> Digest)
    returns (actions: seq<Action>)
    requires maxAttempts > 0
    ensures AtAttempt(Run(START, actions, sha), ReferenceOf(PROMPT), maxAttempts, n + 1)
    decreases n
  {
    hide DbOk, LiveOk, Run, UpToClaim, Takeover;
    if n == 0 {
      actions := UpToClaim(PROMPT, 0, maxAttempts);
      FirstClaim(PROMPT, 0, maxAttempts, sha);
    } else {
      var before := TakeoversExceedAnyLimitInRuns(maxAttempts, n - 1, sha);
      Reachable(before, sha);
      NextTakeover(Run(START, before, sha), ReferenceOf(PROMPT), maxAttempts, n, sha);
      RunConcat(START, before, Takeover(n), sha);
      actions := before + Takeover(n);
    }
  }
}
