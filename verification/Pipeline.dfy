/** Gateways and workers over the two stores. Every action is one atomic step: one
    repository transaction, one queue script, one local decision, or a crash; any
    sequence of actions is a possible interleaving. An action that is not possible in a
    state leaves the state as it is. */
module Pipeline {
  import opened Outcomes
  import opened Wire
  import opened FrameCodec
  import opened JobLifecycle
  import opened Storage
  import Q = RedisQueue

  type GatewayId = nat

  const LEASE_SECONDS := 60
  const BASE_BACKOFF_SECONDS := 1

  /** A gateway between its steps: it holds the job it queues now and, in a start-up
      recovery, the rest of the list it read. */
  datatype Gateway =
    | ToEnqueue(job: JobId, rest: seq<JobId>)
    | ToMark(job: JobId, rest: seq<JobId>)

  /** The worker's own view of its claim: which attempt it is, and until when. */
  datatype ClaimView = ClaimView(work: WorkItem, expiresAt: int)

  /** Where a worker stands in its loop. */
  datatype Worker =
    | Idle
    | Received(message: Q.QueueMessage)                 // next: claim the job
    | Unclaimed(message: Q.QueueMessage)                // next: read the job
    | AckUnclaimed(message: Q.QueueMessage)
    | DiscardUnclaimed(message: Q.QueueMessage)
    | ReturnUnclaimed(message: Q.QueueMessage)
    | Rescue(message: Q.QueueMessage)                   // an error before any work was known
    | Working(message: Q.QueueMessage, claim: ClaimView)
    | Storing(message: Q.QueueMessage, claim: ClaimView, result: ProcessingResult)
    | Stored(message: Q.QueueMessage)                   // next: acknowledge
    | Failing(message: Q.QueueMessage, claim: ClaimView, temporary: bool)
    | Discard(message: Q.QueueMessage)
    | Return(message: Q.QueueMessage)

  datatype System = System(
    db: Database,
    queue: Q.QueueState,
    gateways: map<GatewayId, Gateway>,
    workers: map<WorkerId, Worker>,
    usedWorkers: set<WorkerId>,
    now: int)

  const START := System(NEW_DATABASE, Q.EMPTY, map[], map[], {}, 0)

  /** `seen` is false when the step took effect but its answer was lost: the caller then
      goes the way of an error. */
  datatype Action =
    | Tick(microseconds: nat)
    | Record(body: Bytes, requestId: Option<RequestId>, receivedAt: int)
    | Reject(receipt: ReceiptId, reason: ReceiptReason)
    | Accept(receipt: ReceiptId, decodedAt: int, maxAttempts: int)
    | BeginQueueing(gateway: GatewayId, job: JobId)
    | BeginRecovery(gateway: GatewayId, limit: int)
    | Enqueue(gateway: GatewayId)
    | Mark(gateway: GatewayId)
    | GatewayStops(gateway: GatewayId)
    | WorkerStarts(worker: WorkerId)
    | WorkerCrashes(worker: WorkerId)
    | Work(worker: WorkerId, step: WorkerStep)

  datatype WorkerStep =
    | Take(seen: bool)
    | ClaimWork(seen: bool)
    | LookAgain
    | Settle(seen: bool)
    | ErrorBeforeWork
    | Process
    | ErrorInWork
    | Store(seen: bool)
    | RecordFailure(seen: bool)
    | FailureUnrecorded

  function MessageOf(db: Database, job: JobId): Q.QueueMessage
    requires job < |db.jobs|
  {
    Q.QueueMessage(job, db.jobs[job].packet)
  }

  function SetWorker(s: System, worker: WorkerId, state: Worker): System {
    s.(workers := s.workers[worker := state])
  }

  function RemoveWorker(s: System, worker: WorkerId): System {
    s.(workers := s.workers - {worker})
  }

  function RemoveGateway(s: System, gateway: GatewayId): System {
    s.(gateways := s.gateways - {gateway})
  }

  /** The gateway goes on with the next job of its list, or is done. */
  function NextInList(s: System, gateway: GatewayId, rest: seq<JobId>): System {
    if rest == [] then RemoveGateway(s, gateway)
    else s.(gateways := s.gateways[gateway := ToEnqueue(rest[0], rest[1..])])
  }

  // ----- gateway steps -----

  /** The request handler accepts only what it decoded from the recorded bytes, at the
      time of its own request, which for a replay is later than the recorded one. */
  function AcceptStep(s: System, receipt: ReceiptId, decodedAt: int, maxAttempts: int): System {
    if receipt < |s.db.receipts| && decodedAt <= s.now then
      match Decode(s.db.receipts[receipt].rawBody, decodedAt)
      case Ok(values) => s.(db := AcceptPacket(s.db, receipt, values, maxAttempts).0)
      case Err(_) => s
    else s
  }

  function RecoveryStep(s: System, gateway: GatewayId, limit: int): System {
    if gateway in s.gateways then s
    else
      match RecoverableJobs(s.db, s.now, limit)
      case Ok(ids) => NextInList(s, gateway, ids)
      case Err(_) => s
  }

  function EnqueueStep(s: System, gateway: GatewayId): System {
    if gateway in s.gateways && s.gateways[gateway].ToEnqueue? && s.gateways[gateway].job < |s.db.jobs| then
      var ToEnqueue(job, rest) := s.gateways[gateway];
      var (queue, result) := Q.Enqueue(s.queue, MessageOf(s.db, job));
      if result == -1 then RemoveGateway(s, gateway)
      else s.(queue := queue, gateways := s.gateways[gateway := ToMark(job, rest)])
    else s
  }

  /** A refused mark raises out of the request or the recovery. */
  function MarkStep(s: System, gateway: GatewayId): System {
    if gateway in s.gateways && s.gateways[gateway].ToMark? then
      var ToMark(job, rest) := s.gateways[gateway];
      var (db, result) := MarkJobQueued(s.db, job, job);
      if result.Ok? then NextInList(s.(db := db), gateway, rest) else RemoveGateway(s, gateway)
    else s
  }

  // ----- worker steps -----

  /** A new process has a new worker id and first returns all stranded work. */
  function StartStep(s: System, worker: WorkerId): System {
    if worker in s.usedWorkers then s
    else s.(queue := Q.RecoverProcessing(s.queue),
            workers := s.workers[worker := Idle], usedWorkers := s.usedWorkers + {worker})
  }

  function TakeStep(s: System, worker: WorkerId, seen: bool): System
    requires worker in s.workers
  {
    if s.workers[worker] != Idle then s
    else
      var (queue, claimed) := Q.Claim(s.queue);
      if claimed.Message? && seen then SetWorker(s.(queue := queue), worker, Received(claimed.message))
      else s.(queue := queue)
  }

  function ClaimStep(s: System, worker: WorkerId, seen: bool): System
    requires worker in s.workers
  {
    if !s.workers[worker].Received? then s
    else
      var message := s.workers[worker].message;
      var (db, result) := ClaimJob(s.db, message.job, worker, s.now, LEASE_SECONDS);
      if result.Err? || !seen then SetWorker(s.(db := db), worker, Rescue(message))
      else if result.value.None? then SetWorker(s.(db := db), worker, Unclaimed(message))
      else
        SetWorker(
          s.(db := db), worker,
          Working(message, ClaimView(result.value.value, s.now + LEASE_SECONDS * SECOND_US)))
  }

  /** What _return_or_finish_unclaimed decides after reading the job. */
  function LookStep(s: System, worker: WorkerId): System
    requires worker in s.workers
  {
    if !s.workers[worker].Unclaimed? then s
    else
      var message := s.workers[worker].message;
      if message.job >= |s.db.jobs| || s.db.jobs[message.job].state == COMPLETE then
        SetWorker(s, worker, AckUnclaimed(message))
      else if s.db.jobs[message.job].state == FAILED then SetWorker(s, worker, DiscardUnclaimed(message))
      else SetWorker(s, worker, ReturnUnclaimed(message))
  }

  /** The queue script a worker has decided on. A script that does not find its message
      raises: before any work was known the worker then tries to return the message, and
      after a recorded failure the error ends the process. */
  function SettleStep(s: System, worker: WorkerId, seen: bool): System
    requires worker in s.workers
  {
    match s.workers[worker]
    case AckUnclaimed(message) =>
      var (queue, done) := Q.Ack(s.queue, message);
      SetWorker(s.(queue := queue), worker, if done && seen then Idle else Rescue(message))
    case DiscardUnclaimed(message) =>
      var (queue, done) := Q.DeadLetter(s.queue, message);
      SetWorker(s.(queue := queue), worker, if done && seen then Idle else Rescue(message))
    case ReturnUnclaimed(message) =>
      var (queue, done) := Q.Retry(s.queue, message);
      SetWorker(s.(queue := queue), worker, if done && seen then Idle else Rescue(message))
    case Rescue(message) =>
      SetWorker(s.(queue := Q.Retry(s.queue, message).0), worker, Idle)
    case Stored(message) =>
      SetWorker(s.(queue := Q.Ack(s.queue, message).0), worker, Idle)
    case Discard(message) =>
      var (queue, done) := Q.DeadLetter(s.queue, message);
      if done then SetWorker(s.(queue := queue), worker, Idle) else RemoveWorker(s, worker)
    case Return(message) =>
      var (queue, done) := Q.Retry(s.queue, message);
      if done then SetWorker(s.(queue := queue), worker, Idle) else RemoveWorker(s, worker)
    case _ => s
  }

  function ErrorBeforeWorkStep(s: System, worker: WorkerId): System
    requires worker in s.workers
  {
    match s.workers[worker]
    case Received(message) => SetWorker(s, worker, Rescue(message))
    case Unclaimed(message) => SetWorker(s, worker, Rescue(message))
    case AckUnclaimed(message) => SetWorker(s, worker, Rescue(message))
    case DiscardUnclaimed(message) => SetWorker(s, worker, Rescue(message))
    case ReturnUnclaimed(message) => SetWorker(s, worker, Rescue(message))
    case _ => s
  }

  /** Decode the preserved bytes again; a mismatch with the stored values is permanent. */
  function ProcessStep(s: System, worker: WorkerId): System
    requires worker in s.workers
  {
    match s.workers[worker]
    case Working(message, claim) =>
      if Decode(claim.work.rawBody, claim.work.receivedAt) == Ok(claim.work.values) then
        SetWorker(s, worker, Storing(message, claim, ProcessingResult(claim.work.values, claim.work.receivedAt)))
      else SetWorker(s, worker, Failing(message, claim, false))
    case _ => s
  }

  function ErrorInWorkStep(s: System, worker: WorkerId): System
    requires worker in s.workers
  {
    match s.workers[worker]
    case Working(message, claim) => SetWorker(s, worker, Failing(message, claim, true))
    case Storing(message, claim, _) => SetWorker(s, worker, Failing(message, claim, true))
    case _ => s
  }

  function StoreStep(s: System, worker: WorkerId, seen: bool): System
    requires worker in s.workers
  {
    match s.workers[worker]
    case Storing(message, claim, result) =>
      var (db, outcome) := CompleteJob(s.db, claim.work.job, result, worker, s.now);
      SetWorker(
        s.(db := db), worker,
        if outcome.Ok? && seen then Stored(message) else Failing(message, claim, true))
    case _ => s
  }

  /** A lost answer keeps the worker alive; a refused failure report ends the process. */
  function RecordFailureStep(s: System, worker: WorkerId, seen: bool): System
    requires worker in s.workers
  {
    match s.workers[worker]
    case Failing(message, claim, temporary) =>
      var (db, outcome) := FailJob(s.db, claim.work.job, worker, temporary, BASE_BACKOFF_SECONDS, s.now);
      if !seen then SetWorker(s.(db := db), worker, Idle)
      else if outcome.Err? then RemoveWorker(s.(db := db), worker)
      else
        SetWorker(s.(db := db), worker, if outcome.value.state == FAILED then Discard(message) else Return(message))
    case _ => s
  }

  function WorkStep(s: System, worker: WorkerId, step: WorkerStep): System
    requires worker in s.workers
  {
    match step
    case Take(seen) => TakeStep(s, worker, seen)
    case ClaimWork(seen) => ClaimStep(s, worker, seen)
    case LookAgain => LookStep(s, worker)
    case Settle(seen) => SettleStep(s, worker, seen)
    case ErrorBeforeWork => ErrorBeforeWorkStep(s, worker)
    case Process => ProcessStep(s, worker)
    case ErrorInWork => ErrorInWorkStep(s, worker)
    case Store(seen) => StoreStep(s, worker, seen)
    case RecordFailure(seen) => RecordFailureStep(s, worker, seen)
    case FailureUnrecorded =>
      // The database was unreachable: the message stays in the processing list.
      if s.workers[worker].Failing? then SetWorker(s, worker, Idle) else s
  }

  // ----- runs -----

  function Step(s: System, action: Action, sha: Bytes -> Digest): System {
    match action
    case Tick(microseconds) => s.(now := s.now + microseconds)
    case Record(body, requestId, receivedAt) =>
      // The handler reads the clock before its first transaction.
      if receivedAt <= s.now then s.(db := RecordDelivery(s.db, sha, body, requestId, receivedAt).0) else s
    case Reject(receipt, reason) => s.(db := RejectDelivery(s.db, receipt, reason).0)
    case Accept(receipt, decodedAt, maxAttempts) => AcceptStep(s, receipt, decodedAt, maxAttempts)
    case BeginQueueing(gateway, job) =>
      if gateway in s.gateways || job >= |s.db.jobs| then s
      else NextInList(s, gateway, [job])
    case BeginRecovery(gateway, limit) => RecoveryStep(s, gateway, limit)
    case Enqueue(gateway) => EnqueueStep(s, gateway)
    case Mark(gateway) => MarkStep(s, gateway)
    case GatewayStops(gateway) => RemoveGateway(s, gateway)
    case WorkerStarts(worker) => StartStep(s, worker)
    case WorkerCrashes(worker) => RemoveWorker(s, worker)
    case Work(worker, step) => if worker in s.workers then WorkStep(s, worker, step) else s
  }

  function Run(s: System, actions: seq<Action>, sha: Bytes -> Digest): System
    decreases actions
  {
    if actions == [] then s else Run(Step(s, actions[0], sha), actions[1..], sha)
  }

  lemma Run1(s: System, a: Action, rest: seq<Action>, sha: Bytes -> Digest)
    ensures Run(s, [a] + rest, sha) == Run(Step(s, a, sha), rest, sha)
  {
    hide Step;
    assert ([a] + rest)[1..] == rest;
  }

  lemma RunOne(s: System, action: Action, sha: Bytes -> Digest)
    ensures Run(s, [action], sha) == Step(s, action, sha)
  {
    hide Step;
    assert [action] + [] == [action];
    Run1(s, action, [], sha);
  }

  lemma {:induction false} RunConcat(s: System, a: seq<Action>, b: seq<Action>, sha: Bytes -> Digest)
    ensures Run(s, a + b, sha) == Run(Run(s, a, sha), b, sha)
    decreases a
  {
    hide Step;
    if a == [] {
      assert a + b == b;
    } else {
      assert (a + b)[1..] == a[1..] + b;
      RunConcat(Step(s, a[0], sha), a[1..], b, sha);
    }
  }
}
