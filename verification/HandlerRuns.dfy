/** One request among all other processes: between any two steps of its handler, anything
    else may happen. */
module HandlerRuns {
  import opened Outcomes
  import opened Wire
  import opened FrameCodec
  import opened JobLifecycle
  import opened Storage
  import opened StorageInvariant
  import opened Pipeline
  import opened PipelineInvariant
  import opened PipelineSafety
  import opened PipelineTheorems
  import opened GatewayRuns
  import opened GatewayPromises
  import Flow = GatewayFlow
  import Q = RedisQueue

  /** The answer the handler will give once the job is marked. */
  datatype Promise =
    | AsQueued(receipt: ReceiptId, packet: PacketKey)
    | AsKnown(receipt: ReceiptId, packet: PacketKey)
    | AsRequeued(receipt: ReceiptId, packet: PacketKey)

  function Fulfil(promise: Promise, moved: bool): Flow.Response {
    match promise
    case AsQueued(receipt, packet) => Flow.Queued(receipt, packet)
    case AsKnown(receipt, packet) => Flow.AlreadyKnown(receipt, Some(packet))
    case AsRequeued(receipt, packet) => Flow.Requeued(receipt, packet, moved)
  }

  /** Where the handler stands: each position is left by one transaction, one script or one
      read. */
  datatype Handler =
    | Arrived                                        // next: record the delivery
    | OnFile(delivery: DeliveryResult)               // next: read the receipt, look at the headers
    | Refusing(receipt: ReceiptId, reason: ReceiptReason)
    | Resuming(receipt: ReceiptId, packet: PacketKey)  // next: read the job of the packet
    | Deciding(receipt: ReceiptId)                   // next: decode and accept
    | Queueing(promise: Promise, job: JobId)         // next: enqueue
    | Marking(promise: Promise, job: JobId)          // next: mark the job
    | Answered(response: Flow.Response)

  datatype Site = Site(request: Flow.Request, gateway: GatewayId, maxAttempts: int)

  // ----- the steps -----

  function AfterRecord(recorded: Result<DeliveryResult, StorageError>): Handler {
    match recorded
    case Ok(delivery) => OnFile(delivery)
    case Err(error) => Answered(Flow.Raised(Flow.StorageFault(error)))
  }

  function AfterReading(db: Database, request: Flow.Request, delivery: DeliveryResult): Handler {
    var id := delivery.receipt;
    if delivery.requestConflict then Answered(Flow.RequestConflict(id))
    else if delivery.requestReplay && id >= |db.receipts| then Answered(Flow.Raised(Flow.RuntimeError))
    else if delivery.requestReplay && Flow.SettledReplay(db.receipts[id], id).Some? then
      Answered(Flow.SettledReplay(db.receipts[id], id).value)
    else if !request.octetStream then Refusing(id, INVALID_CONTENT_TYPE)
    else if request.requestId.None? then Refusing(id, INVALID_REQUEST_ID)
    else if delivery.requestReplay && Flow.AwaitsQueue(db.receipts[id]) then
      Resuming(id, db.receipts[id].packet.value)
    else Deciding(id)
  }

  function AfterAcceptance(accepted: AcceptanceResult): Handler {
    if accepted.conflict then Answered(Flow.SequenceConflict(accepted.receipt))
    else if accepted.duplicate then
      if accepted.queueStatus == AWAITS_QUEUE && accepted.job.Some? && accepted.packet.Some? then
        Queueing(AsKnown(accepted.receipt, accepted.packet.value), accepted.job.value)
      else Answered(Flow.AlreadyKnown(accepted.receipt, accepted.packet))
    else if accepted.job.None? || accepted.packet.None? then Answered(Flow.Raised(Flow.RuntimeError))
    else Queueing(AsQueued(accepted.receipt, accepted.packet.value), accepted.job.value)
  }

  function AfterDecision(db: Database, site: Site, receipt: ReceiptId): Handler {
    match Decode(site.request.body, site.request.receivedAt)
    case Err(Rejected(reason)) => Refusing(receipt, FrameRule(reason))
    case Err(UnnamedValueError) => Answered(Flow.Raised(Flow.UnnamedError))
    case Ok(values) =>
      match AcceptPacket(db, receipt, values, site.maxAttempts).1
      case Err(error) => Answered(Flow.Raised(Flow.StorageFault(error)))
      case Ok(accepted) => AfterAcceptance(accepted)
  }

  function Next(s: System, h: Handler, site: Site, sha: Bytes -> Digest): Handler {
    var request := site.request;
    match h
    case Arrived =>
      if |request.body| > MAX_EVIDENCE_BODY_BYTES then Answered(Flow.TooLarge)
      else AfterRecord(RecordDelivery(s.db, sha, request.body, request.requestId, request.receivedAt).1)
    case OnFile(delivery) => AfterReading(s.db, request, delivery)
    case Refusing(receipt, reason) => Answered(Flow.Refuse(StoresOf(s), receipt, reason).1)
    case Resuming(receipt, packet) =>
      var job := FindJob(s.db.jobs, packet);
      if job.None? then Answered(Flow.Raised(Flow.RuntimeError))
      else Queueing(AsRequeued(receipt, packet), job.value)
    case Deciding(receipt) => AfterDecision(s.db, site, receipt)
    case Queueing(promise, job) =>
      if job < |s.db.jobs| && Q.Enqueue(s.queue, MessageOf(s.db, job)).1 == -1 then
        Answered(Flow.Raised(Flow.QueueConflictError))
      else Marking(promise, job)
    case Marking(promise, job) =>
      var marked := MarkJobQueued(s.db, job, job).1;
      Answered(if marked.Ok? then Fulfil(promise, marked.value) else Flow.Raised(Flow.StorageFault(marked.error)))
    case Answered(_) => h
  }

  /** What the step does to the system, as actions of the pipeline. */
  function Acts(s: System, h: Handler, site: Site, sha: Bytes -> Digest): seq<Action> {
    var request, next := site.request, Next(s, h, site, sha);
    var begin := if next.Queueing? then [BeginQueueing(site.gateway, next.job)] else [];
    match h
    case Arrived =>
      if |request.body| > MAX_EVIDENCE_BODY_BYTES then []
      else [Record(request.body, request.requestId, request.receivedAt)]
    case OnFile(_) => []
    case Refusing(receipt, reason) => [Reject(receipt, reason)]
    case Resuming(_, _) => begin
    case Deciding(receipt) =>
      if Decode(request.body, request.receivedAt).Ok? then
        [Accept(receipt, request.receivedAt, site.maxAttempts)] + begin
      else []
    case Queueing(_, _) => [Enqueue(site.gateway)]
    case Marking(_, _) => [Mark(site.gateway)]
    case Answered(_) => []
  }

  /** A step of this handler, or an action of anything else. */
  datatype Move = Own | Other(action: Action)

  predicate Foreign(action: Action, gateway: GatewayId) {
    action.BeginQueueing? || action.BeginRecovery? || action.Enqueue? || action.Mark? || action.GatewayStops? ==>
      action.gateway != gateway
  }

  predicate AllForeign(moves: seq<Move>, gateway: GatewayId) {
    forall i :: 0 <= i < |moves| && moves[i].Other? ==> Foreign(moves[i].action, gateway)
  }

  function Interleave(s: System, h: Handler, site: Site, moves: seq<Move>, sha: Bytes -> Digest): (System, Handler)
    decreases moves
  {
    if moves == [] then (s, h)
    else
      match moves[0]
      case Own => Interleave(Run(s, Acts(s, h, site, sha), sha), Next(s, h, site, sha), site, moves[1..], sha)
      case Other(action) => Interleave(Step(s, action, sha), h, site, moves[1..], sha)
  }

  // ----- what the handler may rely on -----

  /** The packet is stored with these bytes, as packet number `at`. */
  predicate Leads(db: Database, key: PacketKey, at: nat, body: Bytes) {
    && FindPacket(db.packets, key) == Some(at)
    && Preserved(db, at, body)
    && at < |db.jobs|
    && db.jobs[at].packet == key
  }

  predicate IsStored(db: Database, key: PacketKey, body: Bytes) {
    var at := FindPacket(db.packets, key);
    at.Some? && Leads(db, key, at.value, body)
  }

  predicate AtGateway(s: System, site: Site, position: Option<Gateway>) {
    if position.None? then site.gateway !in s.gateways
    else site.gateway in s.gateways && s.gateways[site.gateway] == position.value
  }

  predicate HandlerOk(s: System, h: Handler, site: Site) {
    var body := site.request.body;
    && site.request.receivedAt <= s.now
    && match h
       case Arrived => AtGateway(s, site, None)
       case OnFile(delivery) =>
         && AtGateway(s, site, None)
         && (!delivery.requestConflict ==>
               delivery.receipt < |s.db.receipts| && s.db.receipts[delivery.receipt].rawBody == body)
       case Refusing(receipt, reason) => AtGateway(s, site, None)
       case Resuming(receipt, packet) =>
         AtGateway(s, site, None) && IsStored(s.db, packet, body)
       case Deciding(receipt) =>
         AtGateway(s, site, None) && receipt < |s.db.receipts| && s.db.receipts[receipt].rawBody == body
       case Queueing(promise, job) =>
         AtGateway(s, site, Some(ToEnqueue(job, []))) && Leads(s.db, promise.packet, job, body)
       case Marking(promise, job) =>
         AtGateway(s, site, Some(ToMark(job, []))) && Leads(s.db, promise.packet, job, body)
       case Answered(response) => AtGateway(s, site, None) && Truthful(s.db, response, body)
  }

  // ----- nothing else spoils it -----

  lemma LeadsForever(db: Database, later: Database, key: PacketKey, at: nat, body: Bytes)
    requires Leads(db, key, at, body) && Extends(db, later) && KeysDistinct(later.packets)
    ensures Leads(later, key, at, body)
  {
    PreservedForever(db, later, at, body);
    FindUnique(later.packets, at);
    assert JobKept(db.jobs[at], later.jobs[at]);
  }

  lemma StoredForever(db: Database, later: Database, key: PacketKey, body: Bytes)
    requires IsStored(db, key, body) && Extends(db, later) && KeysDistinct(later.packets)
    ensures IsStored(later, key, body)
  {
    LeadsForever(db, later, key, FindPacket(db.packets, key).value, body);
  }

  lemma OnRecordForever(db: Database, later: Database, key: PacketKey, body: Bytes)
    requires OnRecord(db, key, body) && Extends(db, later) && KeysDistinct(later.packets)
    ensures OnRecord(later, key, body)
  {
    var at := FindPacket(db.packets, key).value;
    LeadsForever(db, later, key, at, body);
    assert JobKept(db.jobs[at], later.jobs[at]);
  }

  lemma OthersLeaveGateway(s: System, action: Action, site: Site, sha: Bytes -> Digest)
    requires Foreign(action, site.gateway)
    ensures var s' := Step(s, action, sha);
            && (site.gateway in s'.gateways <==> site.gateway in s.gateways)
            && (site.gateway in s.gateways ==> s'.gateways[site.gateway] == s.gateways[site.gateway])
            && s.now <= s'.now
  {
    hide AcceptStep, RecordDelivery, RejectDelivery, MarkJobQueued, RecoverableJobs, Q.Enqueue, WorkStep;
    match action
    case Accept(receipt, decodedAt, maxAttempts) => AcceptLeavesGateways(s, receipt, decodedAt, maxAttempts);
    case Work(worker, step) =>
      if worker in s.workers {
        WorkLeavesGateways(s, worker, step);
      }
    case _ =>
  }

  lemma AcceptLeavesGateways(s: System, receipt: ReceiptId, decodedAt: int, maxAttempts: int)
    ensures var s' := AcceptStep(s, receipt, decodedAt, maxAttempts); s'.gateways == s.gateways && s'.now == s.now
  {
    hide Decode, AcceptPacket;
  }

  lemma WorkLeavesGateways(s: System, worker: WorkerId, step: WorkerStep)
    requires worker in s.workers
    ensures var s' := WorkStep(s, worker, step); s'.gateways == s.gateways && s'.now == s.now
  {
    hide Decode, ClaimJob, CompleteJob, FailJob, Q.Claim, Q.Ack, Q.Retry, Q.DeadLetter;
  }

  lemma KeptByOthers(s: System, s': System, h: Handler, site: Site)
    requires HandlerOk(s, h, site) && Extends(s.db, s'.db) && KeysDistinct(s'.db.packets) && s.now <= s'.now
    requires site.gateway in s'.gateways <==> site.gateway in s.gateways
    requires site.gateway in s.gateways ==> s'.gateways[site.gateway] == s.gateways[site.gateway]
    ensures HandlerOk(s', h, site)
  {
    hide Extends, OnRecord, Leads, IsStored, KeysDistinct;
    ReceiptsKept(s.db, s'.db);
    var body := site.request.body;
    match h
    case Resuming(_, packet) =>
      StoredForever(s.db, s'.db, packet, body);
    case Queueing(promise, job) => LeadsForever(s.db, s'.db, promise.packet, job, body);
    case Marking(promise, job) => LeadsForever(s.db, s'.db, promise.packet, job, body);
    case Answered(response) =>
      if Acknowledges(response) {
        OnRecordForever(s.db, s'.db, NamedPacket(response).value, body);
      }
    case _ =>
  }

  lemma ReceiptsKept(db: Database, later: Database)
    requires Extends(db, later)
    ensures |db.receipts| <= |later.receipts|
    ensures forall id :: 0 <= id < |db.receipts| ==> later.receipts[id].rawBody == db.receipts[id].rawBody
  {
    forall id | 0 <= id < |db.receipts| ensures later.receipts[id].rawBody == db.receipts[id].rawBody {
      assert ReceiptKept(db.receipts[id], later.receipts[id]);
    }
  }

  // ----- the handler's own steps -----

  lemma RecordStep(s: System, site: Site, sha: Bytes -> Digest)
    requires SystemOk(s, sha) && HandlerOk(s, Arrived, site)
    ensures var s' := Run(s, Acts(s, Arrived, site, sha), sha);
            SystemOk(s', sha) && HandlerOk(s', Next(s, Arrived, site, sha), site)
  {
    hide SystemOk, RecordDelivery, Extends;
    var request := site.request;
    if |request.body| <= MAX_EVIDENCE_BODY_BYTES {
      var record := Record(request.body, request.requestId, request.receivedAt);
      RunOne(s, record, sha);
      StepKeeps(s, record, sha);
      RecordedBody(s.db, sha, request);
    }
  }

  lemma ReadStep(s: System, delivery: DeliveryResult, site: Site, sha: Bytes -> Digest)
    requires SystemOk(s, sha) && HandlerOk(s, OnFile(delivery), site)
    ensures Run(s, Acts(s, OnFile(delivery), site, sha), sha) == s
    ensures HandlerOk(s, Next(s, OnFile(delivery), site, sha), site)
  {
    hide DbOk, LiveOk, Truthful;
    var id := delivery.receipt;
    if !delivery.requestConflict {
      if delivery.requestReplay && Flow.SettledReplay(s.db.receipts[id], id).Some? {
        ReplayIsTruthful(s.db, id);
      } else if delivery.requestReplay && Flow.AwaitsQueue(s.db.receipts[id]) {
        AwaitingLeads(s.db, id);
      }
    }
    NoAcknowledgement(s.db, site.request.body);
  }

  lemma NoAcknowledgement(db: Database, body: Bytes)
    ensures forall response: Flow.Response :: !Acknowledges(response) ==> Truthful(db, response, body)
  {
  }

  lemma AwaitingLeads(db: Database, id: ReceiptId)
    requires DbOk(db) && id < |db.receipts| && Flow.AwaitsQueue(db.receipts[id])
    ensures IsStored(db, db.receipts[id].packet.value, db.receipts[id].rawBody)
  {
    hide DbOk;
    TablesOk(db);
    ReceiptLeadsToPacket(db, id);
  }

  lemma RefuseStep(s: System, receipt: ReceiptId, reason: ReceiptReason, site: Site, sha: Bytes -> Digest)
    requires SystemOk(s, sha) && HandlerOk(s, Refusing(receipt, reason), site)
    ensures var s' := Run(s, Acts(s, Refusing(receipt, reason), site, sha), sha);
            SystemOk(s', sha) && HandlerOk(s', Next(s, Refusing(receipt, reason), site, sha), site)
  {
    hide SystemOk, RejectDelivery;
    RunOne(s, Reject(receipt, reason), sha);
    StepKeeps(s, Reject(receipt, reason), sha);
  }

  /** The gateway takes the job up. */
  lemma BeginStep(s: System, promise: Promise, job: JobId, site: Site, sha: Bytes -> Digest)
    requires SystemOk(s, sha) && AtGateway(s, site, None) && site.request.receivedAt <= s.now
    requires Leads(s.db, promise.packet, job, site.request.body)
    ensures var s' := Step(s, BeginQueueing(site.gateway, job), sha);
            SystemOk(s', sha) && HandlerOk(s', Queueing(promise, job), site)
  {
    hide SystemOk, Leads;
    assert job < |s.db.jobs| by { LeadsToJob(s.db, promise.packet, job, site.request.body); }
    StepKeeps(s, BeginQueueing(site.gateway, job), sha);
    assert [job][1..] == [];
  }

  lemma LeadsToJob(db: Database, key: PacketKey, at: nat, body: Bytes)
    requires Leads(db, key, at, body)
    ensures at < |db.jobs| && db.jobs[at].packet == key
  {
  }

  lemma ResumeStep(s: System, receipt: ReceiptId, packet: PacketKey, site: Site, sha: Bytes -> Digest)
    requires SystemOk(s, sha) && HandlerOk(s, Resuming(receipt, packet), site)
    ensures var s' := Run(s, Acts(s, Resuming(receipt, packet), site, sha), sha);
            SystemOk(s', sha) && HandlerOk(s', Next(s, Resuming(receipt, packet), site, sha), site)
  {
    hide DbOk, LiveOk, Step, Truthful;
    var at := FindPacket(s.db.packets, packet).value;
    TablesOk(s.db);
    FindJobSame(s.db.jobs, s.db.packets, packet);
    BeginStep(s, AsRequeued(receipt, packet), at, site, sha);
    RunOne(s, BeginQueueing(site.gateway, at), sha);
  }

  lemma AnswersLead(db: Database, accepted: AcceptanceResult, body: Bytes)
    requires JobsOk(db.jobs, db.packets) && Answers(db, accepted, body) && !accepted.conflict
    ensures Leads(db, accepted.packet.value, accepted.job.value, body)
  {
  }

  /** A duplicate that needs no queueing is on record. */
  lemma KnownIsOnRecord(db: Database, accepted: AcceptanceResult, body: Bytes)
    requires JobsOk(db.jobs, db.packets) && Answers(db, accepted, body)
    requires !accepted.conflict && accepted.duplicate && accepted.queueStatus != AWAITS_QUEUE
    ensures OnRecord(db, accepted.packet.value, body)
  {
  }

  lemma DecideStep(s: System, receipt: ReceiptId, site: Site, sha: Bytes -> Digest)
    requires SystemOk(s, sha) && HandlerOk(s, Deciding(receipt), site)
    ensures var s' := Run(s, Acts(s, Deciding(receipt), site, sha), sha);
            SystemOk(s', sha) && HandlerOk(s', Next(s, Deciding(receipt), site, sha), site)
  {
    hide DbOk, LiveOk, Decode, AcceptPacket, Answers, Truthful, Leads, Extends;
    NoAcknowledgement(s.db, site.request.body);
    match Decode(site.request.body, site.request.receivedAt)
    case Err(_) =>
    case Ok(values) => AcceptOwn(s, receipt, values, site, sha);
  }

  lemma AcceptOwn(s: System, receipt: ReceiptId, values: TelemetryFrame, site: Site, sha: Bytes -> Digest)
    requires SystemOk(s, sha) && HandlerOk(s, Deciding(receipt), site)
    requires Decode(site.request.body, site.request.receivedAt) == Ok(values)
    ensures var s' := Run(s, Acts(s, Deciding(receipt), site, sha), sha);
            SystemOk(s', sha) && HandlerOk(s', Next(s, Deciding(receipt), site, sha), site)
  {
    hide DbOk, LiveOk, Decode, AcceptPacket, Answers, Truthful, Leads, Extends, Step, JobsOk;
    var accept := Accept(receipt, site.request.receivedAt, site.maxAttempts);
    var outcome := AcceptPacket(s.db, receipt, values, site.maxAttempts).1;
    var s1 := Step(s, accept, sha);
    AcceptIsStep(s, receipt, values, site, sha);
    StepKeeps(s, accept, sha);
    RunOne(s, accept, sha);
    NoAcknowledgement(s1.db, site.request.body);
    if outcome.Ok? {
      AcceptanceAnswers(s.db, receipt, values, site.maxAttempts);
      TablesOk(s1.db);
      AnswerOwn(s1, outcome.value, site, sha);
      var next := AfterAcceptance(outcome.value);
      if next.Queueing? {
        var begin := BeginQueueing(site.gateway, next.job);
        Run1(s, accept, [begin], sha);
        RunOne(s1, begin, sha);
      } else {
        assert [accept] + [] == [accept];
      }
    } else {
      assert [accept] + [] == [accept];
    }
  }

  lemma AcceptIsStep(s: System, receipt: ReceiptId, values: TelemetryFrame, site: Site, sha: Bytes -> Digest)
    requires receipt < |s.db.receipts| && s.db.receipts[receipt].rawBody == site.request.body
    requires site.request.receivedAt <= s.now && Decode(site.request.body, site.request.receivedAt) == Ok(values)
    ensures Step(s, Accept(receipt, site.request.receivedAt, site.maxAttempts), sha)
            == s.(db := AcceptPacket(s.db, receipt, values, site.maxAttempts).0)
  {
    hide Decode, AcceptPacket;
  }

  /** The handler's position after an acceptance, with its gateway if it has a job to queue. */
  lemma AnswerOwn(s: System, accepted: AcceptanceResult, site: Site, sha: Bytes -> Digest)
    requires SystemOk(s, sha) && AtGateway(s, site, None) && site.request.receivedAt <= s.now
    requires JobsOk(s.db.jobs, s.db.packets) && Answers(s.db, accepted, site.request.body)
    ensures var next := AfterAcceptance(accepted);
            if next.Queueing? then
              var s' := Step(s, BeginQueueing(site.gateway, next.job), sha);
              SystemOk(s', sha) && HandlerOk(s', next, site)
            else HandlerOk(s, next, site)
  {
    hide SystemOk, JobsOk, Leads, Step, OnRecord;
    if !accepted.conflict {
      AnswersLead(s.db, accepted, site.request.body);
      if accepted.duplicate && accepted.queueStatus != AWAITS_QUEUE {
        KnownIsOnRecord(s.db, accepted, site.request.body);
      } else if accepted.duplicate {
        BeginStep(s, AsKnown(accepted.receipt, accepted.packet.value), accepted.job.value, site, sha);
      } else {
        BeginStep(s, AsQueued(accepted.receipt, accepted.packet.value), accepted.job.value, site, sha);
      }
    }
  }

  lemma EnqueueOwn(s: System, promise: Promise, job: JobId, site: Site, sha: Bytes -> Digest)
    requires SystemOk(s, sha) && HandlerOk(s, Queueing(promise, job), site)
    ensures var s' := Run(s, Acts(s, Queueing(promise, job), site, sha), sha);
            SystemOk(s', sha) && HandlerOk(s', Next(s, Queueing(promise, job), site, sha), site)
  {
    hide SystemOk, Leads, Truthful, Q.Enqueue;
    LeadsToJob(s.db, promise.packet, job, site.request.body);
    RunOne(s, Enqueue(site.gateway), sha);
    StepKeeps(s, Enqueue(site.gateway), sha);
    NoAcknowledgement(s.db, site.request.body);
  }

  /** A mark that is not refused puts the job where the promise says. */
  lemma MarkedIsTruthful(db: Database, promise: Promise, job: JobId, body: Bytes)
    requires Leads(db, promise.packet, job, body)
    ensures var (db', marked) := MarkJobQueued(db, job, job);
            Truthful(
              db',
              if marked.Ok? then Fulfil(promise, marked.value) else Flow.Raised(Flow.StorageFault(marked.error)), body)
  {
  }

  lemma MarkOwn(s: System, promise: Promise, job: JobId, site: Site, sha: Bytes -> Digest)
    requires SystemOk(s, sha) && HandlerOk(s, Marking(promise, job), site)
    ensures var s' := Run(s, Acts(s, Marking(promise, job), site, sha), sha);
            SystemOk(s', sha) && HandlerOk(s', Next(s, Marking(promise, job), site, sha), site)
  {
    hide SystemOk, Leads, Truthful, MarkJobQueued;
    RunOne(s, Mark(site.gateway), sha);
    StepKeeps(s, Mark(site.gateway), sha);
    MarkedIsTruthful(s.db, promise, job, site.request.body);
    RefusedMarkChangesNothing(s.db, job);
  }

  lemma OwnStep(s: System, h: Handler, site: Site, sha: Bytes -> Digest)
    requires SystemOk(s, sha) && HandlerOk(s, h, site)
    ensures var s' := Run(s, Acts(s, h, site, sha), sha);
            SystemOk(s', sha) && HandlerOk(s', Next(s, h, site, sha), site)
  {
    hide SystemOk, Acts, Next;
    match h
    case Arrived => RecordStep(s, site, sha);
    case OnFile(delivery) => ReadStep(s, delivery, site, sha);
    case Refusing(receipt, reason) => RefuseStep(s, receipt, reason, site, sha);
    case Resuming(receipt, packet) => ResumeStep(s, receipt, packet, site, sha);
    case Deciding(receipt) => DecideStep(s, receipt, site, sha);
    case Queueing(promise, job) => EnqueueOwn(s, promise, job, site, sha);
    case Marking(promise, job) => MarkOwn(s, promise, job, site, sha);
    case Answered(_) => AnsweredStays(s, h, site, sha);
  }

  lemma AnsweredStays(s: System, h: Handler, site: Site, sha: Bytes -> Digest)
    requires h.Answered?
    ensures Run(s, Acts(s, h, site, sha), sha) == s && Next(s, h, site, sha) == h
  {
  }

  // ----- every interleaving -----

  lemma {:induction false} InterleavingKeeps(s: System, h: Handler, site: Site, moves: seq<Move>, sha: Bytes -> Digest)
    requires SystemOk(s, sha) && HandlerOk(s, h, site) && AllForeign(moves, site.gateway)
    ensures var (s', h') := Interleave(s, h, site, moves, sha);
            SystemOk(s', sha) && HandlerOk(s', h', site)
    decreases moves
  {
    hide DbOk, LiveOk, HandlerOk, Acts, Next, Step, Extends, Foreign;
    if moves != [] {
      match moves[0]
      case Own =>
        OwnStep(s, h, site, sha);
        InterleavingKeeps(Run(s, Acts(s, h, site, sha), sha), Next(s, h, site, sha), site, moves[1..], sha);
      case Other(action) =>
        var s' := Step(s, action, sha);
        StepKeeps(s, action, sha);
        OthersLeaveGateway(s, action, site, sha);
        DistinctKeys(s'.db);
        KeptByOthers(s, s', h, site);
        InterleavingKeeps(s', h, site, moves[1..], sha);
    }
  }

  /** From any reachable state and however its steps interleave with gateways, workers, other
      requests and crashes: whenever the handler has acknowledged a frame, the frame is on
      record byte for byte under the packet the answer names, and its job has left the
      table's first state; and that stays so. */
  lemma InterleavedAnswerIsTruthful(actions: seq<Action>, site: Site, moves: seq<Move>, sha: Bytes -> Digest)
    requires var s := Run(START, actions, sha);
             site.gateway !in s.gateways && site.request.receivedAt <= s.now
    requires AllForeign(moves, site.gateway)
    ensures var (s', h) := Interleave(Run(START, actions, sha), Arrived, site, moves, sha);
            h.Answered? ==> Truthful(s'.db, h.response, site.request.body)
  {
    hide SystemOk, Run, Interleave, Truthful;
    Reachable(actions, sha);
    InterleavingKeeps(Run(START, actions, sha), Arrived, site, moves, sha);
  }
}
