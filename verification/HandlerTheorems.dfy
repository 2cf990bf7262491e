/** The handler machine against the handler's own flow: undisturbed it is that flow, and a
    request that comes after a loss of Redis does not help stranded work. */
module HandlerTheorems {
  import opened Outcomes
  import opened Wire
  import opened FrameCodec
  import opened JobLifecycle
  import opened Storage
  import opened StorageInvariant
  import opened Pipeline
  import opened PipelineInvariant
  import PipelineSafety
  import opened PipelineStranded
  import opened GatewayRuns
  import opened GatewayPromises
  import opened HandlerRuns
  import Flow = GatewayFlow
  import Ledger = SequenceLedger
  import Q = RedisQueue

  // ----- undisturbed -----

  function Marked(s: Flow.Stores, promise: Promise, job: JobId): (Flow.Stores, Flow.Response) {
    var (db, marked) := MarkJobQueued(s.db, job, job);
    (s.(db := db), if marked.Ok? then Fulfil(promise, marked.value) else Flow.Raised(Flow.StorageFault(marked.error)))
  }

  function QueuedUp(s: Flow.Stores, promise: Promise, job: JobId): (Flow.Stores, Flow.Response) {
    var (stores, queued) := Flow.QueueOne(s, Q.QueueMessage(job, promise.packet));
    (stores, match queued case Ok(moved) => Fulfil(promise, moved) case Err(error) => Flow.Raised(error))
  }

  /** The rest of the flow from a position of the handler. */
  function FlowFrom(s: Flow.Stores, h: Handler, site: Site, sha: Bytes -> Digest): (Flow.Stores, Flow.Response) {
    match h
    case Arrived => Flow.Handle(s, sha, site.request, site.maxAttempts)
    case OnFile(delivery) => Flow.Proceed(s, site.request, delivery, site.maxAttempts)
    case Refusing(receipt, reason) => Flow.Refuse(s, receipt, reason)
    case Resuming(receipt, packet) => Flow.Requeue(s, receipt, packet)
    case Deciding(receipt) => Flow.Decide(s, site.request, receipt, site.maxAttempts)
    case Queueing(promise, job) => QueuedUp(s, promise, job)
    case Marking(promise, job) => Marked(s, promise, job)
    case Answered(response) => (s, response)
  }

  function StepsLeft(h: Handler): nat {
    match h
    case Arrived => 5
    case OnFile(_) => 4
    case Deciding(_) => 3
    case Resuming(_, _) => 3
    case Queueing(_, _) => 2
    case Marking(_, _) => 1
    case Refusing(_, _) => 1
    case Answered(_) => 0
  }

  lemma NextIsNearer(s: System, h: Handler, site: Site, sha: Bytes -> Digest)
    ensures h.Answered? || StepsLeft(Next(s, h, site, sha)) < StepsLeft(h)
  {
    hide RecordDelivery, AcceptPacket, Decode, FindJob, MarkJobQueued, Q.Enqueue;
  }

  lemma QueueingFollows(s: System, promise: Promise, job: JobId, site: Site, sha: Bytes -> Digest)
    requires HandlerOk(s, Queueing(promise, job), site)
    ensures var h := Queueing(promise, job);
            var s', h' := Run(s, Acts(s, h, site, sha), sha), Next(s, h, site, sha);
            FlowFrom(StoresOf(s'), h', site, sha) == FlowFrom(StoresOf(s), h, site, sha)
  {
    hide Leads, Q.Enqueue, MarkJobQueued, IsStored, Truthful;
    LeadsToJob(s.db, promise.packet, job, site.request.body);
    RunOne(s, Enqueue(site.gateway), sha);
    RefusedEnqueueChangesNothing(s.queue, MessageOf(s.db, job));
  }

  lemma MarkingFollows(s: System, promise: Promise, job: JobId, site: Site, sha: Bytes -> Digest)
    requires HandlerOk(s, Marking(promise, job), site)
    ensures var h := Marking(promise, job);
            var s', h' := Run(s, Acts(s, h, site, sha), sha), Next(s, h, site, sha);
            FlowFrom(StoresOf(s'), h', site, sha) == FlowFrom(StoresOf(s), h, site, sha)
  {
    hide Leads, MarkJobQueued, IsStored, Truthful;
    RunOne(s, Mark(site.gateway), sha);
    RefusedMarkChangesNothing(s.db, job);
  }

  /** Taking a job up changes no store. */
  lemma BeginChangesNoStore(s: System, gateway: GatewayId, job: JobId, sha: Bytes -> Digest)
    ensures StoresOf(Step(s, BeginQueueing(gateway, job), sha)) == StoresOf(s)
  {
  }

  lemma ResumingFollows(s: System, receipt: ReceiptId, packet: PacketKey, site: Site, sha: Bytes -> Digest)
    requires HandlerOk(s, Resuming(receipt, packet), site)
    ensures var h := Resuming(receipt, packet);
            var s', h' := Run(s, Acts(s, h, site, sha), sha), Next(s, h, site, sha);
            FlowFrom(StoresOf(s'), h', site, sha) == FlowFrom(StoresOf(s), h, site, sha)
  {
    hide Step, Flow.QueueOne, IsStored;
    var job := FindJob(s.db.jobs, packet);
    if job.Some? {
      RunOne(s, BeginQueueing(site.gateway, job.value), sha);
      BeginChangesNoStore(s, site.gateway, job.value, sha);
    }
  }

  lemma DecidingFollows(s: System, receipt: ReceiptId, site: Site, sha: Bytes -> Digest)
    requires HandlerOk(s, Deciding(receipt), site)
    ensures var h := Deciding(receipt);
            var s', h' := Run(s, Acts(s, h, site, sha), sha), Next(s, h, site, sha);
            FlowFrom(StoresOf(s'), h', site, sha) == FlowFrom(StoresOf(s), h, site, sha)
  {
    hide Decode, AcceptPacket, Step, Flow.QueueOne, RejectDelivery;
    match Decode(site.request.body, site.request.receivedAt)
    case Err(_) =>
    case Ok(values) =>
      var accept := Accept(receipt, site.request.receivedAt, site.maxAttempts);
      AcceptIsStep(s, receipt, values, site, sha);
      RunOne(s, accept, sha);
      var next := Next(s, Deciding(receipt), site, sha);
      if next.Queueing? {
        var begin := BeginQueueing(site.gateway, next.job);
        Run1(s, accept, [begin], sha);
        RunOne(Step(s, accept, sha), begin, sha);
        BeginChangesNoStore(Step(s, accept, sha), site.gateway, next.job, sha);
      } else {
        assert [accept] + [] == [accept];
      }
  }

  lemma RecordFollows(s: System, site: Site, sha: Bytes -> Digest)
    requires HandlerOk(s, Arrived, site)
    ensures var s', h' := Run(s, Acts(s, Arrived, site, sha), sha), Next(s, Arrived, site, sha);
            FlowFrom(StoresOf(s'), h', site, sha) == FlowFrom(StoresOf(s), Arrived, site, sha)
  {
    hide RecordDelivery, Flow.Proceed;
    if |site.request.body| <= MAX_EVIDENCE_BODY_BYTES {
      RunOne(s, Record(site.request.body, site.request.requestId, site.request.receivedAt), sha);
    }
  }

  lemma ReadFollows(s: System, delivery: DeliveryResult, site: Site, sha: Bytes -> Digest)
    requires HandlerOk(s, OnFile(delivery), site)
    ensures var h := OnFile(delivery);
            var s', h' := Run(s, Acts(s, h, site, sha), sha), Next(s, h, site, sha);
            FlowFrom(StoresOf(s'), h', site, sha) == FlowFrom(StoresOf(s), h, site, sha)
  {
    hide Flow.Decide, Flow.Requeue, Flow.Refuse;
  }

  lemma RefuseFollows(s: System, receipt: ReceiptId, reason: ReceiptReason, site: Site, sha: Bytes -> Digest)
    ensures var h := Refusing(receipt, reason);
            var s', h' := Run(s, Acts(s, h, site, sha), sha), Next(s, h, site, sha);
            FlowFrom(StoresOf(s'), h', site, sha) == FlowFrom(StoresOf(s), h, site, sha)
  {
    hide RejectDelivery;
    RunOne(s, Reject(receipt, reason), sha);
  }

  lemma OwnStepFollows(s: System, h: Handler, site: Site, sha: Bytes -> Digest)
    requires HandlerOk(s, h, site)
    ensures var s', h' := Run(s, Acts(s, h, site, sha), sha), Next(s, h, site, sha);
            FlowFrom(StoresOf(s'), h', site, sha) == FlowFrom(StoresOf(s), h, site, sha)
  {
    hide FlowFrom, Acts, Next, HandlerOk;
    match h
    case Arrived => RecordFollows(s, site, sha);
    case OnFile(delivery) => ReadFollows(s, delivery, site, sha);
    case Refusing(receipt, reason) => RefuseFollows(s, receipt, reason, site, sha);
    case Resuming(receipt, packet) => ResumingFollows(s, receipt, packet, site, sha);
    case Deciding(receipt) => DecidingFollows(s, receipt, site, sha);
    case Queueing(promise, job) => QueueingFollows(s, promise, job, site, sha);
    case Marking(promise, job) => MarkingFollows(s, promise, job, site, sha);
    case Answered(_) => AnsweredStays(s, h, site, sha);
  }

  function Undisturbed(n: nat): seq<Move> {
    if n == 0 then [] else [Own] + Undisturbed(n - 1)
  }

  lemma {:induction false} OwnStepsFollow(s: System, h: Handler, site: Site, n: nat, sha: Bytes -> Digest)
    requires SystemOk(s, sha) && HandlerOk(s, h, site) && StepsLeft(h) <= n
    ensures var (s', h') := Interleave(s, h, site, Undisturbed(n), sha);
            h'.Answered? && (StoresOf(s'), h'.response) == FlowFrom(StoresOf(s), h, site, sha)
    decreases n
  {
    hide SystemOk, HandlerOk, Acts, Next;
    if n == 0 {
      assert h.Answered?;
    } else {
      var s', h' := Run(s, Acts(s, h, site, sha), sha), Next(s, h, site, sha);
      OwnStep(s, h, site, sha);
      OwnStepFollows(s, h, site, sha);
      NextIsNearer(s, h, site, sha);
      if h.Answered? {
        AnsweredStays(s, h, site, sha);
      }
      assert Undisturbed(n)[1..] == Undisturbed(n - 1);
      OwnStepsFollow(s', h', site, n - 1, sha);
    }
  }

  /** Undisturbed, five steps of the handler machine are the request handler. */
  lemma UndisturbedIsHandle(s: System, site: Site, sha: Bytes -> Digest)
    requires SystemOk(s, sha) && site.gateway !in s.gateways && site.request.receivedAt <= s.now
    ensures var (s', h) := Interleave(s, Arrived, site, Undisturbed(5), sha);
            h.Answered? && (StoresOf(s'), h.response) == Flow.Handle(StoresOf(s), sha, site.request, site.maxAttempts)
  {
    hide SystemOk, Interleave, Flow.Handle;
    OwnStepsFollow(s, Arrived, site, 5, sha);
  }

  // ----- after a loss of Redis -----

  /** The handler is not about to queue this job. */
  predicate Away(db: Database, h: Handler, id: JobId) {
    && id < |db.jobs| && id < |db.packets|
    && match h
       case OnFile(delivery) =>
         !delivery.requestConflict && !delivery.requestReplay ==> delivery.receipt != db.packets[id].source
       case Resuming(_, packet) => packet != db.jobs[id].packet
       case Deciding(receipt) => receipt != db.packets[id].source
       case Queueing(_, job) => job != id
       case Marking(_, job) => job != id
       case _ => true
  }

  lemma AwayForever(db: Database, later: Database, h: Handler, id: JobId)
    requires Away(db, h, id) && Extends(db, later)
    ensures Away(later, h, id)
  {
    assert JobKept(db.jobs[id], later.jobs[id]);
  }

  /** The delivery that brought a packet whose job is past its first state is settled. */
  lemma SourceIsSettled(db: Database, id: JobId)
    requires DbOk(db) && id < |db.jobs| && db.jobs[id].state == PROCESSING
    ensures id < |db.packets| && db.packets[id].source < |db.receipts|
    ensures Flow.SettledReplay(db.receipts[db.packets[id].source], db.packets[id].source).Some?
    ensures FindJob(db.jobs, db.jobs[id].packet) == Some(id)
  {
    var source := db.packets[id].source;
    assert PacketOk(db.packets[id], db.receipts);
    assert QueueStatusOk(db.receipts[source], db.packets, db.jobs);
    FindUnique(db.packets, id);
    FindJobSame(db.jobs, db.packets, db.jobs[id].packet);
  }

  lemma ReadGoesAway(s: System, delivery: DeliveryResult, site: Site, sha: Bytes -> Digest, id: JobId)
    requires DbOk(s.db) && id < |s.db.jobs| && s.db.jobs[id].state == PROCESSING
    requires Away(s.db, OnFile(delivery), id)
    ensures Away(s.db, Next(s, OnFile(delivery), site, sha), id)
  {
    hide DbOk, Flow.SettledReplay;
    SourceIsSettled(s.db, id);
    var receipt := delivery.receipt;
    if delivery.requestReplay && receipt < |s.db.receipts| && Flow.AwaitsQueue(s.db.receipts[receipt]) {
      AwaitingJobIsNew(s.db, delivery.receipt);
    }
  }

  /** An acceptance asks to queue a new job, or the job of its own delivery. */
  lemma AcceptanceGoesAway(db: Database, receipt: ReceiptId, values: TelemetryFrame, maxAttempts: int, id: JobId)
    requires DbOk(db) && id < |db.jobs| && db.jobs[id].state == PROCESSING
    requires id < |db.packets| && receipt != db.packets[id].source
    ensures var outcome := AcceptPacket(db, receipt, values, maxAttempts).1;
            outcome.Ok? ==> var next := AfterAcceptance(outcome.value); next.Queueing? ==> next.job != id
  {
    hide DbOk, AcceptStoredKey, AcceptNewKey, StoredAcceptance, AfterAcceptance;
    if Decides(db, receipt, values, maxAttempts) {
      var at := FindPacket(db.packets, KeyOf(values));
      if at.Some? {
        StoredKeyGoesAway(db, receipt, db.packets[at.value], id);
      } else {
        NewKeyGoesAway(db, receipt, values, maxAttempts, id);
      }
    } else if receipt < |db.receipts| && db.receipts[receipt].status in {ACCEPTED, DUPLICATE} {
      StoredGoesAway(db, receipt, id);
    }
  }

  lemma StoredKeyGoesAway(db: Database, receipt: ReceiptId, packet: Packet, id: JobId)
    requires receipt < |db.receipts| && id < |db.jobs| && db.jobs[id].state == PROCESSING
    ensures var next := AfterAcceptance(AcceptStoredKey(db, receipt, packet).1);
            next.Queueing? ==> next.job != id
  {
  }

  lemma NewKeyGoesAway(db: Database, receipt: ReceiptId, values: TelemetryFrame, maxAttempts: int, id: JobId)
    requires receipt < |db.receipts| && id < |db.jobs|
    ensures var next := AfterAcceptance(AcceptNewKey(db, receipt, values, maxAttempts).1);
            next.Queueing? ==> next.job != id
  {
    hide Ledger.Place;
  }

  lemma StoredGoesAway(db: Database, receipt: ReceiptId, id: JobId)
    requires DbOk(db) && receipt < |db.receipts| && db.receipts[receipt].status in {ACCEPTED, DUPLICATE}
    requires id < |db.jobs| && db.jobs[id].state == PROCESSING && id < |db.packets| && receipt != db.packets[id].source
    ensures var next := AfterAcceptance(StoredAcceptance(db, receipt)); next.Queueing? ==> next.job != id
  {
    hide DbOk;
    StoredJob(db, receipt);
  }

  lemma StoredJob(db: Database, receipt: ReceiptId)
    requires DbOk(db) && receipt < |db.receipts| && db.receipts[receipt].status in {ACCEPTED, DUPLICATE}
    ensures var job := StoredAcceptance(db, receipt).job;
            && job.Some? && job.value < |db.jobs| && job.value < |db.packets|
            && (db.receipts[receipt].status == ACCEPTED ==> db.packets[job.value].source == receipt)
            && StoredAcceptance(db, receipt).queueStatus == QueueStatusOf(db.jobs[job.value].state)
  {
    assert ReceiptOk(db.receipts, receipt, db.packets);
    FindJobSame(db.jobs, db.packets, db.receipts[receipt].packet.value);
  }

  lemma DecideGoesAway(s: System, receipt: ReceiptId, site: Site, sha: Bytes -> Digest, id: JobId)
    requires DbOk(s.db) && id < |s.db.jobs| && s.db.jobs[id].state == PROCESSING
    requires Away(s.db, Deciding(receipt), id)
    ensures NeverQueues(Acts(s, Deciding(receipt), site, sha), id)
    ensures Away(s.db, Next(s, Deciding(receipt), site, sha), id)
  {
    hide DbOk, Decode, AcceptPacket;
    match Decode(site.request.body, site.request.receivedAt)
    case Err(_) =>
    case Ok(values) => AcceptanceGoesAway(s.db, receipt, values, site.maxAttempts, id);
  }

  lemma RecordGoesAway(s: System, site: Site, sha: Bytes -> Digest, id: JobId)
    requires DbOk(s.db) && id < |s.db.jobs| && s.db.jobs[id].state == PROCESSING && id < |s.db.packets|
    ensures Away(s.db, Next(s, Arrived, site, sha), id)
  {
    hide DbOk, Flow.SettledReplay;
    SourceIsSettled(s.db, id);
  }

  lemma OwnStepGoesAway(s: System, h: Handler, site: Site, sha: Bytes -> Digest, id: JobId)
    requires DbOk(s.db) && id < |s.db.jobs| && s.db.jobs[id].state == PROCESSING && Away(s.db, h, id)
    ensures NeverQueues(Acts(s, h, site, sha), id)
    ensures Away(s.db, Next(s, h, site, sha), id)
  {
    hide DbOk, RecordDelivery, RejectDelivery, AcceptPacket, Decode, MarkJobQueued, Q.Enqueue;
    match h
    case Arrived => RecordGoesAway(s, site, sha, id);
    case OnFile(delivery) => ReadGoesAway(s, delivery, site, sha, id);
    case Deciding(receipt) => DecideGoesAway(s, receipt, site, sha, id);
    case _ =>
  }

  lemma {:induction false} RunKeepsTables(s: System, actions: seq<Action>, sha: Bytes -> Digest)
    requires DbOk(s.db)
    ensures DbOk(Run(s, actions, sha).db) && Extends(s.db, Run(s, actions, sha).db)
    decreases actions
  {
    hide DbOk, Extends, Step;
    if actions == [] {
      ExtendsReflexive(s.db);
    } else {
      var s' := Step(s, actions[0], sha);
      PipelineSafety.StepKeepsTables(s, actions[0], sha);
      RunKeepsTables(s', actions[1..], sha);
      ExtendsTransitive(s.db, s'.db, Run(s, actions, sha).db);
    }
  }

  predicate OthersNeverQueue(moves: seq<Move>, id: JobId) {
    forall i :: 0 <= i < |moves| && moves[i].Other? && moves[i].action.BeginQueueing? ==> moves[i].action.job != id
  }

  lemma {:induction false} InterleavingLeavesStranded(
    s: System, h: Handler, site: Site, moves: seq<Move>, sha: Bytes -> Digest, id: JobId)
    requires DbOk(s.db) && Stranded(s, id) && Away(s.db, h, id) && OthersNeverQueue(moves, id)
    ensures SameRow(s, Interleave(s, h, site, moves, sha).0, id)
    decreases moves
  {
    hide DbOk, Extends, Acts, Next, Step, Run, Away;
    if moves != [] {
      match moves[0]
      case Own =>
        var acts, next := Acts(s, h, site, sha), Next(s, h, site, sha);
        OwnStepGoesAway(s, h, site, sha, id);
        StrandedForever(s, acts, sha, id);
        RunKeepsTables(s, acts, sha);
        AwayForever(s.db, Run(s, acts, sha).db, next, id);
        InterleavingLeavesStranded(Run(s, acts, sha), next, site, moves[1..], sha, id);
      case Other(action) =>
        StepLeavesStranded(s, action, sha, id);
        PipelineSafety.StepKeepsTables(s, action, sha);
        AwayForever(s.db, Step(s, action, sha).db, h, id);
        InterleavingLeavesStranded(Step(s, action, sha), h, site, moves[1..], sha, id);
    }
  }

  /** A request that arrives when the job is stranded does not take it up again, be it a
      replay of the delivery that brought it, a redelivery of its frame, or anything else. */
  lemma LateRequestLeavesStranded(s: System, site: Site, moves: seq<Move>, sha: Bytes -> Digest, id: JobId)
    requires DbOk(s.db) && Stranded(s, id) && OthersNeverQueue(moves, id)
    ensures SameRow(s, Interleave(s, Arrived, site, moves, sha).0, id)
  {
    hide DbOk, Stranded, Interleave;
    assert Away(s.db, Arrived, id) by { JobHasPacket(s, id); }
    InterleavingLeavesStranded(s, Arrived, site, moves, sha, id);
  }

  lemma JobHasPacket(s: System, id: JobId)
    requires DbOk(s.db) && Stranded(s, id)
    ensures id < |s.db.jobs| && id < |s.db.packets|
  {
  }
}
