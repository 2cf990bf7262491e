/** The handler and the recovery, run without interruption, are runs of the pipeline. So
    what holds of all runs holds between their steps too. */
module GatewayRuns {
  import opened Wire
  import opened FrameCodec
  import opened JobLifecycle
  import opened Storage
  import opened StorageInvariant
  import opened Pipeline
  import opened PipelineSafety
  import opened PipelineRedecode
  import Flow = GatewayFlow
  import Q = RedisQueue

  function StoresOf(s: System): Flow.Stores {
    Flow.Stores(s.db, s.queue)
  }

  function WithStores(s: System, stores: Flow.Stores): System {
    s.(db := stores.db, queue := stores.queue)
  }

  // ----- a list of jobs, one by one -----

  lemma EnqueueGoesOn(s: System, gateway: GatewayId, job: JobId, rest: seq<JobId>, sha: Bytes -> Digest)
    requires gateway !in s.gateways && job < |s.db.jobs|
    ensures var (queue, answer) := Q.Enqueue(s.queue, MessageOf(s.db, job));
            Step(NextInList(s, gateway, [job] + rest), Enqueue(gateway), sha) ==
            if answer == -1 then s else s.(queue := queue, gateways := s.gateways[gateway := ToMark(job, rest)])
  {
    hide Q.Enqueue;
    assert ([job] + rest)[1..] == rest;
    assert s.gateways[gateway := ToEnqueue(job, rest)] - {gateway} == s.gateways;
    assert s.gateways[gateway := ToEnqueue(job, rest)][gateway := ToMark(job, rest)]
           == s.gateways[gateway := ToMark(job, rest)];
  }

  lemma NoGatewayNoMark(s: System, gateway: GatewayId, sha: Bytes -> Digest)
    requires gateway !in s.gateways
    ensures Step(s, Mark(gateway), sha) == s
  {
  }

  lemma MarkGoesOn(s: System, gateway: GatewayId, job: JobId, rest: seq<JobId>, sha: Bytes -> Digest)
    requires gateway !in s.gateways
    ensures var (db, marked) := MarkJobQueued(s.db, job, job);
            Step(s.(gateways := s.gateways[gateway := ToMark(job, rest)]), Mark(gateway), sha) ==
            if marked.Ok? then NextInList(s.(db := db), gateway, rest) else s
  {
    hide MarkJobQueued;
    assert s.gateways[gateway := ToMark(job, rest)] - {gateway} == s.gateways;
    if rest != [] {
      var next := ToEnqueue(rest[0], rest[1..]);
      assert s.gateways[gateway := ToMark(job, rest)][gateway := next] == s.gateways[gateway := next];
    }
  }

  /** Enqueue and mark the first of the list; a refusal ends the whole list. */
  lemma QueueFirst(s: System, gateway: GatewayId, job: JobId, rest: seq<JobId>, sha: Bytes -> Digest)
    requires gateway !in s.gateways && job < |s.db.jobs|
    ensures var (stores, queued) := Flow.QueueOne(StoresOf(s), MessageOf(s.db, job));
            Step(Step(NextInList(s, gateway, [job] + rest), Enqueue(gateway), sha), Mark(gateway), sha) ==
            if queued.Ok? then NextInList(WithStores(s, stores), gateway, rest) else WithStores(s, stores)
  {
    hide Q.Enqueue, MarkJobQueued, Step, NextInList;
    var (queue, answer) := Q.Enqueue(s.queue, MessageOf(s.db, job));
    EnqueueGoesOn(s, gateway, job, rest, sha);
    RefusedEnqueueChangesNothing(s.queue, MessageOf(s.db, job));
    RefusedMarkChangesNothing(s.db, job);
    if answer == -1 {
      NoGatewayNoMark(s, gateway, sha);
    } else {
      MarkGoesOn(s.(queue := queue), gateway, job, rest, sha);
    }
  }

  lemma {:induction false} ListIsRun(s: System, gateway: GatewayId, ids: seq<JobId>, sha: Bytes -> Digest)
    returns (actions: seq<Action>)
    requires gateway !in s.gateways && forall i :: 0 <= i < |ids| ==> ids[i] < |s.db.jobs|
    ensures Run(NextInList(s, gateway, ids), actions, sha) == WithStores(s, Flow.RecoverList(StoresOf(s), ids).0)
    decreases ids
  {
    hide Step, Flow.QueueOne;
    if ids == [] {
      assert s.gateways - {gateway} == s.gateways;
      return [];
    }
    var job, rest := ids[0], ids[1..];
    var (stores, queued) := Flow.QueueOne(StoresOf(s), MessageOf(s.db, job));
    assert ids == [job] + rest;
    QueueFirst(s, gateway, job, rest, sha);
    var later := [];
    if queued.Ok? {
      QueueKeepsJobs(s, job);
      later := ListIsRun(WithStores(s, stores), gateway, rest, sha);
    }
    actions := [Enqueue(gateway)] + ([Mark(gateway)] + later);
    var start := NextInList(s, gateway, ids);
    Run1(start, Enqueue(gateway), [Mark(gateway)] + later, sha);
    Run1(Step(start, Enqueue(gateway), sha), Mark(gateway), later, sha);
  }

  lemma QueueKeepsJobs(s: System, job: JobId)
    requires job < |s.db.jobs|
    ensures |Flow.QueueOne(StoresOf(s), MessageOf(s.db, job)).0.db.jobs| == |s.db.jobs|
  {
  }

  /** A recovery is a run of the pipeline. */
  lemma RecoveryIsRun(s: System, gateway: GatewayId, limit: int, sha: Bytes -> Digest) returns (actions: seq<Action>)
    requires gateway !in s.gateways
    ensures Run(s, actions, sha) == WithStores(s, Flow.RecoverPendingJobs(StoresOf(s), s.now, limit).0)
  {
    hide NextInList, Flow.RecoverList, RecoverableAmong;
    match RecoverableJobs(s.db, s.now, limit)
    case Err(_) =>
      return [];
    case Ok(ids) =>
      forall i | 0 <= i < |ids| ensures ids[i] < |s.db.jobs| {
        assert ids[i] in ids;
      }
      var rest := ListIsRun(s, gateway, ids, sha);
      Run1(s, BeginRecovery(gateway, limit), rest, sha);
      return [BeginRecovery(gateway, limit)] + rest;
  }

  /** So is queueing one job of a request. */
  lemma QueueOneIsRun(s: System, gateway: GatewayId, job: JobId, sha: Bytes -> Digest) returns (actions: seq<Action>)
    requires gateway !in s.gateways && job < |s.db.jobs|
    ensures Run(s, actions, sha) == WithStores(s, Flow.QueueOne(StoresOf(s), MessageOf(s.db, job)).0)
  {
    hide Flow.QueueOne, NextInList;
    var rest := ListIsRun(s, gateway, [job], sha);
    Run1(s, BeginQueueing(gateway, job), rest, sha);
    return [BeginQueueing(gateway, job)] + rest;
  }

  lemma RefusedEnqueueChangesNothing(q: Q.QueueState, message: Q.QueueMessage)
    ensures Q.Enqueue(q, message).1 == -1 ==> Q.Enqueue(q, message).0 == q
  {
  }

  lemma RefusedMarkChangesNothing(db: Database, id: JobId)
    ensures MarkJobQueued(db, id, id).1.Err? ==> MarkJobQueued(db, id, id).0 == db
  {
  }

  lemma RejectIsRun(s: System, id: ReceiptId, reason: ReceiptReason, sha: Bytes -> Digest)
    ensures Run(s, [Reject(id, reason)], sha) == WithStores(s, Flow.Refuse(StoresOf(s), id, reason).0)
  {
    hide RejectDelivery;
    Run1(s, Reject(id, reason), [], sha);
    assert [Reject(id, reason)] + [] == [Reject(id, reason)];
  }

  // ----- which jobs a request queues -----

  /** A receipt that was accepted and did not reach the queue: its job is new. */
  lemma AwaitingJobIsNew(db: Database, id: ReceiptId)
    requires DbOk(db) && id < |db.receipts| && Flow.AwaitsQueue(db.receipts[id])
    ensures var job := FindJob(db.jobs, db.receipts[id].packet.value);
            job.Some? && db.jobs[job.value].state == PENDING_QUEUE
  {
    assert ReceiptOk(db.receipts, id, db.packets) && QueueStatusOk(db.receipts[id], db.packets, db.jobs);
    FindJobSame(db.jobs, db.packets, db.receipts[id].packet.value);
  }

  /** A receipt that reaches the decoder is not accepted yet. */
  lemma DecidedReceiptIsNotAccepted(db: Database, id: ReceiptId)
    requires DbOk(db) && id < |db.receipts|
    requires Flow.SettledReplay(db.receipts[id], id).None? && !Flow.AwaitsQueue(db.receipts[id])
    ensures db.receipts[id].status != ACCEPTED
  {
    assert ReceiptOk(db.receipts, id, db.packets) && QueueStatusOk(db.receipts[id], db.packets, db.jobs);
  }

  /** Whatever an acceptance answers, a job it asks to queue is new. */
  predicate AsksForNewJob(db: Database, accepted: AcceptanceResult) {
    !accepted.conflict && accepted.job.Some? && (accepted.duplicate ==> accepted.queueStatus == AWAITS_QUEUE) ==>
      && accepted.packet.Some?
      && accepted.job.value < |db.jobs|
      && db.jobs[accepted.job.value].packet == accepted.packet.value
      && db.jobs[accepted.job.value].state == PENDING_QUEUE
  }

  lemma AcceptanceAsks(db: Database, id: ReceiptId, values: TelemetryFrame, maxAttempts: int)
    requires SequencesOk(db.packets, db.sequences) && id < |db.receipts| && db.receipts[id].status != ACCEPTED
    ensures var (db', outcome) := AcceptPacket(db, id, values, maxAttempts);
            outcome.Ok? ==> AsksForNewJob(db', outcome.value)
  {
    if Decides(db, id, values, maxAttempts) {
      var at := FindPacket(db.packets, KeyOf(values));
      if at.None? {
        var entry := NewKeyShape(db, id, values, maxAttempts);
        var placed := NewKeyIsPlaced(db, KeyOf(values));
      }
    }
  }

  lemma AnswerIsRun(s: System, accepted: AcceptanceResult, gateway: GatewayId, sha: Bytes -> Digest)
    returns (actions: seq<Action>)
    requires gateway !in s.gateways && AsksForNewJob(s.db, accepted)
    ensures Run(s, actions, sha) == WithStores(s, Flow.AfterAcceptance(StoresOf(s), accepted).0)
  {
    hide Flow.QueueOne;
    if !accepted.conflict && accepted.job.Some? && (accepted.duplicate ==> accepted.queueStatus == AWAITS_QUEUE) {
      actions := QueueOneIsRun(s, gateway, accepted.job.value, sha);
    } else {
      actions := [];
    }
  }

  lemma DecideIsRun(
    s: System, request: Flow.Request, id: ReceiptId, maxAttempts: int, gateway: GatewayId, sha: Bytes -> Digest)
    returns (actions: seq<Action>)
    requires SequencesOk(s.db.packets, s.db.sequences) && gateway !in s.gateways
    requires id < |s.db.receipts| && s.db.receipts[id].status != ACCEPTED
    requires s.db.receipts[id].rawBody == request.body && request.receivedAt <= s.now
    ensures Run(s, actions, sha) == WithStores(s, Flow.Decide(StoresOf(s), request, id, maxAttempts).0)
  {
    hide Decode, AcceptPacket, SequencesOk, Flow.AfterAcceptance, RejectDelivery, AsksForNewJob;
    match Decode(request.body, request.receivedAt)
    case Err(error) =>
      if error.Rejected? {
        RejectIsRun(s, id, FrameRule(error.reason), sha);
        return [Reject(id, FrameRule(error.reason))];
      }
      return [];
    case Ok(values) =>
      var accept := Accept(id, request.receivedAt, maxAttempts);
      var (db, outcome) := AcceptPacket(s.db, id, values, maxAttempts);
      AcceptanceAsks(s.db, id, values, maxAttempts);
      Run1(s, accept, [], sha);
      if outcome.Err? {
        assert [accept] + [] == [accept];
        return [accept];
      }
      var rest := AnswerIsRun(s.(db := db), outcome.value, gateway, sha);
      Run1(s, accept, rest, sha);
      return [accept] + rest;
  }

  /** The receipt the handler goes on with carries the delivered bytes. */
  lemma RecordedBody(db: Database, sha: Bytes -> Digest, request: Flow.Request)
    ensures var (db', recorded) := RecordDelivery(db, sha, request.body, request.requestId, request.receivedAt);
            recorded.Ok? && !recorded.value.requestConflict ==>
              && recorded.value.receipt < |db'.receipts|
              && db'.receipts[recorded.value.receipt].rawBody == request.body
              && (!recorded.value.requestReplay ==> db'.receipts[recorded.value.receipt].status == PENDING)
  {
  }

  lemma ProceedIsRun(
    s: System, request: Flow.Request, delivery: DeliveryResult, maxAttempts: int, gateway: GatewayId,
    sha: Bytes -> Digest)
    returns (actions: seq<Action>)
    requires DbOk(s.db) && gateway !in s.gateways && request.receivedAt <= s.now
    requires !delivery.requestConflict ==>
               && delivery.receipt < |s.db.receipts|
               && s.db.receipts[delivery.receipt].rawBody == request.body
               && (!delivery.requestReplay ==> s.db.receipts[delivery.receipt].status == PENDING)
    ensures Run(s, actions, sha) == WithStores(s, Flow.Proceed(StoresOf(s), request, delivery, maxAttempts).0)
  {
    hide DbOk, Flow.Decide, Flow.Refuse, Flow.QueueOne;
    var id := delivery.receipt;
    if delivery.requestConflict || (delivery.requestReplay && Flow.SettledReplay(s.db.receipts[id], id).Some?) {
      return [];
    }
    if !request.octetStream {
      RejectIsRun(s, id, INVALID_CONTENT_TYPE, sha);
      return [Reject(id, INVALID_CONTENT_TYPE)];
    }
    if request.requestId.None? {
      RejectIsRun(s, id, INVALID_REQUEST_ID, sha);
      return [Reject(id, INVALID_REQUEST_ID)];
    }
    if delivery.requestReplay && Flow.AwaitsQueue(s.db.receipts[id]) {
      AwaitingJobIsNew(s.db, id);
      var job := FindJob(s.db.jobs, s.db.receipts[id].packet.value).value;
      actions := QueueOneIsRun(s, gateway, job, sha);
      return;
    }
    if delivery.requestReplay {
      DecidedReceiptIsNotAccepted(s.db, id);
    }
    SequencesHold(s.db);
    actions := DecideIsRun(s, request, id, maxAttempts, gateway, sha);
  }

  /** Every request is a run of the pipeline, from any state the pipeline can be in. */
  lemma HandleIsRun(s: System, request: Flow.Request, maxAttempts: int, gateway: GatewayId, sha: Bytes -> Digest)
    returns (actions: seq<Action>)
    requires DbOk(s.db) && gateway !in s.gateways && request.receivedAt <= s.now
    ensures Run(s, actions, sha) == WithStores(s, Flow.Handle(StoresOf(s), sha, request, maxAttempts).0)
  {
    hide DbOk, RecordDelivery, Flow.Proceed, Extends;
    if |request.body| > MAX_EVIDENCE_BODY_BYTES {
      return [];
    }
    var record := Record(request.body, request.requestId, request.receivedAt);
    var (db, recorded) := RecordDelivery(s.db, sha, request.body, request.requestId, request.receivedAt);
    RecordKeepsDbOk(s.db, sha, request.body, request.requestId, request.receivedAt);
    RecordedBody(s.db, sha, request);
    if recorded.Err? {
      Run1(s, record, [], sha);
      assert [record] + [] == [record];
      return [record];
    }
    var rest := ProceedIsRun(s.(db := db), request, recorded.value, maxAttempts, gateway, sha);
    Run1(s, record, rest, sha);
    return [record] + rest;
  }
}
