/** The gateway process, step by step over its repository and its queue. */
module GroundApi {
  import opened Outcomes
  import opened FrameCodec
  import opened JobLifecycle
  import opened Storage
  import opened StorageInvariant
  import opened TransactionEffects
  import opened Repository
  import opened QueueAdapter
  import Flow = GatewayFlow
  import Q = RedisQueue

  class Gateway {
    const repository: TelemetryRepository
    const queue: TelemetryQueue
    const processingMaximumAttempts: int

    function Stores(): Flow.Stores
      reads repository, queue
    {
      Flow.Stores(repository.Snapshot(), queue.State())
    }

    constructor (repository: TelemetryRepository, queue: TelemetryQueue, processingMaximumAttempts: int)
      ensures this.repository == repository && this.queue == queue
      ensures this.processingMaximumAttempts == processingMaximumAttempts
    {
      this.repository, this.queue := repository, queue;
      this.processingMaximumAttempts := processingMaximumAttempts;
    }

    /** Redis first, then the table; a refused mark leaves the reference in the queue. */
    method QueueOne(job: JobId, packet: PacketKey) returns (outcome: Result<bool, Flow.FlowError>)
      requires repository.Valid()
      modifies repository, queue
      ensures (Stores(), outcome) == Flow.QueueOne(old(Stores()), Q.QueueMessage(job, packet))
      ensures repository.Valid() && Extends(old(repository.Snapshot()), repository.Snapshot())
    {
      ExtendsReflexive(repository.Snapshot());
      var enqueued := queue.Enqueue(Q.QueueMessage(job, packet));
      if enqueued.Err? {
        return Err(Flow.QueueConflictError);
      }
      var marked := repository.MarkJobQueued(job, job);
      match marked
      case Ok(moved) => return Ok(moved);
      case Err(error) => return Err(Flow.StorageFault(error));
    }

    method RecoverPendingJobs(now: int, limit: int) returns (outcome: Result<nat, Flow.FlowError>)
      requires repository.Valid()
      modifies repository, queue
      ensures (Stores(), outcome) == Flow.RecoverPendingJobs(old(Stores()), now, limit)
      ensures repository.Valid() && Extends(old(repository.Snapshot()), repository.Snapshot())
    {
      hide DbOk, Extends, Flow.QueueOne, RecoverableAmong, ListsWaiting, Recoverable;
      var recovered := 0;
      ExtendsReflexive(repository.Snapshot());
      var listed := repository.RecoverableQueueJobs(limit, now);
      if listed.Err? {
        return Err(Flow.StorageFault(listed.error));
      }
      var ids := listed.value;
      ghost var before := Stores();
      for i := 0 to |ids|
        invariant repository.Valid() && Extends(before.db, repository.Snapshot())
        invariant var (end, rest) := Flow.RecoverList(Stores(), ids[i..]);
                  Flow.RecoverList(before, ids) ==
                  (end, match rest case Ok(count) => Ok(recovered + count) case Err(error) => Err(error))
      {
        assert ids[i..][0] == ids[i] && ids[i..][1..] == ids[i + 1..];
        ghost var middle := Stores();
        if ids[i] < |repository.jobs| {
          var queued := QueueOne(ids[i], repository.jobs[ids[i]].packet);
          ExtendsTransitive(before.db, middle.db, repository.Snapshot());
          if queued.Err? {
            return Err(queued.error);
          }
          if queued.value {
            recovered := recovered + 1;
          }
        }
      }
      return Ok(recovered);
    }

    method Reject(id: ReceiptId, reason: ReceiptReason) returns (response: Flow.Response)
      requires repository.Valid()
      modifies repository
      ensures (Stores(), response) == Flow.Refuse(old(Stores()), id, reason)
      ensures repository.Valid()
    {
      var rejected := repository.RejectDelivery(id, reason);
      match rejected
      case Ok(_) => return Flow.Refused(id, reason);
      case Err(error) => return Flow.Raised(Flow.StorageFault(error));
    }

    method ReceivePayloadData(request: Flow.Request) returns (response: Flow.Response)
      requires repository.Valid()
      modifies repository, queue
      ensures (Stores(), response) == Flow.Handle(old(Stores()), repository.sha, request, processingMaximumAttempts)
      ensures repository.Valid()
    {
      if |request.body| > MAX_EVIDENCE_BODY_BYTES {
        return Flow.TooLarge;
      }
      var recorded := repository.RecordDelivery(request.body, request.requestId, request.receivedAt);
      if recorded.Err? {
        return Flow.Raised(Flow.StorageFault(recorded.error));
      }
      response := Proceed(request, recorded.value);
    }

    method Proceed(request: Flow.Request, delivery: DeliveryResult) returns (response: Flow.Response)
      requires repository.Valid()
      modifies repository, queue
      ensures (Stores(), response) == Flow.Proceed(old(Stores()), request, delivery, processingMaximumAttempts)
      ensures repository.Valid()
    {
      hide DbOk, Extends, Flow.Decide, Flow.Refuse, Flow.QueueOne;
      var id := delivery.receipt;
      if delivery.requestConflict {
        return Flow.RequestConflict(id);
      }
      var existing: Option<Receipt> := None;
      if delivery.requestReplay {
        if id >= |repository.receipts| {
          return Flow.Raised(Flow.RuntimeError);
        }
        existing := Some(repository.receipts[id]);
        if existing.value.status == REJECTED {
          return Flow.RejectedReplay(id, existing.value.reason);
        }
        if existing.value.status in {ACCEPTED, DUPLICATE} && existing.value.queueStatus == REACHED_QUEUE {
          return Flow.QueuedReplay(id, existing.value.packet, existing.value.status == DUPLICATE);
        }
      }
      if !request.octetStream {
        response := Reject(id, INVALID_CONTENT_TYPE);
        return;
      }
      if request.requestId.None? {
        response := Reject(id, INVALID_REQUEST_ID);
        return;
      }
      if existing.Some? && existing.value.status == ACCEPTED && existing.value.queueStatus == AWAITS_QUEUE
         && existing.value.packet.Some? {
        var job := FindJob(repository.jobs, existing.value.packet.value);
        if job.None? {
          return Flow.Raised(Flow.RuntimeError);
        }
        var transitioned := QueueOne(job.value, existing.value.packet.value);
        if transitioned.Err? {
          return Flow.Raised(transitioned.error);
        }
        return Flow.Requeued(id, existing.value.packet.value, transitioned.value);
      }
      response := Decide(request, id);
    }

    method Decide(request: Flow.Request, id: ReceiptId) returns (response: Flow.Response)
      requires repository.Valid()
      modifies repository, queue
      ensures (Stores(), response) == Flow.Decide(old(Stores()), request, id, processingMaximumAttempts)
      ensures repository.Valid()
    {
      var frame := Decode(request.body, request.receivedAt);
      if frame.Err? {
        if !frame.error.Rejected? {
          return Flow.Raised(Flow.UnnamedError);
        }
        response := Reject(id, FrameRule(frame.error.reason));
        return;
      }
      var outcome := repository.AcceptPacketAndCreateJob(id, frame.value, processingMaximumAttempts);
      if outcome.Err? {
        return Flow.Raised(Flow.StorageFault(outcome.error));
      }
      response := AnswerAcceptance(outcome.value);
    }

    method AnswerAcceptance(accepted: AcceptanceResult) returns (response: Flow.Response)
      requires repository.Valid()
      modifies repository, queue
      ensures (Stores(), response) == Flow.AfterAcceptance(old(Stores()), accepted)
      ensures repository.Valid()
    {
      if accepted.conflict {
        return Flow.SequenceConflict(accepted.receipt);
      }
      if accepted.duplicate {
        if accepted.queueStatus == AWAITS_QUEUE && accepted.job.Some? && accepted.packet.Some? {
          var queued := QueueOne(accepted.job.value, accepted.packet.value);
          if queued.Err? {
            return Flow.Raised(queued.error);
          }
        }
        return Flow.AlreadyKnown(accepted.receipt, accepted.packet);
      }
      if accepted.job.None? || accepted.packet.None? {
        return Flow.Raised(Flow.RuntimeError);
      }
      var queued := QueueOne(accepted.job.value, accepted.packet.value);
      if queued.Err? {
        return Flow.Raised(queued.error);
      }
      return Flow.Queued(accepted.receipt, accepted.packet.value);
    }
  }
}
