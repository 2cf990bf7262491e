/** What the ground gateway does to the two stores when nothing interrupts it: one
    request, and the recovery at start-up. */
module GatewayFlow {
  import opened Outcomes
  import opened Wire
  import opened FrameCodec
  import opened JobLifecycle
  import opened Storage
  import Q = RedisQueue

  datatype Stores = Stores(db: Database, queue: Q.QueueState)

  datatype FlowError = QueueConflictError | StorageFault(error: StorageError) | RuntimeError | UnnamedError

  /** The answer to a delivery; Raised is an exception that leaves the handler. */
  datatype Response =
    | TooLarge
    | RequestConflict(receipt: ReceiptId)
    | RejectedReplay(receipt: ReceiptId, storedReason: Option<ReceiptReason>)
    | QueuedReplay(receipt: ReceiptId, storedPacket: Option<PacketKey>, duplicate: bool)
    | Requeued(receipt: ReceiptId, packet: PacketKey, transitioned: bool)
    | Refused(receipt: ReceiptId, reason: ReceiptReason)
    | SequenceConflict(receipt: ReceiptId)
    | AlreadyKnown(receipt: ReceiptId, storedPacket: Option<PacketKey>)
    | Queued(receipt: ReceiptId, packet: PacketKey)
    | Raised(error: FlowError)

  function QueueOne(s: Stores, message: Q.QueueMessage): (Stores, Result<bool, FlowError>) {
    var (queue, answer) := Q.Enqueue(s.queue, message);
    if answer == -1 then (s, Err(QueueConflictError))
    else
      var (db, marked) := MarkJobQueued(s.db, message.job, message.job);
      (Stores(db, queue), match marked case Ok(moved) => Ok(moved) case Err(error) => Err(StorageFault(error)))
  }

  // ----- start-up recovery -----

  function RecoverList(s: Stores, ids: seq<JobId>): (Stores, Result<nat, FlowError>)
    decreases ids
  {
    if ids == [] then (s, Ok(0))
    else if ids[0] >= |s.db.jobs| then RecoverList(s, ids[1..])
    else
      var (s', queued) := QueueOne(s, Q.QueueMessage(ids[0], s.db.jobs[ids[0]].packet));
      match queued
      case Err(error) => (s', Err(error))
      case Ok(moved) =>
        var (end, rest) := RecoverList(s', ids[1..]);
        (end, match rest case Ok(count) => Ok(count + if moved then 1 else 0) case Err(error) => Err(error))
  }

  function RecoverPendingJobs(s: Stores, now: int, limit: int): (Stores, Result<nat, FlowError>) {
    match RecoverableJobs(s.db, now, limit)
    case Err(error) => (s, Err(StorageFault(error)))
    case Ok(ids) => RecoverList(s, ids)
  }

  // ----- one delivery -----

  datatype Request = Request(body: Bytes, requestId: Option<RequestId>, octetStream: bool, receivedAt: int)

  /** The answer after a rejection, which itself may find the delivery decided already. */
  function Refuse(s: Stores, id: ReceiptId, reason: ReceiptReason): (Stores, Response) {
    var (db, outcome) := RejectDelivery(s.db, id, reason);
    (s.(db := db), match outcome case Ok(_) => Refused(id, reason) case Err(error) => Raised(StorageFault(error)))
  }

  /** The request id came before with the same bytes, and that delivery is settled. */
  function SettledReplay(receipt: Receipt, id: ReceiptId): Option<Response> {
    if receipt.status == REJECTED then Some(RejectedReplay(id, receipt.reason))
    else if receipt.status in {ACCEPTED, DUPLICATE} && receipt.queueStatus == REACHED_QUEUE then
      Some(QueuedReplay(id, receipt.packet, receipt.status == DUPLICATE))
    else None
  }

  /** It was accepted, but did not reach the queue. */
  predicate AwaitsQueue(receipt: Receipt) {
    receipt.status == ACCEPTED && receipt.queueStatus == AWAITS_QUEUE && receipt.packet.Some?
  }

  function Requeue(s: Stores, id: ReceiptId, packet: PacketKey): (Stores, Response) {
    var job := FindJob(s.db.jobs, packet);
    if job.None? then (s, Raised(RuntimeError))
    else
      var (s', queued) := QueueOne(s, Q.QueueMessage(job.value, packet));
      (s', match queued case Ok(moved) => Requeued(id, packet, moved) case Err(error) => Raised(error))
  }

  function Decide(s: Stores, request: Request, id: ReceiptId, maxAttempts: int): (Stores, Response) {
    match Decode(request.body, request.receivedAt)
    case Err(error) =>
      if error.Rejected? then Refuse(s, id, FrameRule(error.reason)) else (s, Raised(UnnamedError))
    case Ok(values) =>
      var (db, outcome) := AcceptPacket(s.db, id, values, maxAttempts);
      match outcome
      case Err(error) => (s.(db := db), Raised(StorageFault(error)))
      case Ok(accepted) => AfterAcceptance(s.(db := db), accepted)
  }

  function AfterAcceptance(s: Stores, accepted: AcceptanceResult): (Stores, Response) {
    if accepted.conflict then (s, SequenceConflict(accepted.receipt))
    else if accepted.duplicate then
      if accepted.queueStatus == AWAITS_QUEUE && accepted.job.Some? && accepted.packet.Some? then
        var (s', queued) := QueueOne(s, Q.QueueMessage(accepted.job.value, accepted.packet.value));
        (s', match queued
             case Ok(_) => AlreadyKnown(accepted.receipt, accepted.packet)
             case Err(error) => Raised(error))
      else (s, AlreadyKnown(accepted.receipt, accepted.packet))
    else if accepted.job.None? || accepted.packet.None? then (s, Raised(RuntimeError))
    else
      var (s', queued) := QueueOne(s, Q.QueueMessage(accepted.job.value, accepted.packet.value));
      (s', match queued case Ok(_) => Queued(accepted.receipt, accepted.packet.value) case Err(error) => Raised(error))
  }

  /** After the delivery is on record. */
  function Proceed(s: Stores, request: Request, delivery: DeliveryResult, maxAttempts: int): (Stores, Response) {
    var id := delivery.receipt;
    if delivery.requestConflict then (s, RequestConflict(id))
    else if delivery.requestReplay && id >= |s.db.receipts| then (s, Raised(RuntimeError))
    else if delivery.requestReplay && SettledReplay(s.db.receipts[id], id).Some? then
      (s, SettledReplay(s.db.receipts[id], id).value)
    else if !request.octetStream then Refuse(s, id, INVALID_CONTENT_TYPE)
    else if request.requestId.None? then Refuse(s, id, INVALID_REQUEST_ID)
    else if delivery.requestReplay && AwaitsQueue(s.db.receipts[id]) then
      Requeue(s, id, s.db.receipts[id].packet.value)
    else Decide(s, request, id, maxAttempts)
  }

  function Handle(s: Stores, sha: Bytes -> Digest, request: Request, maxAttempts: int): (Stores, Response) {
    if |request.body| > MAX_EVIDENCE_BODY_BYTES then (s, TooLarge)
    else
      var (db, recorded) := RecordDelivery(s.db, sha, request.body, request.requestId, request.receivedAt);
      match recorded
      case Err(error) => (s.(db := db), Raised(StorageFault(error)))
      case Ok(delivery) => Proceed(s.(db := db), request, delivery, maxAttempts)
  }

  function HandleAll(s: Stores, sha: Bytes -> Digest, requests: seq<Request>, maxAttempts: int): Stores
    decreases requests
  {
    if requests == [] then s else HandleAll(Handle(s, sha, requests[0], maxAttempts).0, sha, requests[1..], maxAttempts)
  }
}
