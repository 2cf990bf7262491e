/** The whole outcome of one request, on any consistent stores: the answer, the receipt, and
    everything else that changes, for a first delivery and for a repeated one. */
module GatewayVerdicts {
  import opened Outcomes
  import opened Wire
  import opened FrameCodec
  import opened JobLifecycle
  import opened Storage
  import opened StorageInvariant
  import opened PipelineInvariant
  import opened TransactionEffects
  import opened GatewayFlow
  import opened GatewayRecovery
  import Ledger = SequenceLedger
  import Pipeline
  import PipelineTheorems
  import PipelineRedecode
  import Q = RedisQueue

  /** Stores between two requests. */
  ghost predicate Desk(s: Stores, sha: Bytes -> Digest) {
    DbOk(s.db) && DigestsOk(s.db.receipts, sha) && MarkersMatch(s.db.jobs, s.queue)
  }

  /** Every reachable state of the pipeline is one, whatever its processes are about to do. */
  lemma ReachableDesk(actions: seq<Pipeline.Action>, sha: Bytes -> Digest)
    ensures var s := Pipeline.Run(Pipeline.START, actions, sha); Desk(Stores(s.db, s.queue), sha)
  {
    hide DbOk;
    PipelineTheorems.Reachable(actions, sha);
  }

  // ----- the outcomes, by the rows -----

  /** The delivery is rejected, and nothing else happens. */
  function RejectedAs(s: Stores, id: ReceiptId, reason: ReceiptReason): Stores
    requires id < |s.db.receipts|
  {
    s.(db := s.db.(receipts := s.db.receipts[id := s.db.receipts[id].(status := REJECTED, reason := Some(reason))]))
  }

  function WithReference(q: Q.QueueState, message: Q.QueueMessage): Q.QueueState {
    if message.job in q.markers then q
    else q.(pending := [Q.Reference(message)] + q.pending, markers := q.markers[message.job := message])
  }

  /** A new job is queued: its message is there, its row says so, and its receipts know. */
  function QueuedIn(s: Stores, id: JobId): Stores
    requires id < |s.db.jobs|
  {
    var job := s.db.jobs[id];
    Stores(
      s.db.(jobs := s.db.jobs[id := job.(state := QUEUED, queueMessage := Some(id))],
            receipts := ReceiptsReachQueue(s.db.receipts, job.packet)),
      WithReference(s.queue, Q.QueueMessage(id, job.packet)))
  }

  /** The frame is new: it is stored with its values, numbered in its session, and its job
      is queued behind all other work. */
  predicate TakenUp(s: Stores, s': Stores, id: ReceiptId, values: TelemetryFrame, maxAttempts: int)
    requires id < |s.db.receipts|
  {
    var key := PacketKey(values.payloadId, values.bootId, values.sequenceNumber);
    var n, receipt := |s.db.jobs|, s.db.receipts[id];
    var message := Q.QueueMessage(n, key);
    && |s'.db.packets| == |s.db.packets| + 1
    && var packet := s'.db.packets[|s.db.packets|];
       && s'.db == s.db.(
                     receipts := s.db.receipts[id := receipt.(
                       status := ACCEPTED, reason := None, packet := Some(key), queueStatus := REACHED_QUEUE)],
                     packets := s.db.packets + [packet],
                     sequences := s'.db.sequences,
                     jobs := s.db.jobs + [Job(key, JobState.QUEUED, Some(n), 0, maxAttempts, None, None, None)])
       && packet == Packet(key, id, values, receipt.bodyDigest, packet.placement, packet.missingBefore)
       && Ledger.Placed(
            CountsOf(s.db, SessionOf(key)),
            Ledger.Entry(values.sequenceNumber, packet.placement, packet.missingBefore))
       && s'.queue
          == s.queue.(pending := [Q.Reference(message)] + s.queue.pending, markers := s.queue.markers[n := message])
  }

  /** The frame is the stored packet `i` again. If that packet's job never reached the queue,
      it does now. */
  function FoundKnown(s: Stores, id: ReceiptId, i: nat): Stores
    requires id < |s.db.receipts| && i < |s.db.packets| && i < |s.db.jobs|
  {
    var packet := s.db.packets[i];
    var known := s.(db := s.db.(receipts := s.db.receipts[id := s.db.receipts[id].(
        status := DUPLICATE, reason := None, duplicateOf := Some(packet.source), packet := Some(packet.key))]));
    if s.db.jobs[i].state == PENDING_QUEUE then QueuedIn(known, i) else known
  }

  /** Other bytes are stored under the key: the delivery is kept as evidence, and nothing
      else happens. */
  function FoundConflict(s: Stores, id: ReceiptId, i: nat): Stores
    requires id < |s.db.receipts| && i < |s.db.packets|
  {
    var packet := s.db.packets[i];
    s.(db := s.db.(receipts := s.db.receipts[id := s.db.receipts[id].(
      status := CONFLICT, reason := Some(SEQUENCE_CONFLICT), duplicateOf := Some(packet.source),
      packet := Some(packet.key))]))
  }

  /** The stores hold a packet under this key. */
  predicate IsAt(db: Database, i: nat, key: PacketKey) {
    i < |db.packets| && i < |db.jobs| && db.packets[i].source < |db.receipts| && db.packets[i].key == key
  }

  /** How a pending delivery is decided. */
  ghost predicate Decided(
    s: Stores, s': Stores, response: Response, request: Request, id: ReceiptId, maxAttempts: int)
    requires id < |s.db.receipts|
  {
    match Decode(request.body, request.receivedAt)
    case Err(error) =>
      && error.Rejected?
      && FirstViolated(error.reason, request.body, request.receivedAt)
      && s' == RejectedAs(s, id, FrameRule(error.reason))
      && response == Refused(id, FrameRule(error.reason))
    case Ok(values) =>
      var key := PacketKey(values.payloadId, values.bootId, values.sequenceNumber);
      if forall i :: 0 <= i < |s.db.packets| ==> s.db.packets[i].key != key then
        TakenUp(s, s', id, values, maxAttempts) && response == Queued(id, key)
      else
        exists i: nat :: IsAt(s.db, i, key) &&
          if s.db.receipts[s.db.packets[i].source].rawBody == request.body then
            s' == FoundKnown(s, id, i) && response == AlreadyKnown(id, Some(key))
          else s' == FoundConflict(s, id, i) && response == SequenceConflict(id)
  }

  /** And before that, what its headers say. */
  ghost predicate Judged(
    s: Stores, s': Stores, response: Response, request: Request, id: ReceiptId, maxAttempts: int)
    requires id < |s.db.receipts|
  {
    if !request.octetStream then
      s' == RejectedAs(s, id, INVALID_CONTENT_TYPE) && response == Refused(id, INVALID_CONTENT_TYPE)
    else if request.requestId.None? then
      s' == RejectedAs(s, id, INVALID_REQUEST_ID) && response == Refused(id, INVALID_REQUEST_ID)
    else Decided(s, s', response, request, id, maxAttempts)
  }

  // ----- the steps -----

  lemma RefuseOutcome(s: Stores, id: ReceiptId, reason: ReceiptReason)
    requires DbOk(s.db) && id < |s.db.receipts|
    ensures s.db.receipts[id].status == PENDING ==>
              && Refuse(s, id, reason) == (RejectedAs(s, id, reason), Refused(id, reason))
              && DbOk(RejectedAs(s, id, reason).db)
    ensures s.db.receipts[id].status in {ACCEPTED, DUPLICATE, CONFLICT} ==>
              Refuse(s, id, reason) == (s, Raised(StorageFault(InvalidDeliveryState)))
  {
    hide RejectDelivery, Extends;
    RejectOutcome(s.db, id, reason);
    RejectKeepsDbOk(s.db, id, reason);
  }

  /** Queueing in every state of the job: the message is there in any case, once; the row moves
      if the work waits, is fine if it is queued, and refuses otherwise, and then the message
      stays. Only another packet under the same job keeps the message out, and then nothing
      changes at all. */
  lemma QueueingOutcome(s: Stores, message: Q.QueueMessage)
    requires JobsOk(s.db.jobs, s.db.packets) && message.job < |s.db.jobs|
    ensures var (s', queued) := QueueOne(s, message);
            var state := s.db.jobs[message.job].state;
            if message.job in s.queue.markers && s.queue.markers[message.job] != message then
              s' == s && queued == Err(QueueConflictError)
            else
              && s'.queue == WithReference(s.queue, message)
              && (if state in {PENDING_QUEUE, RETRY_WAIT} then
                    && queued == Ok(true)
                    && s'.db == s.db.(
                                  jobs := s.db.jobs[message.job := s.db.jobs[message.job].(
                                    state := QUEUED, queueMessage := Some(message.job), nextAttemptAt := None)],
                                  receipts := ReceiptsReachQueue(s.db.receipts, s.db.jobs[message.job].packet))
                  else
                    && s'.db == s.db
                    && queued ==
                       if state == JobState.QUEUED then Ok(false) else Err(StorageFault(InvalidDeliveryState)))
  {
    hide MarkJobQueued;
    Q.EnqueueOutcome(s.queue, message);
    MarkOutcome(s.db, message.job, message.job);
    var db' := MarkJobQueued(s.db, message.job, message.job).0;
    if db'.receipts != s.db.receipts {
      assert db'.receipts == ReceiptsReachQueue(s.db.receipts, s.db.jobs[message.job].packet);
    }
  }

  lemma QueueOneOutcome(s: Stores, id: JobId)
    requires JobsOk(s.db.jobs, s.db.packets) && MarkersMatch(s.db.jobs, s.queue)
    requires id < |s.db.jobs| && s.db.jobs[id].state == PENDING_QUEUE
    ensures QueueOne(s, Q.QueueMessage(id, s.db.jobs[id].packet)) == (QueuedIn(s, id), Ok(true))
  {
    hide QueueOne;
    assert MarkerOk(s.db.jobs, s.queue, id);
    assert JobOk(s.db.jobs[id]);
    QueueingOutcome(s, Q.QueueMessage(id, s.db.jobs[id].packet));
  }

  /** Queueing a new job leaves the desk in order. */
  lemma QueuedIsDesk(s: Stores, sha: Bytes -> Digest, id: JobId)
    requires Desk(s, sha) && id < |s.db.jobs| && s.db.jobs[id].state == PENDING_QUEUE
    ensures Desk(QueuedIn(s, id), sha)
  {
    hide DbOk, MarkersMatch, Extends, QueueOne, ReceiptsReachQueue;
    QueueOneEffect(s, id);
    TablesOk(s.db);
    QueueOneOutcome(s, id);
    assert Waits(s.db.jobs[id]);
    SameDigests(s.db, sha, QueuedIn(s, id).db);
  }

  lemma SameDigests(db: Database, sha: Bytes -> Digest, later: Database)
    requires DigestsOk(db.receipts, sha) && |later.receipts| == |db.receipts| && Extends(db, later)
    ensures DigestsOk(later.receipts, sha)
  {
    forall r | 0 <= r < |db.receipts| ensures later.receipts[r].bodyDigest == sha(later.receipts[r].rawBody) {
      assert ReceiptKept(db.receipts[r], later.receipts[r]);
    }
  }

  lemma NewDelivery(
    s: Stores, sha: Bytes -> Digest, request: Request, id: ReceiptId, values: TelemetryFrame, maxAttempts: int)
    requires Desk(s, sha) && id < |s.db.receipts| && s.db.receipts[id].status == PENDING && maxAttempts > 0
    requires Decode(request.body, request.receivedAt) == Ok(values) && ValidFrame(values)
    requires forall i :: 0 <= i < |s.db.packets| ==> s.db.packets[i].key != KeyOf(values)
    ensures var (s', response) := Decide(s, request, id, maxAttempts);
            TakenUp(s, s', id, values, maxAttempts) && response == Queued(id, KeyOf(values)) && Desk(s', sha)
  {
    hide DigestsOk, QueuedIn, DbOk, Decode, MarkersMatch, Extends, QueueOne, AcceptPacket, SequencesOk, JobsOk;
    hide ReceiptsReachQueue, Ledger.Placed;
    PipelineRedecode.SequencesHold(s.db);
    var entry := AcceptNew(s.db, id, values, maxAttempts);
    var db1 := AcceptPacket(s.db, id, values, maxAttempts).0;
    AcceptKeepsDbOk(s.db, id, values, maxAttempts);
    TablesOk(s.db);
    TablesOk(db1);
    NewIsUnmarked(s.db.jobs, db1.jobs, s.queue);
    QueueOneOutcome(Stores(db1, s.queue), |s.db.jobs|);
    SameDigests(s.db, sha, db1);
    QueuedIsDesk(Stores(db1, s.queue), sha, |s.db.jobs|);
    QueuedRows(Stores(db1, s.queue), |s.db.jobs|);
    OnlyItsReceipt(s.db, db1.receipts, id, KeyOf(values));
  }

  lemma QueuedRows(s: Stores, id: JobId)
    requires id < |s.db.jobs|
    ensures QueuedIn(s, id).db == s.db.(
              jobs := s.db.jobs[id := s.db.jobs[id].(state := JobState.QUEUED, queueMessage := Some(id))],
              receipts := ReceiptsReachQueue(s.db.receipts, s.db.jobs[id].packet))
    ensures id !in s.queue.markers ==>
              var message := Q.QueueMessage(id, s.db.jobs[id].packet);
              QueuedIn(s, id).queue
              == s.queue.(pending := [Q.Reference(message)] + s.queue.pending,
                          markers := s.queue.markers[id := message])
  {
  }

  lemma NewIsUnmarked(jobs: seq<Job>, later: seq<Job>, q: Q.QueueState)
    requires MarkersMatch(jobs, q) && jobs <= later
    ensures MarkersMatch(later, q) && |jobs| !in q.markers
  {
    assert MarkerOk(jobs, q, |jobs|);
    forall id: JobId ensures MarkerOk(later, q, id) {
      assert MarkerOk(jobs, q, id);
    }
  }

  /** No earlier receipt was accepted under a key that is not stored. */
  lemma OnlyItsReceipt(db: Database, receipts: seq<Receipt>, id: ReceiptId, key: PacketKey)
    requires DbOk(db) && id < |db.receipts| && forall i :: 0 <= i < |db.packets| ==> db.packets[i].key != key
    requires |receipts| == |db.receipts| && receipts == db.receipts[id := receipts[id]]
    requires receipts[id].status == ACCEPTED && receipts[id].packet == Some(key)
    ensures ReceiptsReachQueue(receipts, key) == db.receipts[id := receipts[id].(queueStatus := REACHED_QUEUE)]
  {
    forall r | 0 <= r < |receipts| && r != id
      ensures !(receipts[r].packet == Some(key) && receipts[r].status == ACCEPTED)
    {
      assert ReceiptOk(db.receipts, r, db.packets);
    }
  }

  lemma StoredDelivery(
    s: Stores, sha: Bytes -> Digest, request: Request, id: ReceiptId, values: TelemetryFrame, maxAttempts: int,
    i: nat)
    requires Desk(s, sha) && id < |s.db.receipts| && s.db.receipts[id].status == PENDING && maxAttempts > 0
    requires s.db.receipts[id].rawBody == request.body
    requires Decode(request.body, request.receivedAt) == Ok(values) && ValidFrame(values)
    requires i < |s.db.packets| && s.db.packets[i].key == KeyOf(values)
    ensures IsAt(s.db, i, KeyOf(values))
    ensures var (s', response) := Decide(s, request, id, maxAttempts);
            && Desk(s', sha)
            && if s.db.receipts[s.db.packets[i].source].rawBody == request.body then
                 s' == FoundKnown(s, id, i) && response == AlreadyKnown(id, Some(KeyOf(values)))
               else s' == FoundConflict(s, id, i) && response == SequenceConflict(id)
  {
    hide DigestsOk, DbOk, Decode, MarkersMatch, Extends, QueueOne, AcceptPacket, QueuedIn, JobsOk;
    AcceptStored(s.db, sha, id, values, maxAttempts, i);
    var db1 := AcceptPacket(s.db, id, values, maxAttempts).0;
    AcceptKeepsDbOk(s.db, id, values, maxAttempts);
    TablesOk(s.db);
    TablesOk(db1);
    JobOfPacket(s.db, i);
    SameDigests(s.db, sha, db1);
    if s.db.jobs[i].state == PENDING_QUEUE {
      QueueOneOutcome(Stores(db1, s.queue), i);
      QueuedIsDesk(Stores(db1, s.queue), sha, i);
    }
  }

  lemma JobOfPacket(db: Database, i: nat)
    requires JobsOk(db.jobs, db.packets) && i < |db.packets|
    ensures i < |db.jobs| && db.jobs[i].packet == db.packets[i].key
  {
  }

  lemma RejectedDigests(s: Stores, sha: Bytes -> Digest, id: ReceiptId, reason: ReceiptReason)
    requires id < |s.db.receipts| && DigestsOk(s.db.receipts, sha)
    ensures var s' := RejectedAs(s, id, reason);
            DigestsOk(s'.db.receipts, sha) && s'.db.jobs == s.db.jobs && s'.queue == s.queue
  {
  }

  lemma DecideOutcome(s: Stores, sha: Bytes -> Digest, request: Request, id: ReceiptId, maxAttempts: int)
    requires Desk(s, sha) && id < |s.db.receipts| && s.db.receipts[id].status == PENDING && maxAttempts > 0
    requires s.db.receipts[id].rawBody == request.body
    ensures var (s', response) := Decide(s, request, id, maxAttempts);
            Decided(s, s', response, request, id, maxAttempts) && Desk(s', sha)
  {
    hide DbOk, Decode, MarkersMatch, DigestsOk, Refuse, RejectedAs, FoundKnown, FoundConflict, TakenUp, FirstViolated;
    match Decode(request.body, request.receivedAt)
    case Err(error) =>
      RejectionNamesFirstRule(request.body, request.receivedAt, EMPTY_BODY);
      RejectionNamesFirstRule(request.body, request.receivedAt, error.reason);
      RefuseOutcome(s, id, FrameRule(error.reason));
      RejectedDigests(s, sha, id, FrameRule(error.reason));
    case Ok(values) =>
      EncodeInvertsDecode(request.body, request.receivedAt);
      if i: nat :| i < |s.db.packets| && s.db.packets[i].key == KeyOf(values) {
        StoredDelivery(s, sha, request, id, values, maxAttempts, i);
      } else {
        NewDelivery(s, sha, request, id, values, maxAttempts);
      }
  }

  // ----- a first delivery -----

  /** The stores with one more receipt; its request id, if any, is known from now on. */
  function Filed(s: Stores, receipt: Receipt, identities: map<RequestId, Identity>): Stores {
    s.(db := s.db.(receipts := s.db.receipts + [receipt], identities := identities))
  }

  lemma FiledIsDesk(s: Stores, sha: Bytes -> Digest, request: Request)
    requires Desk(s, sha) && |request.body| <= 1_024
    ensures var db := RecordDelivery(s.db, sha, request.body, request.requestId, request.receivedAt).0;
            Desk(s.(db := db), sha)
  {
    hide DbOk, MarkersMatch, Extends;
    RecordKeepsDbOk(s.db, sha, request.body, request.requestId, request.receivedAt);
    FiledDigests(s.db, sha, request);
  }

  lemma FiledDigests(db: Database, sha: Bytes -> Digest, request: Request)
    requires DigestsOk(db.receipts, sha)
    ensures DigestsOk(RecordDelivery(db, sha, request.body, request.requestId, request.receivedAt).0.receipts, sha)
  {
  }

  lemma ProceedOutcome(s: Stores, sha: Bytes -> Digest, request: Request, delivery: DeliveryResult, maxAttempts: int)
    requires Desk(s, sha) && delivery.receipt < |s.db.receipts| && maxAttempts > 0
    requires !delivery.requestConflict && s.db.receipts[delivery.receipt].status == PENDING
    requires s.db.receipts[delivery.receipt].rawBody == request.body
    ensures var (s', response) := Proceed(s, request, delivery, maxAttempts);
            Judged(s, s', response, request, delivery.receipt, maxAttempts) && Desk(s', sha)
  {
    hide DbOk, DigestsOk, MarkersMatch, Refuse, Decide, Decided, RejectedAs, Requeue;
    var id := delivery.receipt;
    if !request.octetStream {
      RefuseOutcome(s, id, INVALID_CONTENT_TYPE);
      RejectedDigests(s, sha, id, INVALID_CONTENT_TYPE);
    } else if request.requestId.None? {
      RefuseOutcome(s, id, INVALID_REQUEST_ID);
      RejectedDigests(s, sha, id, INVALID_REQUEST_ID);
    } else {
      DecideOutcome(s, sha, request, id, maxAttempts);
    }
  }

  /** A first delivery, whatever its bytes and headers: too large and not recorded, or on
      record byte for byte and then refused for its headers or by the first rule its bytes
      break, taken up, known, or in conflict. Nothing else changes in either store. */
  lemma FirstDeliveryOutcome(s: Stores, sha: Bytes -> Digest, request: Request, maxAttempts: int)
    requires Desk(s, sha) && maxAttempts > 0 && FirstWith(s.db.receipts, request.requestId).None?
    ensures var (s', response) := Handle(s, sha, request, maxAttempts);
            && Desk(s', sha)
            && if |request.body| > 1_024 then s' == s && response == TooLarge
               else
                 var receipt := Receipt(
                                  request.requestId, request.receivedAt, request.body, sha(request.body), PENDING,
                                  None, None, None, NOT_APPLICABLE);
                 Judged(Filed(s, receipt, s'.db.identities), s', response, request, |s.db.receipts|, maxAttempts)
  {
    hide DbOk, DigestsOk, MarkersMatch, RecordDelivery, Proceed, Judged;
    if |request.body| <= 1_024 {
      var (db, recorded) := RecordDelivery(s.db, sha, request.body, request.requestId, request.receivedAt);
      IdentitiesHold(s.db);
      RecordOutcome(s.db, sha, request.body, request.requestId, request.receivedAt);
      FiledIsDesk(s, sha, request);
      ProceedOutcome(s.(db := db), sha, request, recorded.value, maxAttempts);
      var (s', response) := Handle(s, sha, request, maxAttempts);
      JudgedKeepsIdentities(s.(db := db), s', response, request, |s.db.receipts|, maxAttempts);
    }
  }

  lemma IdentitiesHold(db: Database)
    requires DbOk(db)
    ensures IdentitiesOk(db.identities, db.receipts)
  {
  }

  lemma JudgedKeepsIdentities(
    s: Stores, s': Stores, response: Response, request: Request, id: ReceiptId, maxAttempts: int)
    requires id < |s.db.receipts| && Judged(s, s', response, request, id, maxAttempts)
    ensures s'.db.identities == s.db.identities
  {
    hide Decode, ReceiptsReachQueue, WithReference, FirstViolated;
  }

  // ----- a repeated request -----

  /** The packet that an accepted or known receipt names. */
  predicate LeadsTo(db: Database, id: ReceiptId, i: nat)
    requires id < |db.receipts|
  {
    && i < |db.packets| && i < |db.jobs|
    && db.jobs[i].packet == db.packets[i].key
    && db.receipts[id].packet == Some(db.packets[i].key)
    && db.packets[i].source < |db.receipts|
    && db.receipts[db.packets[i].source].rawBody == db.receipts[id].rawBody
    && (db.receipts[id].status == ACCEPTED ==> db.packets[i].source == id)
  }

  /** The request id came before. Other bytes are a conflict, kept as evidence. The same
      bytes find their first receipt: a rejection is told again with its reason; an accepted
      frame is told as queued, or queued now if it never was, unless the headers are bad;
      a frame that was known is known; a frame in conflict cannot be decided again; and a
      pending one is judged now. */
  ghost predicate Replayed(
    s: Stores, s': Stores, response: Response, request: Request, sha: Bytes -> Digest, id: ReceiptId,
    maxAttempts: int)
    requires id < |s.db.receipts|
  {
    var first := s.db.receipts[id];
    var undecidable := s' == s && response == Raised(StorageFault(InvalidDeliveryState));
    if first.rawBody != request.body then
      && s' == Filed(
                 s, Receipt(
                   request.requestId, request.receivedAt, request.body, sha(request.body), CONFLICT,
                   Some(REQUEST_ID_REUSED_WITH_DIFFERENT_BODY), Some(id), None, NOT_APPLICABLE), s.db.identities)
      && response == RequestConflict(|s.db.receipts|)
    else
      match first.status
      case REJECTED => s' == s && response == RejectedReplay(id, first.reason)
      case CONFLICT => undecidable
      case PENDING => Judged(s, s', response, request, id, maxAttempts)
      case ACCEPTED =>
        exists i: nat :: LeadsTo(s.db, id, i) &&
          if s.db.jobs[i].state != PENDING_QUEUE then
            s' == s && response == QueuedReplay(id, Some(s.db.packets[i].key), false)
          else if !request.octetStream then undecidable
          else s' == QueuedIn(s, i) && response == Requeued(id, s.db.packets[i].key, true)
      case DUPLICATE =>
        exists i: nat :: LeadsTo(s.db, id, i) &&
          if !request.octetStream || Decode(request.body, request.receivedAt).Err? then undecidable
          else
            && s' == (if s.db.jobs[i].state == PENDING_QUEUE then QueuedIn(s, i) else s)
            && response == AlreadyKnown(id, Some(s.db.packets[i].key))
  }

  lemma ReceiptLeads(db: Database, id: ReceiptId) returns (i: nat)
    requires DbOk(db) && id < |db.receipts| && db.receipts[id].status in {ACCEPTED, DUPLICATE}
    ensures LeadsTo(db, id, i) && FindJob(db.jobs, db.packets[i].key) == Some(i)
    ensures db.receipts[id].status == ACCEPTED ==>
              db.receipts[id].queueStatus == if db.jobs[i].state == PENDING_QUEUE then AWAITS_QUEUE else REACHED_QUEUE
    ensures db.receipts[id].status == DUPLICATE ==> db.receipts[id].queueStatus == NOT_APPLICABLE
  {
    assert ReceiptOk(db.receipts, id, db.packets) && QueueStatusOk(db.receipts[id], db.packets, db.jobs);
    i := FindPacket(db.packets, db.receipts[id].packet.value).value;
    assert PacketOk(db.packets[i], db.receipts);
    FindJobSame(db.jobs, db.packets, db.packets[i].key);
  }

  lemma AcceptedAgain(s: Stores, request: Request, delivery: DeliveryResult, maxAttempts: int) returns (i: nat)
    requires DbOk(s.db) && MarkersMatch(s.db.jobs, s.queue) && request.requestId.Some?
    requires delivery.receipt < |s.db.receipts| && delivery.requestReplay && !delivery.requestConflict
    requires s.db.receipts[delivery.receipt].status == ACCEPTED
    ensures LeadsTo(s.db, delivery.receipt, i)
    ensures Proceed(s, request, delivery, maxAttempts) ==
            if s.db.jobs[i].state != PENDING_QUEUE then
              (s, QueuedReplay(delivery.receipt, Some(s.db.packets[i].key), false))
            else if !request.octetStream then (s, Raised(StorageFault(InvalidDeliveryState)))
            else (QueuedIn(s, i), Requeued(delivery.receipt, s.db.packets[i].key, true))
  {
    hide DbOk, MarkersMatch, Refuse, QueueOne, QueuedIn, Decide, JobsOk;
    i := ReceiptLeads(s.db, delivery.receipt);
    TablesOk(s.db);
    RefuseOutcome(s, delivery.receipt, INVALID_CONTENT_TYPE);
    if s.db.jobs[i].state == PENDING_QUEUE {
      QueueOneOutcome(s, i);
    }
  }

  lemma KnownAgain(s: Stores, request: Request, delivery: DeliveryResult, maxAttempts: int) returns (i: nat)
    requires DbOk(s.db) && MarkersMatch(s.db.jobs, s.queue) && request.requestId.Some? && maxAttempts > 0
    requires delivery.receipt < |s.db.receipts| && delivery.requestReplay && !delivery.requestConflict
    requires s.db.receipts[delivery.receipt].status == DUPLICATE
    ensures LeadsTo(s.db, delivery.receipt, i)
    ensures Proceed(s, request, delivery, maxAttempts) ==
            if !request.octetStream || Decode(request.body, request.receivedAt).Err? then
              (s, Raised(StorageFault(InvalidDeliveryState)))
            else
              (if s.db.jobs[i].state == PENDING_QUEUE then QueuedIn(s, i) else s,
               AlreadyKnown(delivery.receipt, Some(s.db.packets[i].key)))
  {
    hide DbOk, MarkersMatch, Refuse, QueueOne, QueuedIn, JobsOk, Decode, AcceptPacket;
    var id := delivery.receipt;
    i := ReceiptLeads(s.db, id);
    TablesOk(s.db);
    RefuseOutcome(s, id, INVALID_CONTENT_TYPE);
    match Decode(request.body, request.receivedAt)
    case Err(error) =>
      RejectionNamesFirstRule(request.body, request.receivedAt, EMPTY_BODY);
      RefuseOutcome(s, id, FrameRule(error.reason));
    case Ok(values) =>
      EncodeInvertsDecode(request.body, request.receivedAt);
      var j := AcceptedBefore(s.db, id, values, maxAttempts);
      SamePlace(s.db, i, j, id, values, maxAttempts);
      if s.db.jobs[i].state == PENDING_QUEUE {
        QueueOneOutcome(s, i);
      }
  }

  lemma SamePlace(db: Database, i: nat, j: nat, id: ReceiptId, values: TelemetryFrame, maxAttempts: int)
    requires DbOk(db) && id < |db.receipts| && LeadsTo(db, id, i) && j < |db.packets|
    requires db.receipts[id].status in {ACCEPTED, DUPLICATE}
    requires var accepted := AcceptPacket(db, id, values, maxAttempts).1;
             accepted.Ok? && accepted.value.packet == Some(db.packets[j].key)
    requires Decides(db, id, values, maxAttempts) || AcceptPacket(db, id, values, maxAttempts).0 == db
    ensures i == j
  {
  }

  lemma ConflictAgain(s: Stores, request: Request, delivery: DeliveryResult, maxAttempts: int)
    requires DbOk(s.db) && request.requestId.Some? && maxAttempts > 0
    requires delivery.receipt < |s.db.receipts| && delivery.requestReplay && !delivery.requestConflict
    requires s.db.receipts[delivery.receipt].status == CONFLICT
    ensures Proceed(s, request, delivery, maxAttempts) == (s, Raised(StorageFault(InvalidDeliveryState)))
  {
    hide DbOk, Refuse, QueueOne, Decode, AcceptPacket;
    var id := delivery.receipt;
    RefuseOutcome(s, id, INVALID_CONTENT_TYPE);
    match Decode(request.body, request.receivedAt)
    case Err(error) =>
      RejectionNamesFirstRule(request.body, request.receivedAt, EMPTY_BODY);
      RefuseOutcome(s, id, FrameRule(error.reason));
    case Ok(values) =>
      EncodeInvertsDecode(request.body, request.receivedAt);
      AcceptRefused(s.db, id, values, maxAttempts);
  }

  lemma LeadsToJob(db: Database, id: ReceiptId, i: nat)
    requires id < |db.receipts| && LeadsTo(db, id, i)
    ensures i < |db.jobs|
  {
  }

  /** The whole outcome of a request whose request id is on record. */
  lemma ReplayOutcome(s: Stores, sha: Bytes -> Digest, request: Request, maxAttempts: int)
    requires Desk(s, sha) && maxAttempts > 0 && |request.body| <= 1_024
    requires FirstWith(s.db.receipts, request.requestId).Some?
    ensures var (s', response) := Handle(s, sha, request, maxAttempts);
            && Desk(s', sha)
            && Replayed(
                 s, s', response, request, sha, FirstWith(s.db.receipts, request.requestId).value, maxAttempts)
  {
    hide DbOk, DigestsOk, MarkersMatch, RecordDelivery, Judged, Refuse, Decide, Requeue, QueuedIn, LeadsTo;
    var id := FirstWith(s.db.receipts, request.requestId).value;
    var (db, recorded) := RecordDelivery(s.db, sha, request.body, request.requestId, request.receivedAt);
    IdentitiesHold(s.db);
    RecordOutcome(s.db, sha, request.body, request.requestId, request.receivedAt);
    FiledIsDesk(s, sha, request);
    if s.db.receipts[id].rawBody == request.body {
      match s.db.receipts[id].status
      case ACCEPTED =>
        var i := AcceptedAgain(s, request, recorded.value, maxAttempts);
        LeadsToJob(s.db, id, i);
        if s.db.jobs[i].state == PENDING_QUEUE {
          QueuedIsDesk(s, sha, i);
        }
      case DUPLICATE =>
        var i := KnownAgain(s, request, recorded.value, maxAttempts);
        LeadsToJob(s.db, id, i);
        if s.db.jobs[i].state == PENDING_QUEUE {
          QueuedIsDesk(s, sha, i);
        }
      case CONFLICT => ConflictAgain(s, request, recorded.value, maxAttempts);
      case PENDING => ProceedOutcome(s, sha, request, recorded.value, maxAttempts);
      case REJECTED =>
    }
  }
}
