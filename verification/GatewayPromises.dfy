/** What the gateway promises a vendor: an acknowledged frame is safe, and sending it
    again changes nothing. */
module GatewayPromises {
  import opened Outcomes
  import opened Wire
  import opened FrameCodec
  import opened JobLifecycle
  import opened Storage
  import opened StorageInvariant
  import opened Pipeline
  import opened PipelineInvariant
  import opened PipelineSafety
  import opened PipelineRedecode
  import opened GatewayFlow
  import opened GatewayRuns
  import GatewayRecovery
  import Rules = SequenceRules

  // ----- a frame that is stored already -----

  /** The tables but for receipts and request ids are as they were; at most new jobs
      reached the queue. */
  predicate SameEvidence(db: Database, db': Database) {
    && db'.packets == db.packets
    && db'.sequences == db.sequences
    && db'.results == db.results
    && |db'.jobs| == |db.jobs|
    && forall id :: 0 <= id < |db.jobs| ==>
         db'.jobs[id] == db.jobs[id]
         || (db.jobs[id].state == PENDING_QUEUE && db'.jobs[id] == GatewayRecovery.InQueue(db.jobs[id], id))
  }

  lemma SameEvidenceTransitive(a: Database, b: Database, c: Database)
    requires SameEvidence(a, b) && SameEvidence(b, c)
    ensures SameEvidence(a, c)
  {
  }

  lemma QueueOneKeepsEvidence(s: Stores, id: JobId)
    requires JobsOk(s.db.jobs, s.db.packets) && id < |s.db.jobs| && s.db.jobs[id].state == PENDING_QUEUE
    ensures var (s', queued) := QueueOne(s, MessageOf(s.db, id));
            && SameEvidence(s.db, s'.db)
            && (queued.Ok? ==> s'.db.jobs[id].state == JobState.QUEUED)
  {
    GatewayRecovery.MarkEffect(s.db, id);
  }

  /** Equal bytes decode to the values, and so to the key, of the stored packet. */
  lemma SameBytesSameKey(packet: Packet, receipts: seq<Receipt>, at: int)
    requires AuthenticPacket(packet, receipts) && Decode(receipts[packet.source].rawBody, at).Ok?
    ensures Decode(receipts[packet.source].rawBody, at).value == packet.values
  {
    hide Decode, WireForm, Pack, Unpack;
    var body := receipts[packet.source].rawBody;
    var values := Decode(body, at).value;
    EncodeInvertsDecode(body, at);
    WireFormParts(values);
    WireFormParts(packet.values);
    UnpackPack(values);
    UnpackPack(packet.values);
  }

  lemma AnswerKeepsEvidence(s: Stores, accepted: AcceptanceResult)
    requires JobsOk(s.db.jobs, s.db.packets) && AsksForNewJob(s.db, accepted)
    ensures SameEvidence(s.db, AfterAcceptance(s, accepted).0.db)
  {
    hide QueueOne, JobsOk;
    if !accepted.conflict && accepted.job.Some? && (accepted.duplicate ==> accepted.queueStatus == AWAITS_QUEUE) {
      QueueOneKeepsEvidence(s, accepted.job.value);
    }
  }

  lemma StoredKeyKeepsEvidence(db: Database, id: ReceiptId, values: TelemetryFrame, maxAttempts: int)
    requires FindPacket(db.packets, KeyOf(values)).Some?
    ensures var db' := AcceptPacket(db, id, values, maxAttempts).0;
            && db' == db.(receipts := db'.receipts)
            && |db'.receipts| == |db.receipts|
  {
  }

  lemma RejectKeepsEvidence(s: Stores, id: ReceiptId, reason: ReceiptReason)
    ensures SameEvidence(s.db, Refuse(s, id, reason).0.db)
  {
  }

  lemma DecideKnown(s: Stores, request: Request, id: ReceiptId, maxAttempts: int, i: nat)
    requires DbOk(s.db) && Authentic(s.db) && id < |s.db.receipts| && s.db.receipts[id].status != ACCEPTED
    requires i < |s.db.packets| && s.db.packets[i].source < |s.db.receipts|
    requires s.db.receipts[s.db.packets[i].source].rawBody == request.body
    ensures SameEvidence(s.db, Decide(s, request, id, maxAttempts).0.db)
  {
    hide DbOk, Decode, AcceptPacket, AsksForNewJob, AfterAcceptance, Refuse;
    match Decode(request.body, request.receivedAt)
    case Err(error) =>
      if error.Rejected? {
        RejectKeepsEvidence(s, id, FrameRule(error.reason));
      }
    case Ok(values) =>
      assert AuthenticPacket(s.db.packets[i], s.db.receipts);
      SameBytesSameKey(s.db.packets[i], s.db.receipts, request.receivedAt);
      assert PacketOk(s.db.packets[i], s.db.receipts) by { TablesOk(s.db); }
      assert FindPacket(s.db.packets, KeyOf(values)).Some?;
      var (db, outcome) := AcceptPacket(s.db, id, values, maxAttempts);
      StoredKeyKeepsEvidence(s.db, id, values, maxAttempts);
      SequencesHold(s.db);
      TablesOk(s.db);
      AcceptanceAsks(s.db, id, values, maxAttempts);
      if outcome.Ok? {
        AnswerKeepsEvidence(s.(db := db), outcome.value);
      }
  }

  lemma ProceedKnown(s: Stores, request: Request, delivery: DeliveryResult, maxAttempts: int, i: nat)
    requires DbOk(s.db) && Authentic(s.db)
    requires !delivery.requestConflict ==>
               && delivery.receipt < |s.db.receipts|
               && (!delivery.requestReplay ==> s.db.receipts[delivery.receipt].status == PENDING)
    requires i < |s.db.packets| && s.db.packets[i].source < |s.db.receipts|
    requires s.db.receipts[s.db.packets[i].source].rawBody == request.body
    ensures SameEvidence(s.db, Proceed(s, request, delivery, maxAttempts).0.db)
  {
    hide DbOk, Decide, Refuse, QueueOne, Authentic;
    var id := delivery.receipt;
    if delivery.requestConflict || (delivery.requestReplay && SettledReplay(s.db.receipts[id], id).Some?) {
    } else if !request.octetStream {
      RejectKeepsEvidence(s, id, INVALID_CONTENT_TYPE);
    } else if request.requestId.None? {
      RejectKeepsEvidence(s, id, INVALID_REQUEST_ID);
    } else if delivery.requestReplay && AwaitsQueue(s.db.receipts[id]) {
      AwaitingJobIsNew(s.db, id);
      TablesOk(s.db);
      QueueOneKeepsEvidence(s, FindJob(s.db.jobs, s.db.receipts[id].packet.value).value);
    } else {
      if delivery.requestReplay {
        DecidedReceiptIsNotAccepted(s.db, id);
      }
      DecideKnown(s, request, id, maxAttempts, i);
    }
  }

  predicate Preserved(db: Database, i: nat, body: Bytes) {
    && i < |db.packets|
    && db.packets[i].source < |db.receipts|
    && db.receipts[db.packets[i].source].rawBody == body
  }

  lemma PreservedForever(db: Database, later: Database, i: nat, body: Bytes)
    requires Preserved(db, i, body) && Extends(db, later)
    ensures Preserved(later, i, body)
  {
    assert ReceiptKept(db.receipts[db.packets[i].source], later.receipts[db.packets[i].source]);
  }

  lemma HandleKnown(s: Stores, sha: Bytes -> Digest, request: Request, maxAttempts: int, i: nat)
    requires DbOk(s.db) && Authentic(s.db) && Preserved(s.db, i, request.body)
    ensures SameEvidence(s.db, Handle(s, sha, request, maxAttempts).0.db)
  {
    hide DbOk, Authentic, RecordDelivery, Extends, Proceed;
    if |request.body| <= MAX_EVIDENCE_BODY_BYTES {
      var (db, recorded) := RecordDelivery(s.db, sha, request.body, request.requestId, request.receivedAt);
      RecordKeepsDbOk(s.db, sha, request.body, request.requestId, request.receivedAt);
      RecordedBody(s.db, sha, request);
      AuthenticityKept(s.db, db);
      PreservedForever(s.db, db, i, request.body);
      if recorded.Ok? {
        ProceedKnown(s.(db := db), request, recorded.value, maxAttempts, i);
        SameEvidenceTransitive(s.db, db, Handle(s, sha, request, maxAttempts).0.db);
      }
    }
  }

  /** A request at the present moment leaves a pipeline state a pipeline state. */
  lemma HandleKeepsSystemOk(s: System, sha: Bytes -> Digest, request: Request, maxAttempts: int)
    requires SystemOk(s, sha) && s.gateways == map[] && request.receivedAt <= s.now
    ensures var s' := WithStores(s, Handle(StoresOf(s), sha, request, maxAttempts).0);
            SystemOk(s', sha) && Extends(s.db, s'.db)
  {
    hide LiveOk, Handle, Run;
    var actions := HandleIsRun(s, request, maxAttempts, 0, sha);
    RunKeeps(s, actions, sha);
  }

  predicate InOrder(requests: seq<Request>, from: int) {
    && (forall i :: 0 <= i < |requests| ==> from <= requests[i].receivedAt)
    && (forall i, k :: 0 <= i < k < |requests| ==> requests[i].receivedAt <= requests[k].receivedAt)
  }

  /** Redelivering a stored frame any number of times, under the same or new request ids
      and with good or bad headers, adds no packet and no job and leaves the sequence rows
      and the results as they are. */
  lemma {:induction false} RedeliveryAddsNothing(
    s: System, sha: Bytes -> Digest, requests: seq<Request>, maxAttempts: int, i: nat, body: Bytes)
    requires SystemOk(s, sha) && Preserved(s.db, i, body) && InOrder(requests, s.now)
    requires forall r :: r in requests ==> r.body == body
    ensures SameEvidence(s.db, HandleAll(StoresOf(s), sha, requests, maxAttempts).db)
    decreases requests
  {
    hide DbOk, LiveOk, Handle, Extends, SameEvidence, Preserved;
    if requests == [] {
      assert SameEvidence(s.db, s.db) by { SameEvidenceReflexive(s.db); }
    } else {
      var request := requests[0];
      assert request in requests;
      var now := AtTime(s, sha, request.receivedAt);
      HandleKeepsSystemOk(now, sha, request, maxAttempts);
      AuthenticOf(now, sha);
      HandleKnown(StoresOf(s), sha, request, maxAttempts, i);
      var next := WithStores(now, Handle(StoresOf(s), sha, request, maxAttempts).0);
      PreservedForever(s.db, next.db, i, body);
      RedeliveryAddsNothing(next, sha, requests[1..], maxAttempts, i, body);
      SameEvidenceTransitive(s.db, next.db, HandleAll(StoresOf(s), sha, requests, maxAttempts).db);
    }
  }

  lemma SameEvidenceReflexive(db: Database)
    ensures SameEvidence(db, db)
  {
  }

  /** The stores as they are, later, with no other request open. */
  lemma AtTime(s: System, sha: Bytes -> Digest, at: int) returns (later: System)
    requires SystemOk(s, sha) && s.now <= at
    ensures later == s.(gateways := map[], now := at) && SystemOk(later, sha)
  {
    TickKeeps(s, at - s.now, sha);
    later := s.(gateways := map[], now := at);
  }

  // ----- an acknowledged frame -----

  predicate Acknowledges(response: Response) {
    response.Queued? || response.Requeued? || response.QueuedReplay? || response.AlreadyKnown?
  }

  /** The packet an acknowledgement names. */
  function NamedPacket(response: Response): Option<PacketKey>
    requires Acknowledges(response)
  {
    match response
    case Queued(_, packet) => Some(packet)
    case Requeued(_, packet, _) => Some(packet)
    case QueuedReplay(_, packet, _) => packet
    case AlreadyKnown(_, packet) => packet
  }

  /** The packet is stored with these bytes, and its job has left the table's first state. */
  predicate OnRecord(db: Database, key: PacketKey, body: Bytes) {
    var at := FindPacket(db.packets, key);
    && at.Some?
    && Preserved(db, at.value, body)
    && at.value < |db.jobs|
    && db.jobs[at.value].packet == key
    && db.jobs[at.value].state != PENDING_QUEUE
  }

  predicate Truthful(db: Database, response: Response, body: Bytes) {
    Acknowledges(response) ==> NamedPacket(response).Some? && OnRecord(db, NamedPacket(response).value, body)
  }

  /** An accepted receipt leads to its packet and job; a duplicate one leads to the
      packet with the same bytes. */
  lemma ReceiptLeadsToPacket(db: Database, id: ReceiptId)
    requires DbOk(db) && id < |db.receipts| && db.receipts[id].status in {ACCEPTED, DUPLICATE}
    ensures db.receipts[id].packet.Some?
    ensures var key := db.receipts[id].packet.value;
            var at := FindPacket(db.packets, key);
            && at.Some?
            && Preserved(db, at.value, db.receipts[id].rawBody)
            && FindJob(db.jobs, key) == at
            && at.value < |db.jobs|
            && (db.receipts[id].queueStatus == REACHED_QUEUE ==> db.jobs[at.value].state != PENDING_QUEUE)
  {
    assert ReceiptOk(db.receipts, id, db.packets) && QueueStatusOk(db.receipts[id], db.packets, db.jobs);
    FindJobSame(db.jobs, db.packets, db.receipts[id].packet.value);
  }

  lemma QueuedIsOnRecord(s: Stores, id: JobId, body: Bytes)
    requires JobsOk(s.db.jobs, s.db.packets) && KeysDistinct(s.db.packets)
    requires id < |s.db.jobs| && s.db.jobs[id].state == PENDING_QUEUE && Preserved(s.db, id, body)
    ensures var (s', queued) := QueueOne(s, MessageOf(s.db, id));
            queued.Ok? ==> OnRecord(s'.db, s.db.jobs[id].packet, body)
  {
    GatewayRecovery.MarkEffect(s.db, id);
    FindUnique(s.db.packets, id);
  }

  /** An acceptance that is not a conflict names a stored packet with the same bytes, and
      a job of that packet. */
  predicate Answers(db: Database, accepted: AcceptanceResult, body: Bytes) {
    !accepted.conflict ==>
      && accepted.packet.Some? && accepted.job.Some?
      && var at := FindPacket(db.packets, accepted.packet.value);
         && at == accepted.job
         && Preserved(db, at.value, body)
         && at.value < |db.jobs|
         && (accepted.duplicate ==> accepted.queueStatus == QueueStatusOf(db.jobs[at.value].state))
  }

  lemma AnswerIsTruthful(s: Stores, accepted: AcceptanceResult, body: Bytes)
    requires JobsOk(s.db.jobs, s.db.packets) && KeysDistinct(s.db.packets)
    requires AsksForNewJob(s.db, accepted) && Answers(s.db, accepted, body)
    ensures var (s', response) := AfterAcceptance(s, accepted); Truthful(s'.db, response, body)
  {
    hide QueueOne;
    if !accepted.conflict && (accepted.duplicate ==> accepted.queueStatus == AWAITS_QUEUE) {
      QueuedIsOnRecord(s, accepted.job.value, body);
    }
  }

  lemma AcceptanceAnswers(db: Database, id: ReceiptId, values: TelemetryFrame, maxAttempts: int)
    requires DbOk(db) && id < |db.receipts|
    ensures var (db', outcome) := AcceptPacket(db, id, values, maxAttempts);
            outcome.Ok? ==> Answers(db', outcome.value, db.receipts[id].rawBody)
  {
    hide DbOk;
    TablesOk(db);
    SequencesHold(db);
    if Decides(db, id, values, maxAttempts) {
      var at := FindPacket(db.packets, KeyOf(values));
      if at.Some? {
        StoredKeyAnswers(db, id, KeyOf(values), at.value);
      } else {
        NewKeyAnswers(db, id, values, maxAttempts);
      }
    } else if db.receipts[id].status in {ACCEPTED, DUPLICATE} {
      ReceiptLeadsToPacket(db, id);
    }
  }

  lemma StoredKeyAnswers(db: Database, id: ReceiptId, key: PacketKey, at: nat)
    requires PacketsOk(db.packets, db.receipts) && JobsOk(db.jobs, db.packets)
    requires id < |db.receipts| && FindPacket(db.packets, key) == Some(at)
    requires db.receipts[id].status != ACCEPTED
    ensures var (db', result) := AcceptStoredKey(db, id, db.packets[at]);
            Answers(db', result, db.receipts[id].rawBody)
  {
    assert PacketOk(db.packets[at], db.receipts);
    FindJobSame(db.jobs, db.packets, key);
  }

  lemma NewKeyAnswers(db: Database, id: ReceiptId, values: TelemetryFrame, maxAttempts: int)
    requires SequencesOk(db.packets, db.sequences) && JobsOk(db.jobs, db.packets) && id < |db.receipts|
    requires Rules.IsUint32(values.sequenceNumber) && FindPacket(db.packets, KeyOf(values)).None?
    ensures var (db', result) := AcceptNewKey(db, id, values, maxAttempts);
            Answers(db', result, db.receipts[id].rawBody)
  {
    var entry := NewKeyShape(db, id, values, maxAttempts);
    var placed := NewKeyIsPlaced(db, KeyOf(values));
    var db' := AcceptNewKey(db, id, values, maxAttempts).0;
    FindAfterAppend(db.packets, db'.packets[|db.packets|], KeyOf(values));
  }

  lemma DecideIsTruthful(s: Stores, request: Request, id: ReceiptId, maxAttempts: int)
    requires DbOk(s.db) && id < |s.db.receipts| && s.db.receipts[id].status != ACCEPTED
    requires s.db.receipts[id].rawBody == request.body
    ensures var (s', response) := Decide(s, request, id, maxAttempts); Truthful(s'.db, response, request.body)
  {
    hide DbOk, Decode, AcceptPacket, AsksForNewJob, AfterAcceptance, OnRecord, Answers, Extends, JobsOk, PacketOk;
    match Decode(request.body, request.receivedAt)
    case Err(_) =>
    case Ok(values) =>
      var (db, outcome) := AcceptPacket(s.db, id, values, maxAttempts);
      AcceptKeepsDbOk(s.db, id, values, maxAttempts);
      SequencesHold(s.db);
      TablesOk(db);
      AcceptanceAsks(s.db, id, values, maxAttempts);
      AcceptanceAnswers(s.db, id, values, maxAttempts);
      if outcome.Ok? {
        AnswerIsTruthful(s.(db := db), outcome.value, request.body);
      }
  }

  lemma RequeueIsTruthful(s: Stores, id: ReceiptId)
    requires DbOk(s.db) && id < |s.db.receipts| && AwaitsQueue(s.db.receipts[id])
    ensures var (s', response) := Requeue(s, id, s.db.receipts[id].packet.value);
            Truthful(s'.db, response, s.db.receipts[id].rawBody)
  {
    hide DbOk, QueueOne, OnRecord;
    AwaitingJobIsNew(s.db, id);
    ReceiptLeadsToPacket(s.db, id);
    TablesOk(s.db);
    QueuedIsOnRecord(s, FindJob(s.db.jobs, s.db.receipts[id].packet.value).value, s.db.receipts[id].rawBody);
  }

  lemma ReplayIsTruthful(db: Database, id: ReceiptId)
    requires DbOk(db) && id < |db.receipts| && SettledReplay(db.receipts[id], id).Some?
    ensures Truthful(db, SettledReplay(db.receipts[id], id).value, db.receipts[id].rawBody)
  {
    hide DbOk;
    TablesOk(db);
    if db.receipts[id].status in {ACCEPTED, DUPLICATE} {
      ReceiptLeadsToPacket(db, id);
    }
  }

  lemma ProceedIsTruthful(s: Stores, request: Request, delivery: DeliveryResult, maxAttempts: int)
    requires DbOk(s.db)
    requires !delivery.requestConflict ==>
               && delivery.receipt < |s.db.receipts|
               && s.db.receipts[delivery.receipt].rawBody == request.body
               && (!delivery.requestReplay ==> s.db.receipts[delivery.receipt].status == PENDING)
    ensures var (s', response) := Proceed(s, request, delivery, maxAttempts); Truthful(s'.db, response, request.body)
  {
    hide DbOk, Decide, Requeue, OnRecord, SettledReplay, AwaitsQueue;
    var id := delivery.receipt;
    if !delivery.requestConflict {
      if delivery.requestReplay && SettledReplay(s.db.receipts[id], id).Some? {
        ReplayIsTruthful(s.db, id);
      } else if delivery.requestReplay && AwaitsQueue(s.db.receipts[id]) {
        RequeueIsTruthful(s, id);
      } else {
        if delivery.requestReplay {
          DecidedReceiptIsNotAccepted(s.db, id);
        }
        DecideIsTruthful(s, request, id, maxAttempts);
      }
    }
  }

  /** Every acknowledgement is true: the frame is on record byte for byte under the packet
      the answer names, and its job has reached the queue. */
  lemma AcknowledgedIsOnRecord(s: Stores, sha: Bytes -> Digest, request: Request, maxAttempts: int)
    requires DbOk(s.db)
    ensures var (s', response) := Handle(s, sha, request, maxAttempts); Truthful(s'.db, response, request.body)
  {
    hide DbOk, RecordDelivery, Proceed, OnRecord, Extends;
    if |request.body| <= MAX_EVIDENCE_BODY_BYTES {
      var (db, recorded) := RecordDelivery(s.db, sha, request.body, request.requestId, request.receivedAt);
      RecordKeepsDbOk(s.db, sha, request.body, request.requestId, request.receivedAt);
      RecordedBody(s.db, sha, request);
      if recorded.Ok? {
        ProceedIsTruthful(s.(db := db), request, recorded.value, maxAttempts);
      }
    }
  }
}
