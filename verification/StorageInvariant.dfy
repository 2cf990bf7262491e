/** What the tables satisfy after every transaction, and what no transaction undoes. */
module StorageInvariant {
  import opened Outcomes
  import opened Wire
  import opened FrameCodec
  import opened JobLifecycle
  import opened Storage
  import Rules = SequenceRules
  import Ledger = SequenceLedger

  // ----- the invariant, table by table -----

  predicate KeysDistinct(packets: seq<Packet>) {
    forall i, k :: 0 <= i < k < |packets| ==> packets[i].key != packets[k].key
  }

  /** A packet names the accepted receipt it came from, and that receipt names it. */
  predicate PacketOk(packet: Packet, receipts: seq<Receipt>) {
    && packet.source < |receipts|
    && receipts[packet.source].status == ACCEPTED
    && receipts[packet.source].packet == Some(packet.key)
    && receipts[packet.source].bodyDigest == packet.rawDigest
    && KeyOf(packet.values) == packet.key
  }

  predicate PacketsOk(packets: seq<Packet>, receipts: seq<Receipt>) {
    && KeysDistinct(packets)
    && forall i :: 0 <= i < |packets| ==> PacketOk(packets[i], receipts)
  }

  predicate ReceiptOk(receipts: seq<Receipt>, id: ReceiptId, packets: seq<Packet>)
    requires id < |receipts|
  {
    var receipt := receipts[id];
    var at := if receipt.packet.Some? then FindPacket(packets, receipt.packet.value) else None;
    match receipt.status
    case ACCEPTED => at.Some? && packets[at.value].source == id
    case DUPLICATE =>
      && at.Some?
      && receipt.duplicateOf == Some(packets[at.value].source)
      && packets[at.value].source < |receipts|
      && receipts[packets[at.value].source].rawBody == receipt.rawBody
    case PENDING => receipt.packet.None?
    case REJECTED => receipt.packet.None?
    case CONFLICT => true
  }

  predicate ReceiptsOk(receipts: seq<Receipt>, packets: seq<Packet>) {
    forall id :: 0 <= id < |receipts| ==> ReceiptOk(receipts, id, packets)
  }

  /** The receipt that brought a packet tells whether the packet's job left the table's
      first state; every other receipt has no queue status. */
  predicate QueueStatusOk(receipt: Receipt, packets: seq<Packet>, jobs: seq<Job>) {
    if receipt.status == ACCEPTED then
      var at := if receipt.packet.Some? then FindPacket(packets, receipt.packet.value) else None;
      at.Some? ==> at.value < |jobs| && receipt.queueStatus == QueueStatusOf(jobs[at.value].state)
    else receipt.queueStatus == NOT_APPLICABLE
  }

  predicate QueueStatusesOk(receipts: seq<Receipt>, packets: seq<Packet>, jobs: seq<Job>) {
    forall id :: 0 <= id < |receipts| ==> QueueStatusOk(receipts[id], packets, jobs)
  }

  /** The n-th job is the job of the n-th packet. */
  predicate JobsOk(jobs: seq<Job>, packets: seq<Packet>) {
    && |jobs| == |packets|
    && forall id :: 0 <= id < |jobs| ==>
         && jobs[id].packet == packets[id].key
         && JobOk(jobs[id])
         && (jobs[id].state != PENDING_QUEUE ==> jobs[id].queueMessage == Some(id))
  }

  /** A job is complete exactly when its packet has its result. */
  predicate ResultsOk(results: map<PacketKey, ResultRow>, jobs: seq<Job>) {
    && (forall id :: 0 <= id < |jobs| ==> ResultOk(results, jobs[id], id))
    && (forall key :: key in results ==> FindJob(jobs, key).Some?)
  }

  predicate ResultOk(results: map<PacketKey, ResultRow>, job: Job, id: JobId) {
    && (job.state == COMPLETE <==> job.packet in results)
    && (job.packet in results ==> results[job.packet].job == id)
  }

  /** A request id stands for the first receipt that carries it. */
  predicate IdentitiesOk(identities: map<RequestId, Identity>, receipts: seq<Receipt>) {
    && (forall id :: id in identities ==>
          && identities[id].firstReceipt < |receipts|
          && receipts[identities[id].firstReceipt].requestId == Some(id)
          && receipts[identities[id].firstReceipt].bodyDigest == identities[id].bodyDigest)
    && (forall r :: 0 <= r < |receipts| && receipts[r].requestId.Some? ==>
          && receipts[r].requestId.value in identities
          && identities[receipts[r].requestId.value].firstReceipt <= r)
  }

  /** The accepted packets of one boot session, as the ledger sees them. */
  function SessionEntries(packets: seq<Packet>, session: SessionKey): seq<Ledger.Entry> {
    if packets == [] then []
    else
      var last := packets[|packets| - 1];
      SessionEntries(packets[..|packets| - 1], session)
      + if SessionOf(last.key) == session
        then [Ledger.Entry(last.key.sequenceNumber, last.placement, last.missingBefore)] else []
  }

  predicate SessionOk(packets: seq<Packet>, sequences: map<SessionKey, SequenceRow>, session: SessionKey) {
    var entries := SessionEntries(packets, session);
    && Ledger.Legit(entries)
    && Ledger.Replay(entries) == (if session in sequences then Some(sequences[session].counts) else None)
    && (session in sequences ==>
          sequences[session].lastHighWaterPacket
          == PacketKey(session.payloadId, session.bootId, sequences[session].counts.highWater))
  }

  ghost predicate SequencesOk(packets: seq<Packet>, sequences: map<SessionKey, SequenceRow>) {
    forall session: SessionKey :: SessionOk(packets, sequences, session)
  }

  ghost predicate DbOk(db: Database) {
    && PacketsOk(db.packets, db.receipts)
    && ReceiptsOk(db.receipts, db.packets)
    && QueueStatusesOk(db.receipts, db.packets, db.jobs)
    && JobsOk(db.jobs, db.packets)
    && ResultsOk(db.results, db.jobs)
    && IdentitiesOk(db.identities, db.receipts)
    && SequencesOk(db.packets, db.sequences)
  }

  lemma NewDatabaseOk()
    ensures DbOk(NEW_DATABASE)
  {
  }

  lemma TablesOk(db: Database)
    requires DbOk(db)
    ensures PacketsOk(db.packets, db.receipts) && JobsOk(db.jobs, db.packets) && ResultsOk(db.results, db.jobs)
  {
  }

  // ----- look-ups in tables with distinct keys -----

  lemma {:induction false} FindUnique(packets: seq<Packet>, i: nat)
    requires KeysDistinct(packets) && i < |packets|
    ensures FindPacket(packets, packets[i].key) == Some(i)
  {
    if i < |packets| - 1 {
      FindUnique(packets[..|packets| - 1], i);
    }
  }

  lemma FindAfterAppend(packets: seq<Packet>, packet: Packet, key: PacketKey)
    ensures FindPacket(packets + [packet], key) ==
            if key == packet.key then Some(|packets|) else FindPacket(packets, key)
  {
    assert (packets + [packet])[..|packets|] == packets;
  }

  lemma {:induction false} FindJobSame(jobs: seq<Job>, packets: seq<Packet>, key: PacketKey)
    requires |jobs| == |packets| && forall i :: 0 <= i < |jobs| ==> jobs[i].packet == packets[i].key
    ensures FindJob(jobs, key) == FindPacket(packets, key)
  {
    if jobs != [] {
      FindJobSame(jobs[..|jobs| - 1], packets[..|jobs| - 1], key);
    }
  }

  // ----- what no transaction undoes -----

  /** Evidence is never edited, decided rows are never decided again, and every table
      only grows. */
  predicate Extends(db: Database, later: Database) {
    && |db.receipts| <= |later.receipts|
    && (forall id :: 0 <= id < |db.receipts| ==> ReceiptKept(db.receipts[id], later.receipts[id]))
    && db.packets <= later.packets
    && |db.jobs| <= |later.jobs|
    && (forall id :: 0 <= id < |db.jobs| ==> JobKept(db.jobs[id], later.jobs[id]))
    && (forall key :: key in db.results ==> key in later.results && later.results[key] == db.results[key])
    && (forall id :: id in db.identities ==> id in later.identities && later.identities[id] == db.identities[id])
  }

  predicate ReceiptKept(receipt: Receipt, later: Receipt) {
    && later.rawBody == receipt.rawBody
    && later.receivedAt == receipt.receivedAt
    && later.requestId == receipt.requestId
    && later.bodyDigest == receipt.bodyDigest
    && (receipt.status != PENDING ==>
          later.status == receipt.status && later.reason == receipt.reason && later.packet == receipt.packet
          && later.duplicateOf == receipt.duplicateOf)
  }

  predicate JobKept(job: Job, later: Job) {
    && later.packet == job.packet
    && later.maxAttempts == job.maxAttempts
    && later.attemptCount >= job.attemptCount
    && (later.state == PENDING_QUEUE ==> job.state == PENDING_QUEUE)
    && (Terminal(job) ==> later == job)
  }

  lemma ExtendsReflexive(db: Database)
    ensures Extends(db, db)
  {
  }

  lemma ExtendsTransitive(a: Database, b: Database, c: Database)
    requires Extends(a, b) && Extends(b, c)
    ensures Extends(a, c)
  {
    forall id | 0 <= id < |a.receipts| ensures ReceiptKept(a.receipts[id], c.receipts[id]) {
      assert ReceiptKept(a.receipts[id], b.receipts[id]) && ReceiptKept(b.receipts[id], c.receipts[id]);
    }
    forall id | 0 <= id < |a.jobs| ensures JobKept(a.jobs[id], c.jobs[id]) {
      assert JobKept(a.jobs[id], b.jobs[id]) && JobKept(b.jobs[id], c.jobs[id]);
    }
  }

  // ----- deliveries -----

  lemma RecordKeepsDbOk(db: Database, sha: Bytes -> Digest, body: Bytes, requestId: Option<RequestId>, now: int)
    requires DbOk(db)
    ensures var db' := RecordDelivery(db, sha, body, requestId, now).0;
            && DbOk(db')
            && Extends(db, db')
            && db' == db.(receipts := db'.receipts, identities := db'.identities)
  {
    hide FindPacket, FindJob, PacketsOk, ReceiptsOk, QueueStatusesOk, JobsOk, ResultsOk, IdentitiesOk, SequencesOk;
    var db' := RecordDelivery(db, sha, body, requestId, now).0;
    if db' != db {
      AppendKeepsDbOk(db, db'.receipts[|db.receipts|], db'.identities);
    }
  }

  lemma AppendKeepsDbOk(db: Database, receipt: Receipt, identities: map<RequestId, Identity>)
    requires DbOk(db) && (receipt.status == PENDING || receipt.status == CONFLICT)
    requires receipt.packet == None && receipt.queueStatus == NOT_APPLICABLE
    requires (identities == db.identities
              && (receipt.requestId.Some? ==> receipt.requestId.value in db.identities))
             || (receipt.requestId.Some? && receipt.requestId.value !in db.identities
                 && identities == db.identities[receipt.requestId.value := Identity(|db.receipts|, receipt.bodyDigest)])
    ensures var db' := db.(receipts := db.receipts + [receipt], identities := identities);
            DbOk(db') && Extends(db, db')
  {
    hide FindPacket, FindJob, JobOk, PacketsOk, ReceiptsOk, QueueStatusesOk, JobsOk, ResultsOk, SequencesOk;
    ReceiptAppended(db, receipt);
    IdentitiesGrow(db, receipt, identities);
  }

  lemma IdentitiesGrow(db: Database, receipt: Receipt, identities: map<RequestId, Identity>)
    requires IdentitiesOk(db.identities, db.receipts)
    requires (identities == db.identities
              && (receipt.requestId.Some? ==> receipt.requestId.value in db.identities))
             || (receipt.requestId.Some? && receipt.requestId.value !in db.identities
                 && identities == db.identities[receipt.requestId.value := Identity(|db.receipts|, receipt.bodyDigest)])
    ensures IdentitiesOk(identities, db.receipts + [receipt])
  {
  }

  lemma IdentitiesKept(identities: map<RequestId, Identity>, receipts: seq<Receipt>, later: seq<Receipt>)
    requires IdentitiesOk(identities, receipts) && |later| == |receipts|
    requires forall r :: 0 <= r < |receipts| ==>
               later[r].requestId == receipts[r].requestId && later[r].bodyDigest == receipts[r].bodyDigest
    ensures IdentitiesOk(identities, later)
  {
  }

  lemma ReceiptAppended(db: Database, receipt: Receipt)
    requires PacketsOk(db.packets, db.receipts) && ReceiptsOk(db.receipts, db.packets)
    requires QueueStatusesOk(db.receipts, db.packets, db.jobs)
    requires receipt.status == PENDING || receipt.status == CONFLICT
    requires receipt.packet == None && receipt.queueStatus == NOT_APPLICABLE
    ensures var receipts := db.receipts + [receipt];
            && PacketsOk(db.packets, receipts)
            && ReceiptsOk(receipts, db.packets)
            && QueueStatusesOk(receipts, db.packets, db.jobs)
  {
    var receipts := db.receipts + [receipt];
    forall id | 0 <= id < |receipts| ensures ReceiptOk(receipts, id, db.packets) {
      if id < |db.receipts| {
        assert ReceiptOk(db.receipts, id, db.packets);
      }
    }
    forall i | 0 <= i < |db.packets| ensures PacketOk(db.packets[i], receipts) {
      assert PacketOk(db.packets[i], db.receipts);
    }
  }

  lemma RejectKeepsDbOk(db: Database, id: ReceiptId, reason: ReceiptReason)
    requires DbOk(db)
    ensures var db' := RejectDelivery(db, id, reason).0;
            && DbOk(db')
            && Extends(db, db')
            && db' == db.(receipts := db'.receipts)
  {
    var db' := RejectDelivery(db, id, reason).0;
    if db' != db {
      assert ReceiptOk(db.receipts, id, db.packets);
      ReceiptChanged(db, id, db'.receipts[id]);
    }
  }

  /** A rejection is final: the same one is answered as a replay, another reason and every
      acceptance are refused, and nothing changes. */
  lemma RejectionSticks(
    db: Database, id: ReceiptId, reason: ReceiptReason, other: ReceiptReason, values: TelemetryFrame, maxAttempts: int)
    requires RejectDelivery(db, id, reason).1.Ok?
    ensures var (db', first) := RejectDelivery(db, id, reason);
            && id < |db'.receipts|
            && db'.receipts == db.receipts[id := db'.receipts[id]]
            && db'.receipts[id].status == REJECTED && db'.receipts[id].reason == Some(reason)
            && RejectDelivery(db', id, reason) == (db', Ok(DeliveryOf(id, db'.receipts[id], true, false)))
            && (other != reason ==> RejectDelivery(db', id, other) == (db', Err(InvalidDeliveryState)))
            && AcceptPacket(db', id, values, maxAttempts).0 == db'
            && AcceptPacket(db', id, values, maxAttempts).1.Err?
  {
  }

  /** A request id belongs to the bytes it first came with: the same bytes find the same
      receipt and change nothing, other bytes are kept as conflicting evidence. */
  lemma RequestIdIsIdempotent(
    db: Database, sha: Bytes -> Digest, body: Bytes, other: Bytes, requestId: RequestId, now: int, later: int)
    requires requestId !in db.identities && |body| <= MAX_EVIDENCE_BODY_BYTES && |other| <= MAX_EVIDENCE_BODY_BYTES
    requires other != body
    ensures var (db', first) := RecordDelivery(db, sha, body, Some(requestId), now);
            var id := |db.receipts|;
            && first.Ok? && first.value.receipt == id && first.value.status == PENDING
            && |db'.receipts| == id + 1 && db'.receipts[..id] == db.receipts
            && db'.receipts[id].rawBody == body && db'.receipts[id].receivedAt == now
            && RecordDelivery(db', sha, body, Some(requestId), later) == (db', Ok(first.value.(requestReplay := true)))
            && var (db'', second) := RecordDelivery(db', sha, other, Some(requestId), later);
               && second.Ok? && second.value.requestConflict && second.value.duplicateOf == Some(id)
               && |db''.receipts| == id + 2 && db''.receipts[..id + 1] == db'.receipts
               && db''.receipts[id + 1].rawBody == other && db''.receipts[id + 1].status == CONFLICT
               && db''.identities == db'.identities
  {
  }

  /** Deciding a pending receipt to anything but ACCEPTED touches no other table. */
  lemma ReceiptChanged(db: Database, id: ReceiptId, receipt: Receipt)
    requires DbOk(db) && id < |db.receipts| && db.receipts[id].status == PENDING
    requires receipt.status !in {PENDING, ACCEPTED} && receipt.queueStatus == NOT_APPLICABLE
    requires receipt.requestId == db.receipts[id].requestId && receipt.bodyDigest == db.receipts[id].bodyDigest
    requires receipt.rawBody == db.receipts[id].rawBody && receipt.receivedAt == db.receipts[id].receivedAt
    requires ReceiptOk(db.receipts[id := receipt], id, db.packets)
    ensures DbOk(db.(receipts := db.receipts[id := receipt]))
    ensures Extends(db, db.(receipts := db.receipts[id := receipt]))
  {
    hide ReceiptOk, PacketsOk, ReceiptsOk, QueueStatusesOk, JobsOk, ResultsOk, IdentitiesOk, SequencesOk;
    ReceiptTablesOk(db, id, receipt);
  }

  lemma ReceiptTablesOk(db: Database, id: ReceiptId, receipt: Receipt)
    requires DbOk(db) && id < |db.receipts| && db.receipts[id].status == PENDING
    requires receipt.status !in {PENDING, ACCEPTED} && receipt.queueStatus == NOT_APPLICABLE
    requires receipt.requestId == db.receipts[id].requestId && receipt.bodyDigest == db.receipts[id].bodyDigest
    requires receipt.rawBody == db.receipts[id].rawBody && receipt.receivedAt == db.receipts[id].receivedAt
    requires ReceiptOk(db.receipts[id := receipt], id, db.packets)
    ensures PacketsOk(db.packets, db.receipts[id := receipt])
    ensures ReceiptsOk(db.receipts[id := receipt], db.packets)
    ensures QueueStatusesOk(db.receipts[id := receipt], db.packets, db.jobs)
    ensures IdentitiesOk(db.identities, db.receipts[id := receipt])
  {
    var receipts := db.receipts[id := receipt];
    OtherReceiptsOk(db.receipts, receipts, db.packets, id);
    OtherPacketsOk(db.receipts, db.packets, id, receipt);
  }

  lemma OtherReceiptsOk(receipts: seq<Receipt>, changed: seq<Receipt>, packets: seq<Packet>, id: ReceiptId)
    requires id < |receipts| == |changed| && ReceiptsOk(receipts, packets)
    requires changed == receipts[id := changed[id]] && changed[id].rawBody == receipts[id].rawBody
    ensures forall other :: 0 <= other < |changed| && other != id ==> ReceiptOk(changed, other, packets)
  {
    forall other | 0 <= other < |changed| && other != id ensures ReceiptOk(changed, other, packets) {
      assert ReceiptOk(receipts, other, packets);
    }
  }

  lemma OtherPacketsOk(receipts: seq<Receipt>, packets: seq<Packet>, id: ReceiptId, receipt: Receipt)
    requires id < |receipts| && PacketsOk(packets, receipts) && receipts[id].status != ACCEPTED
    ensures PacketsOk(packets, receipts[id := receipt])
    ensures forall i :: 0 <= i < |packets| ==> packets[i].source != id
  {
    forall i | 0 <= i < |packets| ensures PacketOk(packets[i], receipts[id := receipt]) && packets[i].source != id {
      assert PacketOk(packets[i], receipts);
    }
  }

  // ----- acceptance -----

  lemma AcceptKeepsDbOk(db: Database, id: ReceiptId, values: TelemetryFrame, maxAttempts: int)
    requires DbOk(db)
    ensures var db' := AcceptPacket(db, id, values, maxAttempts).0;
            DbOk(db') && Extends(db, db')
  {
    if Decides(db, id, values, maxAttempts) {
      var at := FindPacket(db.packets, KeyOf(values));
      if at.Some? {
        StoredKeyIsEvidence(db, id, at.value);
      } else {
        NewKeyIsAccepted(db, id, values, maxAttempts);
      }
    } else {
      ExtendsReflexive(db);
    }
  }

  /** The call gets as far as deciding a pending receipt. */
  predicate Decides(db: Database, id: ReceiptId, values: TelemetryFrame, maxAttempts: int) {
    && Rules.IsUint32(values.sequenceNumber) && values.bootId > 0 && maxAttempts > 0
    && id < |db.receipts| && db.receipts[id].status == PENDING
  }

  lemma StoredKeyIsEvidence(db: Database, id: ReceiptId, at: nat)
    requires DbOk(db) && id < |db.receipts| && db.receipts[id].status == PENDING && at < |db.packets|
    ensures var (db', result) := AcceptStoredKey(db, id, db.packets[at]);
            && DbOk(db')
            && Extends(db, db')
            && db' == db.(receipts := db'.receipts)
            && result.status in {DUPLICATE, CONFLICT}
  {
    var receipt := AcceptStoredKey(db, id, db.packets[at]).0.receipts[id];
    FindUnique(db.packets, at);
    assert PacketOk(db.packets[at], db.receipts);
    StoredKeyReceiptOk(db, id, db.packets[at], receipt);
    ReceiptChanged(db, id, receipt);
  }

  lemma StoredKeyReceiptOk(db: Database, id: ReceiptId, packet: Packet, receipt: Receipt)
    requires id < |db.receipts| && PacketOk(packet, db.receipts) && packet in db.packets
    requires FindPacket(db.packets, packet.key).Some? && db.packets[FindPacket(db.packets, packet.key).value] == packet
    requires db.receipts[id].status == PENDING
    requires AcceptStoredKey(db, id, packet).0 == db.(receipts := db.receipts[id := receipt])
    ensures receipt.status in {DUPLICATE, CONFLICT} && receipt.queueStatus == NOT_APPLICABLE
    ensures ReceiptOk(db.receipts[id := receipt], id, db.packets)
    ensures receipt.requestId == db.receipts[id].requestId && receipt.bodyDigest == db.receipts[id].bodyDigest
    ensures receipt.rawBody == db.receipts[id].rawBody && receipt.receivedAt == db.receipts[id].receivedAt
  {
    assert db.receipts[id := receipt][id] == receipt;
    assert AcceptStoredKey(db, id, packet).0.receipts[id] == receipt;
  }

  /** No sequence conflict with the session row can arise: the high-water mark names a
      stored packet, and this key is not stored. */
  lemma NewKeyIsPlaced(db: Database, key: PacketKey) returns (entry: Ledger.Entry)
    requires SequencesOk(db.packets, db.sequences) && Rules.IsUint32(key.sequenceNumber)
    requires FindPacket(db.packets, key).None?
    ensures Ledger.Place(CountsOf(db, SessionOf(key)), key.sequenceNumber) == Ok(entry)
    ensures NextEntry(db, key, entry)
  {
    var session := SessionOf(key);
    var entries := SessionEntries(db.packets, session);
    assert SessionOk(db.packets, db.sequences, session);
    SessionSequences(db.packets, session, key.sequenceNumber);
    Ledger.RowCounts(entries);
    entry := Ledger.OtherNumberIsPlaced(CountsOf(db, session), key.sequenceNumber);
  }

  lemma HighWaterIsUint32(db: Database, session: SessionKey)
    requires SequencesOk(db.packets, db.sequences)
    ensures CountsOf(db, session).Some? ==> Rules.IsUint32(CountsOf(db, session).value.highWater)
  {
    assert SessionOk(db.packets, db.sequences, session);
    Ledger.RowCounts(SessionEntries(db.packets, session));
  }

  /** The entry the ledger of the session takes next for this key. */
  predicate NextEntry(db: Database, key: PacketKey, entry: Ledger.Entry) {
    entry.sequence == key.sequenceNumber && Ledger.Placed(CountsOf(db, SessionOf(key)), entry)
  }

  /** A number is among those of the session exactly when its key is stored. */
  lemma {:induction false} SessionSequences(packets: seq<Packet>, session: SessionKey, sequence: int)
    ensures sequence in Ledger.Sequences(SessionEntries(packets, session)) <==>
            FindPacket(packets, PacketKey(session.payloadId, session.bootId, sequence)).Some?
  {
    if packets != [] {
      var before, last := packets[..|packets| - 1], packets[|packets| - 1];
      SessionSequences(before, session, sequence);
      if SessionOf(last.key) == session {
        Ledger.SequencesGrow(
          SessionEntries(before, session), Ledger.Entry(last.key.sequenceNumber, last.placement, last.missingBefore));
      } else {
        assert SessionEntries(before, session) + [] == SessionEntries(before, session);
      }
    }
  }

  lemma NewKeyIsAccepted(db: Database, id: ReceiptId, values: TelemetryFrame, maxAttempts: int)
    requires DbOk(db) && id < |db.receipts| && db.receipts[id].status == PENDING
    requires FindPacket(db.packets, KeyOf(values)).None?
    requires Rules.IsUint32(values.sequenceNumber) && values.bootId > 0 && maxAttempts > 0
    ensures var db' := AcceptNewKey(db, id, values, maxAttempts).0;
            DbOk(db') && Extends(db, db')
  {
    var entry := NewKeyIsPlaced(db, KeyOf(values));
    RowsAddedOk(db, id, values, maxAttempts, entry);
  }

  lemma RowsAddedOk(db: Database, id: ReceiptId, values: TelemetryFrame, maxAttempts: int, entry: Ledger.Entry)
    requires DbOk(db) && id < |db.receipts| && db.receipts[id].status == PENDING
    requires FindPacket(db.packets, KeyOf(values)).None? && NextEntry(db, KeyOf(values), entry)
    requires maxAttempts > 0
    ensures var db' := AddRows(db, id, values, maxAttempts, entry);
            DbOk(db') && Extends(db, db')
  {
    var db' := AddRows(db, id, values, maxAttempts, entry);
    var packet := db'.packets[|db.packets|];
    PacketAdded(db, id, db'.receipts[id], packet, maxAttempts);
    SessionRowsAdvance(db, packet, entry);
    ResultsUntouched(db, NewJob(packet.key, maxAttempts));
    AcceptExtends(db, db', id);
  }

  lemma AcceptExtends(db: Database, db': Database, id: ReceiptId)
    requires id < |db.receipts| && db.receipts[id].status == PENDING
    requires db' == db.(receipts := db'.receipts, packets := db'.packets, sequences := db'.sequences, jobs := db'.jobs)
    requires db.packets <= db'.packets && db.jobs <= db'.jobs && |db'.receipts| == |db.receipts|
    requires db'.receipts == db.receipts[id := db'.receipts[id]] && ReceiptKept(db.receipts[id], db'.receipts[id])
    ensures Extends(db, db')
  {
  }

  lemma PacketAdded(db: Database, id: ReceiptId, receipt: Receipt, packet: Packet, maxAttempts: int)
    requires DbOk(db) && id < |db.receipts| && db.receipts[id].status == PENDING && maxAttempts > 0
    requires FindPacket(db.packets, packet.key).None? && KeyOf(packet.values) == packet.key
    requires packet.source == id && packet.rawDigest == receipt.bodyDigest
    requires receipt == db.receipts[id].(
               status := ACCEPTED, reason := None, packet := Some(packet.key), queueStatus := AWAITS_QUEUE)
    ensures var receipts, packets := db.receipts[id := receipt], db.packets + [packet];
            var jobs := db.jobs + [NewJob(packet.key, maxAttempts)];
            && PacketsOk(packets, receipts)
            && ReceiptsOk(receipts, packets)
            && QueueStatusesOk(receipts, packets, jobs)
            && JobsOk(jobs, packets)
            && IdentitiesOk(db.identities, receipts)
  {
    hide FindPacket, FindJob, ReceiptsOk, QueueStatusesOk, ResultsOk, SequencesOk, IdentitiesOk;
    IdentitiesKept(db.identities, db.receipts, db.receipts[id := receipt]);
    OtherPacketsOk(db.receipts, db.packets, id, receipt);
    AcceptedReceiptsOk(db.receipts, db.packets, id, receipt, packet);
    AcceptedStatusesOk(db.receipts, db.packets, db.jobs, id, receipt, packet, NewJob(packet.key, maxAttempts));
  }

  lemma AcceptedReceiptsOk(
    receipts: seq<Receipt>, packets: seq<Packet>, id: ReceiptId, receipt: Receipt, packet: Packet)
    requires id < |receipts| && ReceiptsOk(receipts, packets) && receipt.rawBody == receipts[id].rawBody
    requires FindPacket(packets, packet.key).None? && packet.source == id
    requires receipt.status == ACCEPTED && receipt.packet == Some(packet.key)
    ensures ReceiptsOk(receipts[id := receipt], packets + [packet])
  {
    var changed := receipts[id := receipt];
    OtherReceiptsOk(receipts, changed, packets, id);
    forall other | 0 <= other < |changed| ensures ReceiptOk(changed, other, packets + [packet]) {
      assert other != id ==> ReceiptOk(changed, other, packets);
      if changed[other].packet.Some? {
        FindAfterAppend(packets, packet, changed[other].packet.value);
      }
    }
  }

  lemma AcceptedStatusesOk(
    receipts: seq<Receipt>, packets: seq<Packet>, jobs: seq<Job>, id: ReceiptId, receipt: Receipt, packet: Packet,
    job: Job)
    requires id < |receipts| && |jobs| == |packets| && QueueStatusesOk(receipts, packets, jobs)
    requires ReceiptsOk(receipts, packets) && FindPacket(packets, packet.key).None?
    requires receipt.status == ACCEPTED && receipt.packet == Some(packet.key)
    requires receipt.queueStatus == QueueStatusOf(job.state)
    ensures QueueStatusesOk(receipts[id := receipt], packets + [packet], jobs + [job])
  {
    var changed := receipts[id := receipt];
    forall other | 0 <= other < |changed| ensures QueueStatusOk(changed[other], packets + [packet], jobs + [job]) {
      assert QueueStatusOk(receipts[other], packets, jobs) && ReceiptOk(receipts, other, packets);
      if changed[other].packet.Some? {
        FindAfterAppend(packets, packet, changed[other].packet.value);
      }
    }
  }

  lemma {:induction false} SessionEntriesAppend(packets: seq<Packet>, packet: Packet, session: SessionKey)
    ensures SessionEntries(packets + [packet], session) ==
            SessionEntries(packets, session)
            + if SessionOf(packet.key) == session
              then [Ledger.Entry(packet.key.sequenceNumber, packet.placement, packet.missingBefore)] else []
  {
    assert (packets + [packet])[..|packets|] == packets;
  }

  lemma SessionRowsAdvance(db: Database, packet: Packet, entry: Ledger.Entry)
    requires SequencesOk(db.packets, db.sequences) && FindPacket(db.packets, packet.key).None?
    requires NextEntry(db, packet.key, entry)
    requires packet.placement == entry.placement && packet.missingBefore == entry.missingBefore
    ensures SequencesOk(
              db.packets + [packet],
              db.sequences[SessionOf(packet.key) := SequenceRowAfter(db, packet.key, entry)])
  {
    hide Ledger.Legit, Ledger.Replay, Ledger.Placed, Ledger.Sequences, SessionEntries, FindPacket;
    var at := SessionOf(packet.key);
    var packets, sequences := db.packets + [packet], db.sequences[at := SequenceRowAfter(db, packet.key, entry)];
    forall session: SessionKey ensures SessionOk(packets, sequences, session) {
      assert SessionOk(db.packets, db.sequences, session);
      SessionEntriesAppend(db.packets, packet, session);
      if session == at {
        SessionSequences(db.packets, session, packet.key.sequenceNumber);
        Ledger.LegitGrows(SessionEntries(db.packets, session), entry);
      } else {
        assert SessionEntries(packets, session) == SessionEntries(db.packets, session);
      }
    }
  }

  /** A new job has no result yet, since results belong to stored packets. */
  lemma ResultsUntouched(db: Database, job: Job)
    requires JobsOk(db.jobs, db.packets) && ResultsOk(db.results, db.jobs)
    requires FindPacket(db.packets, job.packet).None? && job.state == PENDING_QUEUE
    ensures ResultsOk(db.results, db.jobs + [job])
  {
    FindJobSame(db.jobs, db.packets, job.packet);
    var jobs := db.jobs + [job];
    forall key | key in db.results ensures FindJob(jobs, key).Some? {
      assert jobs[..|db.jobs|] == db.jobs;
    }
  }

  // ----- transactions on one job -----

  /** The ways a transaction may move one job: never a finished one, never back to the
      first state, and to COMPLETE together with the packet's result. */
  ghost predicate JobMove(db: Database, id: JobId, job: Job, results: map<PacketKey, ResultRow>) {
    && id < |db.jobs|
    && JobOk(job)
    && JobKept(db.jobs[id], job)
    && (job.state != PENDING_QUEUE ==> job.queueMessage == Some(id))
    && (job.state == COMPLETE <==> job.packet in results)
    && (results == db.results
        || (job.packet !in db.results
            && exists row: ResultRow :: row.job == id && results == db.results[job.packet := row]))
  }

  lemma JobMoveKeepsJobs(db: Database, id: JobId, job: Job, results: map<PacketKey, ResultRow>)
    requires JobsOk(db.jobs, db.packets) && KeysDistinct(db.packets) && ResultsOk(db.results, db.jobs)
    requires JobMove(db, id, job, results)
    ensures JobsOk(db.jobs[id := job], db.packets)
    ensures ResultsOk(results, db.jobs[id := job])
  {
    hide FindJob, FindPacket, JobOk, ResultOk;
    JobMoveKeepsResults(db, id, job, results);
    JobMoveKeepsKeys(db, id, job, results);
  }

  lemma JobMoveKeepsKeys(db: Database, id: JobId, job: Job, results: map<PacketKey, ResultRow>)
    requires JobsOk(db.jobs, db.packets) && KeysDistinct(db.packets) && ResultsOk(db.results, db.jobs)
    requires JobMove(db, id, job, results)
    ensures forall key :: key in results ==> FindJob(db.jobs[id := job], key).Some?
  {
    hide JobOk, ResultOk;
    forall key | key in results ensures FindJob(db.jobs[id := job], key).Some? {
      FindJobSame(db.jobs, db.packets, key);
      FindJobSame(db.jobs[id := job], db.packets, key);
      if key !in db.results {
        FindUnique(db.packets, id);
      }
    }
  }

  lemma JobMoveKeepsResults(db: Database, id: JobId, job: Job, results: map<PacketKey, ResultRow>)
    requires JobsOk(db.jobs, db.packets) && KeysDistinct(db.packets) && ResultsOk(db.results, db.jobs)
    requires JobMove(db, id, job, results)
    ensures ResultOk(results, job, id)
    ensures forall other :: 0 <= other < |db.jobs| && other != id ==> ResultOk(results, db.jobs[other], other)
  {
    forall other | 0 <= other < |db.jobs| && other != id ensures ResultOk(results, db.jobs[other], other) {
      assert ResultOk(db.results, db.jobs[other], other);
      assert db.packets[other].key != db.packets[id].key;
    }
  }

  lemma JobMoveKeepsStatuses(db: Database, id: JobId, job: Job)
    requires QueueStatusesOk(db.receipts, db.packets, db.jobs) && JobsOk(db.jobs, db.packets)
    requires ReceiptsOk(db.receipts, db.packets) && KeysDistinct(db.packets)
    requires id < |db.jobs| && job.packet == db.jobs[id].packet
    ensures job.state == PENDING_QUEUE || db.jobs[id].state != PENDING_QUEUE ==>
              QueueStatusOf(job.state) == QueueStatusOf(db.jobs[id].state) ==>
                QueueStatusesOk(db.receipts, db.packets, db.jobs[id := job])
    ensures job.state != PENDING_QUEUE ==>
              QueueStatusesOk(ReceiptsReachQueue(db.receipts, job.packet), db.packets, db.jobs[id := job])
  {
    var jobs, reached := db.jobs[id := job], ReceiptsReachQueue(db.receipts, job.packet);
    FindUnique(db.packets, id);
    forall r | 0 <= r < |db.receipts|
      ensures QueueStatusOf(job.state) == QueueStatusOf(db.jobs[id].state) ==>
                QueueStatusOk(db.receipts[r], db.packets, jobs)
      ensures job.state != PENDING_QUEUE ==> QueueStatusOk(reached[r], db.packets, jobs)
    {
      assert QueueStatusOk(db.receipts[r], db.packets, db.jobs);
    }
  }

  lemma ReachQueueKeepsReceipts(db: Database, key: PacketKey)
    requires PacketsOk(db.packets, db.receipts) && ReceiptsOk(db.receipts, db.packets)
    requires IdentitiesOk(db.identities, db.receipts)
    ensures var receipts := ReceiptsReachQueue(db.receipts, key);
            && PacketsOk(db.packets, receipts)
            && ReceiptsOk(receipts, db.packets)
            && IdentitiesOk(db.identities, receipts)
            && forall id :: 0 <= id < |receipts| ==> ReceiptKept(db.receipts[id], receipts[id])
  {
    var receipts := ReceiptsReachQueue(db.receipts, key);
    forall id | 0 <= id < |receipts| ensures ReceiptOk(receipts, id, db.packets) {
      assert ReceiptOk(db.receipts, id, db.packets);
    }
    forall i | 0 <= i < |db.packets| ensures PacketOk(db.packets[i], receipts) {
      assert PacketOk(db.packets[i], db.receipts);
    }
  }

  lemma MarkKeepsDbOk(db: Database, id: JobId)
    requires DbOk(db)
    ensures var db' := MarkJobQueued(db, id, id).0;
            && DbOk(db')
            && Extends(db, db')
            && db' == db.(receipts := db'.receipts, jobs := db'.jobs)
  {
    hide FindPacket, FindJob, PacketsOk, ReceiptsOk, QueueStatusesOk, JobsOk, ResultsOk, IdentitiesOk, SequencesOk;
    if MarkJobQueued(db, id, id).1 == Ok(true) {
      FirstMoveKeepsDbOk(db, id, MarkQueued(db.jobs[id], id).value.0);
    }
  }

  /** A move that tells the accepted receipt. */
  lemma FirstMoveKeepsDbOk(db: Database, id: JobId, job: Job)
    requires DbOk(db) && id < |db.jobs| && MarkQueued(db.jobs[id], id) == Ok((job, true))
    ensures var db' := db.(jobs := db.jobs[id := job], receipts := ReceiptsReachQueue(db.receipts, job.packet));
            DbOk(db') && Extends(db, db')
  {
    MarkMoves(db, id, job);
    JobMoveKeepsJobs(db, id, job, db.results);
    JobMoveKeepsStatuses(db, id, job);
    ReachQueueKeepsReceipts(db, job.packet);
  }

  lemma MarkMoves(db: Database, id: JobId, job: Job)
    requires JobsOk(db.jobs, db.packets) && ResultsOk(db.results, db.jobs)
    requires id < |db.jobs| && MarkQueued(db.jobs[id], id) == Ok((job, true))
    ensures JobMove(db, id, job, db.results) && job.state == QUEUED && job.packet == db.jobs[id].packet
  {
    assert JobOk(db.jobs[id]);
  }

  /** A move that leaves the receipts alone: the job had left its first state before. */
  lemma LaterMoveKeepsDbOk(db: Database, id: JobId, job: Job, results: map<PacketKey, ResultRow>)
    requires DbOk(db) && JobMove(db, id, job, results) && db.jobs[id].state != PENDING_QUEUE
    ensures var db' := db.(jobs := db.jobs[id := job], results := results);
            DbOk(db') && Extends(db, db')
  {
    hide PacketsOk, ReceiptsOk, QueueStatusesOk, JobsOk, ResultsOk, IdentitiesOk, SequencesOk, JobOk, KeysDistinct;
    DistinctKeys(db);
    JobMoveKeepsJobs(db, id, job, results);
    JobMoveKeepsStatuses(db, id, job);
  }

  lemma DistinctKeys(db: Database)
    requires DbOk(db)
    ensures KeysDistinct(db.packets)
  {
  }

  lemma ClaimKeepsDbOk(db: Database, id: JobId, worker: WorkerId, now: int, leaseSeconds: int)
    requires DbOk(db)
    ensures var db' := ClaimJob(db, id, worker, now, leaseSeconds).0;
            && DbOk(db')
            && Extends(db, db')
  {
    ClaimEffect(db, id, worker, now, leaseSeconds);
    if leaseSeconds > 0 && id < |db.jobs| && Claimable(db.jobs[id], now) {
      ClaimMoves(db, id, worker, now, leaseSeconds);
      LaterMoveKeepsDbOk(db, id, Claim(db.jobs[id], worker, now, leaseSeconds), db.results);
    } else {
      ExtendsReflexive(db);
    }
  }

  /** A claim succeeds exactly on claimable work, and then shows its packet and receipt. */
  lemma ClaimEffect(db: Database, id: JobId, worker: WorkerId, now: int, leaseSeconds: int)
    requires PacketsOk(db.packets, db.receipts) && JobsOk(db.jobs, db.packets) && ResultsOk(db.results, db.jobs)
    ensures var (db', result) := ClaimJob(db, id, worker, now, leaseSeconds);
            && (result.Ok? <==> leaseSeconds > 0 && id < |db.jobs|)
            && (result.Ok? && Claimable(db.jobs[id], now) ==>
                  && result.value.Some?
                  && db' == db.(jobs := db.jobs[id := Claim(db.jobs[id], worker, now, leaseSeconds)])
                  && WorkOf(db, id, result.value.value)
                  && result.value.value.attemptCount == db.jobs[id].attemptCount + 1)
            && (result.Err? || !Claimable(db.jobs[id], now) ==> db' == db && (result.Ok? ==> result.value.None?))
  {
    if id < |db.jobs| {
      FindUnique(db.packets, id);
      assert PacketOk(db.packets[id], db.receipts);
      assert JobOk(db.jobs[id]);
    }
  }

  lemma ClaimMoves(db: Database, id: JobId, worker: WorkerId, now: int, leaseSeconds: int)
    requires JobsOk(db.jobs, db.packets) && ResultsOk(db.results, db.jobs)
    requires id < |db.jobs| && Claimable(db.jobs[id], now) && leaseSeconds > 0
    ensures JobMove(db, id, Claim(db.jobs[id], worker, now, leaseSeconds), db.results)
    ensures db.jobs[id].state != PENDING_QUEUE
  {
    assert JobOk(db.jobs[id]);
  }

  /** The work item shows the packet and the original receipt of the job. */
  predicate WorkOf(db: Database, id: JobId, work: WorkItem) {
    && id < |db.jobs| && id < |db.packets| && db.packets[id].source < |db.receipts|
    && work.job == id
    && work.packet == db.packets[id].key
    && work.values == db.packets[id].values
    && work.rawBody == db.receipts[db.packets[id].source].rawBody
    && work.receivedAt == db.receipts[db.packets[id].source].receivedAt
  }

  lemma CompleteKeepsDbOk(db: Database, id: JobId, result: ProcessingResult, worker: WorkerId, now: int)
    requires DbOk(db)
    ensures var db' := CompleteJob(db, id, result, worker, now).0;
            && DbOk(db')
            && Extends(db, db')
  {
    var db' := CompleteJob(db, id, result, worker, now).0;
    CompleteEffect(db, id, result, worker, now);
    if db' == db {
      ExtendsReflexive(db);
    } else {
      CompleteMoves(db, id, ResultRow(id, result, now));
      LaterMoveKeepsDbOk(db, id, Complete(db.jobs[id]), db'.results);
    }
  }

  /** Only the owner of a job that has no result yet changes anything; success means
      the job is complete. */
  lemma CompleteEffect(db: Database, id: JobId, result: ProcessingResult, worker: WorkerId, now: int)
    requires JobsOk(db.jobs, db.packets) && ResultsOk(db.results, db.jobs)
    ensures var (db', outcome) := CompleteJob(db, id, result, worker, now);
            && (outcome.Ok? ==> id < |db'.jobs| && db'.jobs[id].state == COMPLETE)
            && (db' != db ==>
                  && id < |db.jobs|
                  && OwnedBy(db.jobs[id], worker)
                  && db.jobs[id].packet !in db.results
                  && db' == db.(jobs := db.jobs[id := Complete(db.jobs[id])],
                                results := db.results[db.jobs[id].packet := ResultRow(id, result, now)]))
  {
    if id < |db.jobs| {
      assert JobOk(db.jobs[id]);
      assert db.jobs == db.jobs[id := db.jobs[id]];
    }
  }

  lemma CompleteMoves(db: Database, id: JobId, row: ResultRow)
    requires JobsOk(db.jobs, db.packets) && ResultsOk(db.results, db.jobs)
    requires id < |db.jobs| && db.jobs[id].state == PROCESSING && db.jobs[id].packet !in db.results && row.job == id
    ensures JobMove(db, id, Complete(db.jobs[id]), db.results[db.jobs[id].packet := row])
  {
    assert JobOk(db.jobs[id]);
  }

  lemma FailKeepsDbOk(db: Database, id: JobId, worker: WorkerId, temporary: bool, baseSeconds: int, now: int)
    requires DbOk(db)
    ensures var (db', outcome) := FailJob(db, id, worker, temporary, baseSeconds, now);
            && DbOk(db')
            && Extends(db, db')
  {
    var outcome := FailJob(db, id, worker, temporary, baseSeconds, now).1;
    if outcome.Ok? {
      FailMoves(db, id, worker, temporary, baseSeconds, now, outcome.value);
      LaterMoveKeepsDbOk(db, id, outcome.value, db.results);
      assert db.(jobs := db.jobs[id := outcome.value], results := db.results)
             == db.(jobs := db.jobs[id := outcome.value]);
    } else {
      ExtendsReflexive(db);
    }
  }

  predicate SameAttempt(job: Job, later: Job) {
    later.packet == job.packet && later.attemptCount == job.attemptCount && later.claimedBy == job.claimedBy
  }

  /** What a recorded failure did, and to whose job. */
  lemma FailEffect(db: Database, id: JobId, worker: WorkerId, temporary: bool, baseSeconds: int, now: int)
    requires JobsOk(db.jobs, db.packets) && ResultsOk(db.results, db.jobs)
    ensures var (db', outcome) := FailJob(db, id, worker, temporary, baseSeconds, now);
            && db' == db.(jobs := db'.jobs)
            && (outcome.Err? ==> db' == db)
            && (outcome.Ok? ==>
                  && id < |db.jobs|
                  && db'.jobs == db.jobs[id := outcome.value]
                  && outcome.value.state in {FAILED, RETRY_WAIT}
                  && SameAttempt(db.jobs[id], outcome.value))
            && (db' != db ==> id < |db.jobs| && OwnedBy(db.jobs[id], worker))
  {
    var outcome := FailJob(db, id, worker, temporary, baseSeconds, now).1;
    if outcome.Ok? {
      FailMoves(db, id, worker, temporary, baseSeconds, now, outcome.value);
    }
  }

  lemma FailMoves(
    db: Database, id: JobId, worker: WorkerId, temporary: bool, baseSeconds: int, now: int, job: Job)
    requires JobsOk(db.jobs, db.packets) && ResultsOk(db.results, db.jobs)
    requires id < |db.jobs| && FailAttempt(db.jobs[id], worker, temporary, baseSeconds, now) == Ok(job)
    ensures JobMove(db, id, job, db.results) && job.state in {FAILED, RETRY_WAIT} && SameAttempt(db.jobs[id], job)
    ensures db.jobs[id].state != PENDING_QUEUE
    ensures job != db.jobs[id] ==> OwnedBy(db.jobs[id], worker)
  {
    assert JobOk(db.jobs[id]);
  }
}
