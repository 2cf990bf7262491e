/** What one turn of the payload worker's loop does to the two stores when nothing
    interrupts it, and what comes of it. */
module WorkerFlow {
  import opened Outcomes
  import opened FrameCodec
  import opened JobLifecycle
  import opened Storage
  import opened StorageInvariant
  import opened PipelineInvariant
  import opened GatewayFlow
  import opened GatewayRecovery
  import opened PipelineRedecode
  import Pipeline
  import PipelineSafety
  import Q = RedisQueue

  /** Report a failed attempt; false when an error ends the process. */
  function ReportFailure(
    s: Stores, worker: WorkerId, message: Q.QueueMessage, work: WorkItem, temporary: bool, now: int)
    : (Stores, bool)
  {
    var (db, failure) := FailJob(s.db, work.job, worker, temporary, Pipeline.BASE_BACKOFF_SECONDS, now);
    if failure.Err? then (s.(db := db), false)
    else
      var (queue, done) :=
        if failure.value.state == FAILED then Q.DeadLetter(s.queue, message) else Q.Retry(s.queue, message);
      (Stores(db, queue), done)
  }

  /** The times at which a turn claims, stores its result, and reports a failure or ends. */
  datatype Clock = Clock(claimAt: int, storeAt: int, endAt: int)

  function ProcessWork(s: Stores, worker: WorkerId, message: Q.QueueMessage, work: WorkItem, clock: Clock)
    : (Stores, bool)
  {
    if Decode(work.rawBody, work.receivedAt) != Ok(work.values) then
      ReportFailure(s, worker, message, work, false, clock.endAt)
    else
      var result := ProcessingResult(work.values, work.receivedAt);
      var (db, stored) := CompleteJob(s.db, work.job, result, worker, clock.storeAt);
      if stored.Ok? then (Stores(db, Q.Ack(s.queue, message).0), true)
      else ReportFailure(s.(db := db), worker, message, work, true, clock.endAt)
  }

  /** A reference whose job could not be claimed: done with, or kept for later. */
  function ReturnOrFinishUnclaimed(s: Stores, message: Q.QueueMessage): Stores {
    var (queue, done) :=
      if message.job >= |s.db.jobs| || s.db.jobs[message.job].state == COMPLETE then Q.Ack(s.queue, message)
      else if s.db.jobs[message.job].state == FAILED then Q.DeadLetter(s.queue, message)
      else Q.Retry(s.queue, message);
    s.(queue := if done then queue else Q.Retry(queue, message).0)
  }

  function HandleMessage(s: Stores, worker: WorkerId, message: Q.QueueMessage, clock: Clock): (Stores, bool) {
    var (db, claim) := ClaimJob(s.db, message.job, worker, clock.claimAt, Pipeline.LEASE_SECONDS);
    if claim.Err? then (Stores(db, Q.Retry(s.queue, message).0), true)
    else if claim.value.None? then (ReturnOrFinishUnclaimed(s.(db := db), message), true)
    else ProcessWork(s.(db := db), worker, message, claim.value.value, clock)
  }

  /** One turn: take the oldest message, if any, and see it through. */
  function Turn(s: Stores, worker: WorkerId, clock: Clock): (Stores, bool) {
    var (queue, claimed) := Q.Claim(s.queue);
    if claimed.Message? then HandleMessage(s.(queue := queue), worker, claimed.message, clock)
    else (s.(queue := queue), true)
  }

  /** Turn after turn, until the clocks run out or an error ends the process. */
  function Turns(s: Stores, worker: WorkerId, clocks: seq<Clock>): (Stores, bool)
    decreases clocks
  {
    if clocks == [] then (s, true)
    else
      var (s', alive) := Turn(s, worker, clocks[0]);
      if alive then Turns(s', worker, clocks[1..]) else (s', false)
  }

  // ----- one turn on a message that can be claimed -----

  predicate Tables(db: Database) {
    && PacketsOk(db.packets, db.receipts)
    && JobsOk(db.jobs, db.packets)
    && ResultsOk(db.results, db.jobs)
    && Authentic(db)
  }

  predicate OldestIs(q: Q.QueueState, message: Q.QueueMessage) {
    q.pending != [] && q.pending[|q.pending| - 1] == Q.Reference(message)
  }

  /** The pending list without its oldest entry. */
  function Rest(q: Q.QueueState): seq<Q.Entry>
    requires q.pending != []
  {
    q.pending[..|q.pending| - 1]
  }

  /** The queue without its oldest reference, which was seen through. */
  function Without(q: Q.QueueState, id: JobId): Q.QueueState
    requires q.pending != []
  {
    q.(pending := Rest(q), markers := q.markers - {id})
  }

  function ToFailed(q: Q.QueueState): Q.QueueState
    requires q.pending != []
  {
    q.(pending := Rest(q), failed := [q.pending[|q.pending| - 1]] + q.failed)
  }

  function PutBack(q: Q.QueueState): Q.QueueState
    requires q.pending != []
  {
    q.(pending := [q.pending[|q.pending| - 1]] + Rest(q))
  }

  predicate Ready(db: Database, id: JobId, at: int) {
    id < |db.jobs| && Claimable(db.jobs[id], at)
  }

  predicate Evident(db: Database, id: JobId) {
    id < |db.jobs| && id < |db.packets| && db.packets[id].source < |db.receipts|
  }

  /** The tables after a worker claimed and completed the job. */
  function Done(db: Database, id: JobId, worker: WorkerId, clock: Clock): Database
    requires Evident(db, id)
  {
    var result := ProcessingResult(db.packets[id].values, db.receipts[db.packets[id].source].receivedAt);
    db.(jobs := db.jobs[id := Complete(Claim(db.jobs[id], worker, clock.claimAt, Pipeline.LEASE_SECONDS))],
        results := db.results[db.jobs[id].packet := ResultRow(id, result, clock.storeAt)])
  }

  /** The tables after a worker claimed the job and failed it for good. */
  function GivenUp(db: Database, id: JobId, worker: WorkerId, clock: Clock): Database
    requires id < |db.jobs|
  {
    var claimed := Claim(db.jobs[id], worker, clock.claimAt, Pipeline.LEASE_SECONDS);
    db.(jobs := db.jobs[id := claimed.(state := FAILED, leaseExpiresAt := None)])
  }

  /** What the scripts do to a message that was just taken. */
  lemma TakenThenSettled(q: Q.QueueState, message: Q.QueueMessage)
    requires OldestIs(q, message)
    ensures var (taken, claimed) := Q.Claim(q);
            && claimed == Q.Message(message)
            && Q.Ack(taken, message) == (Without(q, message.job), true)
            && Q.DeadLetter(taken, message) == (ToFailed(q), true)
            && Q.Retry(taken, message) == (PutBack(q), true)
  {
    var taken := Q.Claim(q).0;
    assert taken.processing[1..] == q.processing;
  }

  lemma CompleteAfterClaim(
    db: Database, id: JobId, worker: WorkerId, result: ProcessingResult, claimAt: int, storeAt: int)
    requires id < |db.jobs| && db.jobs[id].packet !in db.results
    ensures var claimed := Claim(db.jobs[id], worker, claimAt, Pipeline.LEASE_SECONDS);
            var (db', stored) := CompleteJob(db.(jobs := db.jobs[id := claimed]), id, result, worker, storeAt);
            && stored.Ok?
            && db' == db.(jobs := db.jobs[id := Complete(claimed)],
                          results := db.results[db.jobs[id].packet := ResultRow(id, result, storeAt)])
  {
    var claimed := Claim(db.jobs[id], worker, claimAt, Pipeline.LEASE_SECONDS);
    assert db.jobs[id := claimed][id := Complete(claimed)] == db.jobs[id := Complete(claimed)];
  }

  lemma FailAfterClaim(db: Database, id: JobId, worker: WorkerId, clock: Clock)
    requires id < |db.jobs|
    ensures var claimed := Claim(db.jobs[id], worker, clock.claimAt, Pipeline.LEASE_SECONDS);
            var claimedDb := db.(jobs := db.jobs[id := claimed]);
            var (db', failed) := FailJob(
                                   claimedDb, id, worker, false, Pipeline.BASE_BACKOFF_SECONDS, clock.endAt);
            db' == GivenUp(db, id, worker, clock) && failed == Ok(db'.jobs[id]) && failed.value.state == FAILED
  {
    var claimed := Claim(db.jobs[id], worker, clock.claimAt, Pipeline.LEASE_SECONDS);
    var failed := claimed.(state := FAILED, leaseExpiresAt := None, nextAttemptAt := None);
    assert db.jobs[id := claimed][id := failed] == db.jobs[id := failed];
  }

  lemma ReadyHasEvidence(db: Database, id: JobId, at: int)
    requires PacketsOk(db.packets, db.receipts) && JobsOk(db.jobs, db.packets) && ResultsOk(db.results, db.jobs)
    requires Ready(db, id, at)
    ensures Evident(db, id) && db.jobs[id].packet !in db.results
  {
    assert ResultOk(db.results, db.jobs[id], id) && PacketOk(db.packets[id], db.receipts);
  }

  /** The turn completes a job that can be claimed and is in time: it stores the result that
      the packet determines and takes the reference and the marker out of Redis. */
  lemma TurnCompletes(s: Stores, worker: WorkerId, message: Q.QueueMessage, clock: Clock)
    requires Tables(s.db) && OldestIs(s.queue, message)
    requires Ready(s.db, message.job, clock.claimAt) && InTime(s.db, message.job)
    ensures Evident(s.db, message.job)
    ensures Turn(s, worker, clock) ==
            (Stores(Done(s.db, message.job, worker, clock), Without(s.queue, message.job)), true)
  {
    hide Decode, CompleteJob, ClaimJob, Authentic, PacketsOk, JobsOk, ResultsOk, Q.Ack, Q.Claim, Claim, Claimable;
    var id := message.job;
    TakenThenSettled(s.queue, message);
    ReadyHasEvidence(s.db, id, clock.claimAt);
    ClaimEffect(s.db, id, worker, clock.claimAt, Pipeline.LEASE_SECONDS);
    RedecodeAgreesIff(s.db, id);
    var result := ProcessingResult(s.db.packets[id].values, s.db.receipts[s.db.packets[id].source].receivedAt);
    CompleteAfterClaim(s.db, id, worker, result, clock.claimAt, clock.storeAt);
  }

  /** A job whose packet is out of time fails at once and for good, and its reference is
      kept in the failed list with its marker. */
  lemma TurnFailsOutOfTime(s: Stores, worker: WorkerId, message: Q.QueueMessage, clock: Clock)
    requires Tables(s.db) && OldestIs(s.queue, message)
    requires Ready(s.db, message.job, clock.claimAt) && !InTime(s.db, message.job)
    ensures Turn(s, worker, clock) == (Stores(GivenUp(s.db, message.job, worker, clock), ToFailed(s.queue)), true)
  {
    hide Decode, ClaimJob, FailJob, Authentic, PacketsOk, JobsOk, ResultsOk, Q.DeadLetter, Q.Claim, Claim, Claimable;
    hide GivenUp;
    var id := message.job;
    TakenThenSettled(s.queue, message);
    ReadyHasEvidence(s.db, id, clock.claimAt);
    ClaimEffect(s.db, id, worker, clock.claimAt, Pipeline.LEASE_SECONDS);
    RedecodeAgreesIff(s.db, id);
    FailAfterClaim(s.db, id, worker, clock);
  }

  // ----- one turn on anything else -----

  /** What a turn does with the message of a job that it cannot claim. */
  function SetAside(q: Q.QueueState, job: Job, id: JobId): Q.QueueState
    requires q.pending != []
  {
    if job.state == COMPLETE then Without(q, id)
    else if job.state == FAILED then ToFailed(q)
    else PutBack(q)
  }

  /** A message of finished work leaves pending; one whose time has not come goes back
      behind all others. The tables stay as they are. */
  lemma TurnSetsAside(s: Stores, worker: WorkerId, message: Q.QueueMessage, clock: Clock)
    requires Tables(s.db) && OldestIs(s.queue, message)
    requires message.job < |s.db.jobs| && !Claimable(s.db.jobs[message.job], clock.claimAt)
    ensures Turn(s, worker, clock) == (s.(queue := SetAside(s.queue, s.db.jobs[message.job], message.job)), true)
  {
    hide ClaimJob, Authentic, PacketsOk, JobsOk, ResultsOk, Claimable, Q.Ack, Q.DeadLetter, Q.Retry, Q.Claim;
    TakenThenSettled(s.queue, message);
    ClaimEffect(s.db, message.job, worker, clock.claimAt, Pipeline.LEASE_SECONDS);
  }

  /** A message of a job that is not in the table, say after the tables were restored from an
      older copy, cannot be claimed and goes back behind all others. */
  lemma TurnReturnsUnknown(s: Stores, worker: WorkerId, message: Q.QueueMessage, clock: Clock)
    requires OldestIs(s.queue, message) && message.job >= |s.db.jobs|
    ensures Turn(s, worker, clock) == (s.(queue := PutBack(s.queue)), true)
  {
    hide Q.Ack, Q.DeadLetter, Q.Retry, Q.Claim;
    TakenThenSettled(s.queue, message);
  }

  lemma TurnQuarantines(s: Stores, worker: WorkerId, clock: Clock)
    requires s.queue.pending != [] && s.queue.pending[|s.queue.pending| - 1].Malformed?
    ensures Turn(s, worker, clock) == (s.(queue := ToFailed(s.queue)), true)
  {
  }

  // ----- what every turn keeps -----

  lemma DoneKeepsDbOk(db: Database, id: JobId, worker: WorkerId, clock: Clock)
    requires DbOk(db) && Ready(db, id, clock.claimAt) && Evident(db, id)
    ensures DbOk(Done(db, id, worker, clock)) && Extends(db, Done(db, id, worker, clock))
  {
    hide DbOk, Extends, ClaimJob, CompleteJob, WorkOf, PacketsOk, JobsOk, ResultsOk, Claim;
    TablesOk(db);
    ReadyHasEvidence(db, id, clock.claimAt);
    ClaimEffect(db, id, worker, clock.claimAt, Pipeline.LEASE_SECONDS);
    var claimed := ClaimJob(db, id, worker, clock.claimAt, Pipeline.LEASE_SECONDS).0;
    var result := ProcessingResult(db.packets[id].values, db.receipts[db.packets[id].source].receivedAt);
    CompleteAfterClaim(db, id, worker, result, clock.claimAt, clock.storeAt);
    ClaimKeepsDbOk(db, id, worker, clock.claimAt, Pipeline.LEASE_SECONDS);
    CompleteKeepsDbOk(claimed, id, result, worker, clock.storeAt);
    ExtendsTransitive(db, claimed, Done(db, id, worker, clock));
  }

  lemma GivenUpKeepsDbOk(db: Database, id: JobId, worker: WorkerId, clock: Clock)
    requires DbOk(db) && Ready(db, id, clock.claimAt)
    ensures DbOk(GivenUp(db, id, worker, clock)) && Extends(db, GivenUp(db, id, worker, clock))
  {
    hide DbOk, Extends, ClaimJob, FailJob, WorkOf, PacketsOk, JobsOk, ResultsOk, Claim, GivenUp;
    TablesOk(db);
    ClaimEffect(db, id, worker, clock.claimAt, Pipeline.LEASE_SECONDS);
    var claimed := ClaimJob(db, id, worker, clock.claimAt, Pipeline.LEASE_SECONDS).0;
    FailAfterClaim(db, id, worker, clock);
    ClaimKeepsDbOk(db, id, worker, clock.claimAt, Pipeline.LEASE_SECONDS);
    FailKeepsDbOk(claimed, id, worker, false, Pipeline.BASE_BACKOFF_SECONDS, clock.endAt);
    ExtendsTransitive(db, claimed, GivenUp(db, id, worker, clock));
  }

  /** The markers still match after the oldest message was dealt with, in whichever way. */
  lemma QueueStillMatches(jobs: seq<Job>, q: Q.QueueState, message: Q.QueueMessage)
    requires MarkersMatch(jobs, q) && OldestIs(q, message)
    ensures message.job < |jobs| && message.packet == jobs[message.job].packet
    ensures MarkersMatch(jobs, Without(q, message.job))
    ensures MarkersMatch(jobs, ToFailed(q)) && MarkersMatch(jobs, PutBack(q))
  {
    var taken := Q.Claim(q).0;
    TakenThenSettled(q, message);
    Q.ClaimEffect(q);
    Q.AckEffect(taken, message);
    Q.MoveEffect(taken, message);
    assert MarkerOk(jobs, q, message.job);
    forall id: JobId
      ensures MarkerOk(jobs, Without(q, message.job), id)
      ensures MarkerOk(jobs, ToFailed(q), id) && MarkerOk(jobs, PutBack(q), id)
    {
      assert MarkerOk(jobs, q, id);
    }
  }

  lemma QuarantineMatches(jobs: seq<Job>, q: Q.QueueState)
    requires MarkersMatch(jobs, q) && q.pending != [] && q.pending[|q.pending| - 1].Malformed?
    ensures MarkersMatch(jobs, ToFailed(q))
  {
    Q.ClaimEffect(q);
    forall id: JobId ensures MarkerOk(jobs, ToFailed(q), id) {
      assert MarkerOk(jobs, q, id);
    }
  }

  /** No other pending entry refers to the job of the oldest one. */
  lemma OthersReferElsewhere(q: Q.QueueState, message: Q.QueueMessage, i: nat)
    requires Q.Consistent(q) && OldestIs(q, message) && i < |q.pending| - 1 && q.pending[i].Reference?
    ensures q.pending[i].message.job != message.job
  {
    var other := q.pending[i];
    Q.PopOldest(q.pending);
    assert other in Rest(q);
    assert Q.Listed(q)[other] >= 1 && Q.Listed(q)[Q.Reference(message)] >= 1;
    assert other.message == message ==> Q.Listed(q)[other] >= 2;
  }

  // ----- a whole queue is worked off -----

  /** The job is complete and its packet has the result its bytes determine. */
  predicate Completed(db: Database, id: JobId) {
    && Evident(db, id)
    && db.jobs[id].state == COMPLETE
    && db.jobs[id].packet in db.results
    && db.results[db.jobs[id].packet].result
       == ProcessingResult(db.packets[id].values, db.receipts[db.packets[id].source].receivedAt)
  }

  /** In time and complete, or out of time and failed with its reference kept. */
  predicate Settled(s: Stores, id: JobId) {
    && id < |s.db.jobs|
    && if InTime(s.db, id) then Completed(s.db, id)
       else s.db.jobs[id].state == FAILED && Reference(s.db.jobs, id) in s.queue.failed
  }

  /** A turn goes well: nothing is undone, nothing leaves the failed list, and the tables and
      the markers still fit. */
  predicate GoesWell(s: Stores, s': Stores) {
    && Extends(s.db, s'.db)
    && s'.queue.processing == s.queue.processing
    && (forall entry :: entry in s.queue.failed ==> entry in s'.queue.failed)
  }

  ghost predicate Sound(s: Stores) {
    DbOk(s.db) && Authentic(s.db) && MarkersMatch(s.db.jobs, s.queue)
  }

  lemma SettledForever(s: Stores, s': Stores, id: JobId)
    requires Settled(s, id) && GoesWell(s, s') && Evident(s.db, id)
    ensures Settled(s', id)
  {
    assert JobKept(s.db.jobs[id], s'.db.jobs[id]);
    assert ReceiptKept(s.db.receipts[s.db.packets[id].source], s'.db.receipts[s.db.packets[id].source]);
  }

  /** The entry refers to a job whose time had not come, and that is not finished. */
  predicate NotYet(db: Database, entry: Q.Entry, from: int) {
    && entry.Reference?
    && entry.message.job < |db.jobs|
    && !Claimable(db.jobs[entry.message.job], from)
    && !Terminal(db.jobs[entry.message.job])
  }

  /** What one turn on the oldest entry does, whatever the entry is. */
  predicate TurnDid(s: Stores, s': Stores, at: int)
    requires s.queue.pending != []
  {
    var entry, rest := s.queue.pending[|s.queue.pending| - 1], Rest(s.queue);
    && GoesWell(s, s')
    && (s'.queue.pending == rest || (s'.queue.pending == [entry] + rest && NotYet(s.db, entry, at)))
    && |s'.db.jobs| == |s.db.jobs|
    && (forall id :: 0 <= id < |s.db.jobs| && !(entry.Reference? && entry.message.job == id) ==>
          s'.db.jobs[id] == s.db.jobs[id])
    && (entry.Reference? ==>
          && entry.message.job < |s.db.jobs|
          && (Claimable(s.db.jobs[entry.message.job], at) ==>
                Settled(s', entry.message.job) && Evident(s'.db, entry.message.job)))
  }

  lemma ReadyTurn(s: Stores, worker: WorkerId, message: Q.QueueMessage, clock: Clock)
    requires Sound(s) && OldestIs(s.queue, message) && Ready(s.db, message.job, clock.claimAt)
    ensures var (s', alive) := Turn(s, worker, clock);
            alive && Sound(s') && TurnDid(s, s', clock.claimAt)
  {
    hide DbOk, Extends, Authentic, MarkersMatch, Turn, PacketsOk, JobsOk, ResultsOk, Claimable;
    var id := message.job;
    TablesOk(s.db);
    ReadyHasEvidence(s.db, id, clock.claimAt);
    QueueStillMatches(s.db.jobs, s.queue, message);
    var s' := Turn(s, worker, clock).0;
    if InTime(s.db, id) {
      TurnCompletes(s, worker, message, clock);
      DoneKeepsDbOk(s.db, id, worker, clock);
    } else {
      TurnFailsOutOfTime(s, worker, message, clock);
      GivenUpKeepsDbOk(s.db, id, worker, clock);
    }
    PipelineSafety.AuthenticityKept(s.db, s'.db);
    SamePacketsMatch(s.db.jobs, s'.db.jobs, s'.queue);
  }

  lemma IdleTurn(s: Stores, worker: WorkerId, clock: Clock)
    requires Sound(s) && s.queue.pending != []
    requires var entry := s.queue.pending[|s.queue.pending| - 1];
             entry.Malformed? || !Ready(s.db, entry.message.job, clock.claimAt)
    ensures var (s', alive) := Turn(s, worker, clock);
            alive && Sound(s') && TurnDid(s, s', clock.claimAt)
  {
    hide DbOk, Extends, Authentic, MarkersMatch, Turn, PacketsOk, JobsOk, ResultsOk, Claimable;
    var entry := s.queue.pending[|s.queue.pending| - 1];
    TablesOk(s.db);
    ExtendsReflexive(s.db);
    if entry.Malformed? {
      TurnQuarantines(s, worker, clock);
      QuarantineMatches(s.db.jobs, s.queue);
    } else {
      QueueStillMatches(s.db.jobs, s.queue, entry.message);
      TurnSetsAside(s, worker, entry.message, clock);
    }
  }

  lemma OneTurn(s: Stores, worker: WorkerId, clock: Clock)
    requires Sound(s) && s.queue.pending != []
    ensures var (s', alive) := Turn(s, worker, clock);
            alive && Sound(s') && TurnDid(s, s', clock.claimAt)
  {
    hide Sound, Turn, TurnDid;
    var entry := s.queue.pending[|s.queue.pending| - 1];
    if entry.Reference? && Ready(s.db, entry.message.job, clock.claimAt) {
      ReadyTurn(s, worker, entry.message, clock);
    } else {
      IdleTurn(s, worker, clock);
    }
  }

  predicate Starting(clocks: seq<Clock>, from: int) {
    forall i :: 0 <= i < |clocks| ==> from <= clocks[i].claimAt
  }

  /** The result of working off `rest`, the right part of the pending list, in one turn each:
      what could be claimed is settled; what is left there was put back, because its time
      had not come. */
  predicate WorkedOff(s: Stores, back: seq<Q.Entry>, rest: seq<Q.Entry>, from: int, s': Stores) {
    && GoesWell(s, s')
    && (forall i :: 0 <= i < |rest| && rest[i].Reference? && Ready(s.db, rest[i].message.job, from) ==>
          Settled(s', rest[i].message.job))
    && (forall entry :: entry in s'.queue.pending ==> entry in back || (entry in rest && NotYet(s.db, entry, from)))
  }

  lemma {:induction false} WorkOff(
    s: Stores, worker: WorkerId, clocks: seq<Clock>, back: seq<Q.Entry>, rest: seq<Q.Entry>, from: int)
    requires Sound(s) && s.queue.pending == back + rest && |clocks| == |rest| && Starting(clocks, from)
    ensures var (s', alive) := Turns(s, worker, clocks);
            alive && Sound(s') && WorkedOff(s, back, rest, from, s')
    decreases rest
  {
    hide Sound, Turn, TurnDid, WorkedOff;
    if rest == [] {
      NothingToWorkOff(s, back, from);
    } else {
      var n := |rest| - 1;
      var next := Turn(s, worker, clocks[0]).0;
      OneTurn(s, worker, clocks[0]);
      var back' := NextBack(s, next, back, rest, clocks[0].claimAt);
      WorkOff(next, worker, clocks[1..], back', rest[..n], from);
      var end := Turns(s, worker, clocks).0;
      OneMoreWorkedOff(s, next, end, back, back', rest, clocks[0].claimAt, from);
    }
  }

  lemma NothingToWorkOff(s: Stores, back: seq<Q.Entry>, from: int)
    requires s.queue.pending == back + []
    ensures WorkedOff(s, back, [], from, s)
  {
    ExtendsReflexive(s.db);
  }

  /** What was put back so far, after one more turn. */
  lemma NextBack(s: Stores, next: Stores, back: seq<Q.Entry>, rest: seq<Q.Entry>, at: int) returns (back': seq<Q.Entry>)
    requires s.queue.pending == back + rest && rest != [] && TurnDid(s, next, at)
    ensures next.queue.pending == back' + rest[..|rest| - 1]
    ensures back' == back || (back' == [rest[|rest| - 1]] + back && NotYet(s.db, rest[|rest| - 1], at))
  {
    assert Rest(s.queue) == back + rest[..|rest| - 1];
    if next.queue.pending == Rest(s.queue) {
      back' := back;
    } else {
      back' := [rest[|rest| - 1]] + back;
    }
  }

  lemma LaterIsReady(job: Job, from: int, at: int)
    requires Claimable(job, from) && from <= at
    ensures Claimable(job, at)
  {
  }

  lemma OneMoreWorkedOff(
    s: Stores, next: Stores, end: Stores, back: seq<Q.Entry>, back': seq<Q.Entry>, rest: seq<Q.Entry>,
    at: int, from: int)
    requires Sound(s) && s.queue.pending == back + rest && rest != [] && from <= at
    requires TurnDid(s, next, at) && WorkedOff(next, back', rest[..|rest| - 1], from, end)
    requires back' == back || (back' == [rest[|rest| - 1]] + back && NotYet(s.db, rest[|rest| - 1], at))
    ensures WorkedOff(s, back, rest, from, end)
  {
    hide Sound, Settled, Extends;
    var n := |rest| - 1;
    ExtendsTransitive(s.db, next.db, end.db);
    RestUntouched(s, next, back, rest, at);
    forall i | 0 <= i < |rest| && rest[i].Reference? && Ready(s.db, rest[i].message.job, from)
      ensures Settled(end, rest[i].message.job)
    {
      if i == n {
        LaterIsReady(s.db.jobs[rest[n].message.job], from, at);
        SettledForever(next, end, rest[n].message.job);
      } else {
        assert rest[..n][i] == rest[i];
      }
    }
    forall entry | entry in end.queue.pending && entry !in back ensures entry in rest && NotYet(s.db, entry, from) {
      if entry in rest[..n] && NotYet(next.db, entry, from) {
        var i :| 0 <= i < n && rest[i] == entry;
      } else {
        NotYetEarlier(s.db, rest[n], from, at);
      }
    }
  }

  lemma NotYetEarlier(db: Database, entry: Q.Entry, from: int, at: int)
    requires from <= at && NotYet(db, entry, at)
    ensures NotYet(db, entry, from)
  {
  }

  /** A turn leaves the jobs of the other entries alone. */
  lemma RestUntouched(s: Stores, next: Stores, back: seq<Q.Entry>, rest: seq<Q.Entry>, at: int)
    requires Sound(s) && s.queue.pending == back + rest && rest != [] && TurnDid(s, next, at)
    ensures forall i :: 0 <= i < |rest| - 1 && rest[i].Reference? && rest[i].message.job < |s.db.jobs| ==>
              next.db.jobs[rest[i].message.job] == s.db.jobs[rest[i].message.job]
    ensures |next.db.jobs| == |s.db.jobs|
  {
    hide DbOk, Extends, Authentic, Settled, MarkerOk, Q.Consistent;
    forall i | 0 <= i < |rest| - 1 && rest[i].Reference? && rest[i].message.job < |s.db.jobs|
      ensures next.db.jobs[rest[i].message.job] == s.db.jobs[rest[i].message.job]
    {
      var last := rest[|rest| - 1];
      assert s.queue.pending[|back| + i] == rest[i] && s.queue.pending[|s.queue.pending| - 1] == last;
      if last.Reference? {
        OthersReferElsewhere(s.queue, last.message, |back| + i);
      }
    }
  }

  /** One worker's turns, as many as there are messages, settle every job that can be claimed
      by then: complete with the result its bytes determine, or failed for good if out of
      time. Only messages whose time has not come are left waiting. The worker goes on. */
  lemma QueueIsDrained(s: Stores, worker: WorkerId, clocks: seq<Clock>, from: int)
    requires DbOk(s.db) && Authentic(s.db) && MarkersMatch(s.db.jobs, s.queue)
    requires |clocks| == |s.queue.pending| && Starting(clocks, from)
    ensures var (s', alive) := Turns(s, worker, clocks);
            && alive
            && DbOk(s'.db) && Extends(s.db, s'.db) && MarkersMatch(s'.db.jobs, s'.queue)
            && (forall i :: 0 <= i < |s.queue.pending| && s.queue.pending[i].Reference?
                            && Ready(s.db, s.queue.pending[i].message.job, from) ==>
                  Settled(s', s.queue.pending[i].message.job))
            && (forall entry :: entry in s'.queue.pending ==> entry in s.queue.pending && NotYet(s.db, entry, from))
            && s'.queue.processing == s.queue.processing
            && (forall entry :: entry in s.queue.failed ==> entry in s'.queue.failed)
  {
    hide DbOk, Extends, Authentic, MarkersMatch, Turns, Settled, Ready, NotYet;
    assert s.queue.pending == [] + s.queue.pending;
    WorkOff(s, worker, clocks, [], s.queue.pending, from);
  }

  // ----- from total loss of Redis to every result -----

  lemma {:induction false} OldestAt(list: seq<Q.Entry>, i: nat)
    requires i < |list|
    ensures Q.OldestFirst(list)[|list| - 1 - i] == list[i]
  {
    if i > 0 {
      OldestAt(list[1..], i - 1);
    }
  }

  /** After Redis lost everything, one recovery and then one worker's turns settle every
      recoverable job within the limit: complete if its packet is in time, failed for good if
      not, whatever the others are. Nothing is left waiting. */
  lemma RecoveredWorkSettles(s: Stores, worker: WorkerId, now: int, limit: int, clocks: seq<Clock>)
    requires DbOk(s.db) && Authentic(s.db) && s.queue == Q.EMPTY && 1 <= limit <= 10_000
    requires |clocks| == |RecoverableAmong(s.db.jobs, |s.db.jobs|, now, limit)| && Starting(clocks, now)
    ensures var (end, alive) := Turns(RecoverPendingJobs(s, now, limit).0, worker, clocks);
            && alive
            && end.queue.pending == []
            && forall id :: id in RecoverableAmong(s.db.jobs, |s.db.jobs|, now, limit) ==> Settled(end, id)
  {
    hide DbOk, Extends, Authentic, MarkersMatch, RecoverPendingJobs, RecoverableAmong, Turns, Settled, Ready, NotYet;
    hide AllInQueue, NotQueued, IdSet, NewReferences, Q.OldestFirst;
    var ids := RecoverableAmong(s.db.jobs, |s.db.jobs|, now, limit);
    var recovered := RecoverPendingJobs(s, now, limit).0;
    EmptyMatches(s.db.jobs);
    RecoveryEffect(s, now, limit);
    PipelineSafety.AuthenticityKept(s.db, recovered.db);
    RebuiltReferences(s, now, limit);
    QueueIsDrained(recovered, worker, clocks, now);
    var end := Turns(recovered, worker, clocks).0;
    RebuiltIsReady(s.db.jobs, recovered.db, ids, now);
    assert forall i :: 0 <= i < |ids| ==> recovered.queue.pending[i] == Reference(s.db.jobs, ids[|ids| - 1 - i]);
    forall id | id in ids ensures Settled(end, id) {
      var k :| 0 <= k < |ids| && ids[k] == id;
      assert recovered.queue.pending[|ids| - 1 - k] == Reference(s.db.jobs, id);
    }
    assert end.queue.pending == [] by {
      if end.queue.pending != [] {
        LeftIsNotReady(recovered.db, recovered.queue.pending, end.queue.pending, now);
      }
    }
  }

  lemma LeftIsNotReady(db: Database, pending: seq<Q.Entry>, left: seq<Q.Entry>, from: int)
    requires forall i :: 0 <= i < |pending| ==> pending[i].Reference? && Ready(db, pending[i].message.job, from)
    requires left != []
    ensures exists entry :: entry in left && !(entry in pending && NotYet(db, entry, from))
  {
    var entry := left[0];
    assert entry in left;
  }

  lemma RebuiltReferences(s: Stores, now: int, limit: int)
    requires DbOk(s.db) && s.queue == Q.EMPTY && 1 <= limit <= 10_000
    ensures var ids := RecoverableAmong(s.db.jobs, |s.db.jobs|, now, limit);
            var pending := RecoverPendingJobs(s, now, limit).0.queue.pending;
            && |pending| == |ids|
            && InTable(s.db.jobs, ids)
            && forall i :: 0 <= i < |ids| ==> pending[i] == Reference(s.db.jobs, ids[|ids| - 1 - i])
  {
    hide DbOk, RecoverPendingJobs, RecoverableAmong, AllInQueue, AllWait, NotQueued, IdSet, Q.OldestFirst, Q.Listed;
    RecoverableWait(s.db.jobs, now, limit);
    RestartRebuild(s, now, limit);
    var ids := RecoverableAmong(s.db.jobs, |s.db.jobs|, now, limit);
    var pending := RecoverPendingJobs(s, now, limit).0.queue.pending;
    assert RefersTo(pending, s.db.jobs, ids);
    forall i | 0 <= i < |ids| ensures pending[i] == Reference(s.db.jobs, ids[|ids| - 1 - i]) {
      ReverseReference(pending, s.db.jobs, ids, i);
    }
  }

  /** From the right end, the list refers to these jobs. */
  predicate RefersTo(pending: seq<Q.Entry>, jobs: seq<Job>, ids: seq<JobId>)
    requires InTable(jobs, ids)
  {
    && |pending| == |ids|
    && forall k :: 0 <= k < |ids| ==> Q.OldestFirst(pending)[k] == Reference(jobs, ids[k])
  }

  lemma ReverseReference(pending: seq<Q.Entry>, jobs: seq<Job>, ids: seq<JobId>, i: nat)
    requires InTable(jobs, ids) && RefersTo(pending, jobs, ids) && i < |ids|
    ensures i < |pending| && pending[i] == Reference(jobs, ids[|ids| - 1 - i])
  {
    var k := |ids| - 1 - i;
    assert Q.OldestFirst(pending)[k] == Reference(jobs, ids[k]);
    OldestAt(pending, i);
  }

  lemma RebuiltIsReady(jobs: seq<Job>, later: Database, ids: seq<JobId>, at: int)
    requires InTable(jobs, ids) && AllInQueue(jobs, later.jobs, ids)
    ensures forall i :: 0 <= i < |ids| ==> Ready(later, ids[i], at)
  {
    forall i | 0 <= i < |ids| ensures Ready(later, ids[i], at) {
      assert ids[i] in ids;
    }
  }
}
