/** The worker decodes the preserved bytes again, at the receipt time of the packet. When
    does that agree with what the gateway stored, and what does a failed job mean? */
module PipelineRedecode {
  import opened Outcomes
  import opened Wire
  import opened FrameCodec
  import opened JobLifecycle
  import opened Storage
  import opened StorageInvariant
  import opened Pipeline
  import opened PipelineInvariant
  import opened PipelineSafety
  import opened PipelineTheorems
  import opened PipelineJobs
  import Q = RedisQueue

  /** The packet's sample time is acceptable at its own receipt time, not only at the
      possibly later time of the request that decoded it. */
  predicate InTime(db: Database, i: nat) {
    && i < |db.packets|
    && db.packets[i].source < |db.receipts|
    && StampedBy(db.packets[i].values, db.receipts[db.packets[i].source].receivedAt)
  }

  lemma RedecodeAgreesIff(db: Database, i: nat)
    requires Authentic(db) && i < |db.packets|
    ensures var packet := db.packets[i];
            packet.source < |db.receipts|
            && (Decode(db.receipts[packet.source].rawBody, db.receipts[packet.source].receivedAt) == Ok(packet.values)
                <==> InTime(db, i))
  {
    hide Decode, WireForm;
    var packet := db.packets[i];
    assert AuthenticPacket(packet, db.receipts);
    var receipt := db.receipts[packet.source];
    if InTime(db, i) {
      DecodeInvertsEncode(packet.values, receipt.receivedAt);
    } else if Decode(receipt.rawBody, receipt.receivedAt) == Ok(packet.values) {
      EncodeInvertsDecode(receipt.rawBody, receipt.receivedAt);
    }
  }

  lemma InTimeForever(db: Database, later: Database, i: nat)
    requires Extends(db, later) && i < |db.packets| && db.packets[i].source < |db.receipts|
    ensures InTime(later, i) <==> InTime(db, i)
  {
    assert ReceiptKept(db.receipts[db.packets[i].source], later.receipts[db.packets[i].source]);
  }

  /** In every run a worker's integrity check fires exactly for packets out of time. */
  lemma IntegrityCheckIff(actions: seq<Action>, sha: Bytes -> Digest, worker: WorkerId)
    requires var s := Run(START, actions, sha); worker in s.workers && s.workers[worker].Working?
    ensures var s := Run(START, actions, sha);
            var id, next := s.workers[worker].message.job, ProcessStep(s, worker).workers[worker];
            if InTime(s.db, id) then next.Storing? else next.Failing? && !next.temporary
  {
    hide DbOk, LiveOk, Run, Decode;
    var s := Run(START, actions, sha);
    Reachable(actions, sha);
    PositionOf(s, worker, sha);
    AuthenticOf(s, sha);
    RedecodeAgreesIff(s.db, s.workers[worker].message.job);
  }

  lemma AuthenticOf(s: System, sha: Bytes -> Digest)
    requires LiveOk(s, sha, None)
    ensures Authentic(s.db)
  {
  }

  /** A packet accepted by the request that recorded its receipt decodes to the stored
      values forever after. */
  lemma SameRequestAgrees(
    earlier: seq<Action>, receipt: ReceiptId, maxAttempts: int, later: seq<Action>, sha: Bytes -> Digest)
    requires var s := Run(START, earlier, sha);
             && receipt < |s.db.receipts|
             && var accept := Accept(receipt, s.db.receipts[receipt].receivedAt, maxAttempts);
                |Step(s, accept, sha).db.packets| > |s.db.packets|
    ensures var s := Run(START, earlier, sha);
            var accepted := Step(s, Accept(receipt, s.db.receipts[receipt].receivedAt, maxAttempts), sha);
            var db, i := Run(accepted, later, sha).db, |s.db.packets|;
            && InTime(db, i)
            && var stored := db.receipts[db.packets[i].source];
               Decode(stored.rawBody, stored.receivedAt) == Ok(db.packets[i].values)
  {
    hide DbOk, LiveOk, Run, AcceptStep, Decode;
    var s := Run(START, earlier, sha);
    var action := Accept(receipt, s.db.receipts[receipt].receivedAt, maxAttempts);
    var accepted := Step(s, action, sha);
    Reachable(earlier, sha);
    StepKeeps(s, action, sha);
    RunKeeps(accepted, later, sha);
    SequencesHold(s.db);
    AcceptedInTime(s, receipt, maxAttempts);
    InTimeForever(accepted.db, Run(accepted, later, sha).db, |s.db.packets|);
    AuthenticOf(Run(accepted, later, sha), sha);
    RedecodeAgreesIff(Run(accepted, later, sha).db, |s.db.packets|);
  }

  lemma SequencesHold(db: Database)
    requires DbOk(db)
    ensures SequencesOk(db.packets, db.sequences)
  {
  }

  lemma AcceptedInTime(s: System, id: ReceiptId, maxAttempts: int)
    requires SequencesOk(s.db.packets, s.db.sequences) && id < |s.db.receipts|
    requires |AcceptStep(s, id, s.db.receipts[id].receivedAt, maxAttempts).db.packets| > |s.db.packets|
    ensures InTime(AcceptStep(s, id, s.db.receipts[id].receivedAt, maxAttempts).db, |s.db.packets|)
  {
    var at := s.db.receipts[id].receivedAt;
    var values := Decode(s.db.receipts[id].rawBody, at).value;
    EncodeInvertsDecode(s.db.receipts[id].rawBody, at);
    AddedPacket(s.db, id, values, maxAttempts);
  }

  lemma AddedPacket(db: Database, id: ReceiptId, values: TelemetryFrame, maxAttempts: int)
    requires SequencesOk(db.packets, db.sequences)
    requires |AcceptPacket(db, id, values, maxAttempts).0.packets| > |db.packets|
    ensures var db' := AcceptPacket(db, id, values, maxAttempts).0;
            && |db'.packets| == |db.packets| + 1
            && db'.packets[|db.packets|].values == values
            && db'.packets[|db.packets|].source == id < |db.receipts| == |db'.receipts|
            && db'.receipts[id].receivedAt == db.receipts[id].receivedAt
  {
    if FindPacket(db.packets, KeyOf(values)).None? {
      var entry := NewKeyShape(db, id, values, maxAttempts);
    }
  }

  // ----- what a finished job means -----

  /** A failed job used all its attempts, or its packet is out of time; a complete one is
      in time. */
  predicate FinishedForReason(db: Database, id: JobId)
    requires id < |db.jobs|
  {
    && (db.jobs[id].state == FAILED ==> db.jobs[id].attemptCount >= db.jobs[id].maxAttempts || !InTime(db, id))
    && (db.jobs[id].state == COMPLETE ==> InTime(db, id))
  }

  predicate DecidesForReason(db: Database, state: Worker) {
    && (state.Failing? && !state.temporary ==> !InTime(db, state.claim.work.job))
    && (state.Storing? ==> InTime(db, state.claim.work.job))
  }

  predicate ReasonsOk(s: System) {
    && (forall id :: 0 <= id < |s.db.jobs| ==> FinishedForReason(s.db, id))
    && (forall worker :: worker in s.workers ==> DecidesForReason(s.db, s.workers[worker]))
  }

  /** The worker has a result to store, or a permanent failure to report. */
  predicate Decided(state: Worker) {
    state.Storing? || (state.Failing? && !state.temporary)
  }

  /** Only Process decides, and by the comparison alone. */
  lemma DecisionComesFromProcess(s: System, action: Action, sha: Bytes -> Digest, worker: WorkerId)
    requires worker in Step(s, action, sha).workers && Decided(Step(s, action, sha).workers[worker])
    requires worker !in s.workers || s.workers[worker] != Step(s, action, sha).workers[worker]
    ensures worker in s.workers && s.workers[worker].Working?
    ensures var claim, state := s.workers[worker].claim, Step(s, action, sha).workers[worker];
            && state.claim == claim
            && (Decode(claim.work.rawBody, claim.work.receivedAt) == Ok(claim.work.values) <==> state.Storing?)
  {
    hide Decode, AcceptPacket, RecordDelivery, RejectDelivery, MarkJobQueued, ClaimJob, CompleteJob, FailJob;
    hide Q.Claim, Q.Enqueue, Q.Ack, Q.Retry, Q.DeadLetter, RecoverableJobs;
    match action
    case Work(actor, step) =>
      if actor in s.workers {
        OnlyTheActorMoves(s, actor, step, worker);
      }
    case BeginRecovery(gateway, limit) => RecoveryMovesNoWorker(s, gateway, limit);
    case _ =>
  }

  lemma RecoveryMovesNoWorker(s: System, gateway: GatewayId, limit: int)
    ensures RecoveryStep(s, gateway, limit).workers == s.workers
  {
    hide RecoverableJobs;
  }

  lemma OnlyTheActorMoves(s: System, actor: WorkerId, step: WorkerStep, worker: WorkerId)
    requires actor in s.workers
    ensures var s' := WorkStep(s, actor, step);
            if worker != actor then
              (worker in s'.workers <==> worker in s.workers)
              && (worker in s.workers ==> s'.workers[worker] == s.workers[worker])
            else worker in s'.workers && Decided(s'.workers[worker]) ==>
              s'.workers[worker] == s.workers[worker] || (step.Process? && s.workers[worker].Working?)
  {
    hide Decode, ClaimJob, CompleteJob, FailJob, Q.Claim, Q.Ack, Q.Retry, Q.DeadLetter;
  }

  lemma StepKeepsReasons(s: System, action: Action, sha: Bytes -> Digest)
    requires SystemOk(s, sha) && ReasonsOk(s)
    ensures ReasonsOk(Step(s, action, sha))
  {
    hide DbOk, LiveOk, Step, Extends, InTime, Authentic;
    var s' := Step(s, action, sha);
    StepKeeps(s, action, sha);
    StepFollows(s, action, sha);
    forall worker | worker in s'.workers ensures DecidesForReason(s'.db, s'.workers[worker]) {
      DecisionKept(s, action, sha, worker);
    }
    forall id | 0 <= id < |s'.db.jobs| ensures FinishedForReason(s'.db, id) {
      if id < |s.db.jobs| {
        FinishKept(s, action, s'.db, sha, id);
      }
    }
  }

  lemma DecisionKept(s: System, action: Action, sha: Bytes -> Digest, worker: WorkerId)
    requires SystemOk(s, sha) && ReasonsOk(s)
    requires Extends(s.db, Step(s, action, sha).db) && worker in Step(s, action, sha).workers
    ensures DecidesForReason(Step(s, action, sha).db, Step(s, action, sha).workers[worker])
  {
    hide DbOk, LiveOk, Step, Extends, Authentic, Decode;
    var s' := Step(s, action, sha);
    var state := s'.workers[worker];
    if Decided(state) {
      AuthenticOf(s, sha);
      if worker !in s.workers || s.workers[worker] != state {
        DecisionComesFromProcess(s, action, sha, worker);
      }
      PositionOf(s, worker, sha);
      var id := state.claim.work.job;
      RedecodeAgreesIff(s.db, id);
      InTimeForever(s.db, s'.db, id);
    }
  }

  /** A row that becomes finished is finished by a worker that decided so, or by running out
      of attempts. */
  lemma FinishComesFromWorker(s: System, action: Action, db': Database, id: JobId)
    requires id < |s.db.jobs| && RowsFollow(s, action, db'.jobs) && JobOk(s.db.jobs[id])
    requires !Terminal(s.db.jobs[id]) && Terminal(db'.jobs[id])
    ensures EventOf(s, action, id).Some? && action.Work? && action.worker in s.workers
    ensures var state := s.workers[action.worker];
            && (state.Storing? || state.Failing?) && state.claim.work.job == id
            && (db'.jobs[id].state == COMPLETE ==> state.Storing?)
            && (db'.jobs[id].state == FAILED ==>
                  state.Failing? && (!state.temporary || db'.jobs[id].attemptCount >= db'.jobs[id].maxAttempts))
  {
    assert db'.jobs[id] == Happen(s.db.jobs[id], EventOf(s, action, id));
  }

  lemma FinishKept(s: System, action: Action, db': Database, sha: Bytes -> Digest, id: JobId)
    requires SystemOk(s, sha) && ReasonsOk(s) && Extends(s.db, db')
    requires id < |s.db.jobs| && RowsFollow(s, action, db'.jobs)
    ensures FinishedForReason(db', id)
  {
    hide LiveOk, DbOk, PacketsOk, ResultsOk, InTime, Authentic, RowsFollow, JobOk;
    AuthenticOf(s, sha);
    TablesOk(s.db);
    RowOk(s.db, id);
    RedecodeAgreesIff(s.db, id);
    InTimeForever(s.db, db', id);
    assert FinishedForReason(s.db, id);
    assert JobKept(s.db.jobs[id], db'.jobs[id]);
    if !Terminal(s.db.jobs[id]) && Terminal(db'.jobs[id]) {
      FinishComesFromWorker(s, action, db', id);
      assert DecidesForReason(s.db, s.workers[action.worker]);
    }
  }

  lemma RowOk(db: Database, id: JobId)
    requires JobsOk(db.jobs, db.packets) && id < |db.jobs|
    ensures JobOk(db.jobs[id]) && id < |db.packets|
  {
  }

  lemma {:induction false} RunKeepsReasons(s: System, actions: seq<Action>, sha: Bytes -> Digest)
    requires SystemOk(s, sha) && ReasonsOk(s)
    ensures ReasonsOk(Run(s, actions, sha))
    decreases actions
  {
    hide SystemOk, ReasonsOk, Step;
    if actions != [] {
      StepKeeps(s, actions[0], sha);
      StepKeepsReasons(s, actions[0], sha);
      RunKeepsReasons(Step(s, actions[0], sha), actions[1..], sha);
    }
  }

  /** In every run: a FAILED job used up its attempts, unless its packet was accepted by a
      replayed request although its sample time was too late for its own receipt time; and
      a COMPLETE job's packet is in time. */
  lemma FinishedOnlyForReason(actions: seq<Action>, sha: Bytes -> Digest, id: JobId)
    requires id < |Run(START, actions, sha).db.jobs|
    ensures FinishedForReason(Run(START, actions, sha).db, id)
  {
    hide SystemOk, Step;
    StartOk(sha);
    RunKeepsReasons(START, actions, sha);
  }
}
