/** A turn of the worker's loop is a run of the pipeline: the steps of the state machine
    are the steps of the loop. */
module WorkerRuns {
  import opened Outcomes
  import opened Wire
  import opened FrameCodec
  import opened JobLifecycle
  import opened Storage
  import opened Pipeline
  import opened GatewayRuns
  import GatewayFlow
  import Flow = WorkerFlow
  import Q = RedisQueue

  /** The system after a turn: the worker is idle again, or has ended. */
  function After(s: System, worker: WorkerId, end: (GatewayFlow.Stores, bool)): System {
    if end.1 then SetWorker(WithStores(s, end.0), worker, Idle) else RemoveWorker(WithStores(s, end.0), worker)
  }

  lemma SetTwice(s: System, worker: WorkerId, first: Worker, second: Worker)
    ensures SetWorker(SetWorker(s, worker, first), worker, second) == SetWorker(s, worker, second)
    ensures RemoveWorker(SetWorker(s, worker, first), worker) == RemoveWorker(s, worker)
  {
    assert s.workers[worker := first][worker := second] == s.workers[worker := second];
    assert s.workers[worker := first] - {worker} == s.workers - {worker};
  }

  /** The last script of a turn, after a reported failure. */
  lemma SettleFailure(s: System, worker: WorkerId, message: Q.QueueMessage, failed: bool, sha: Bytes -> Digest)
    ensures var state := if failed then Discard(message) else Return(message);
            var (queue, done) := if failed then Q.DeadLetter(s.queue, message) else Q.Retry(s.queue, message);
            Step(SetWorker(s, worker, state), Work(worker, Settle(true)), sha)
            == After(s, worker, (GatewayFlow.Stores(s.db, queue), done))
  {
    SetTwice(s, worker, Discard(message), Idle);
    SetTwice(s, worker, Return(message), Idle);
  }

  lemma FailureIsRun(
    s: System, worker: WorkerId, message: Q.QueueMessage, claim: ClaimView, temporary: bool, sha: Bytes -> Digest)
    returns (actions: seq<Action>)
    ensures Run(SetWorker(s, worker, Failing(message, claim, temporary)), actions, sha)
            == After(s, worker, Flow.ReportFailure(StoresOf(s), worker, message, claim.work, temporary, s.now))
  {
    hide FailJob, Q.DeadLetter, Q.Retry, SettleStep;
    var start := SetWorker(s, worker, Failing(message, claim, temporary));
    var record := Work(worker, RecordFailure(true));
    var (db, failure) := FailJob(s.db, claim.work.job, worker, temporary, BASE_BACKOFF_SECONDS, s.now);
    if failure.Err? {
      RunOne(start, record, sha);
      SetTwice(s.(db := db), worker, Failing(message, claim, temporary), Idle);
      return [record];
    }
    var failed := failure.value.state == FAILED;
    var settle := Work(worker, Settle(true));
    Run1(start, record, [settle], sha);
    var last := if failed then Discard(message) else Return(message);
    SetTwice(s.(db := db), worker, Failing(message, claim, temporary), last);
    RunOne(Step(start, record, sha), settle, sha);
    SettleFailure(s.(db := db), worker, message, failed, sha);
    return [record] + [settle];
  }

  /** Later, with nothing else changed. */
  function Later(s: System, at: int): System {
    s.(now := at)
  }

  lemma TickIsStep(s: System, worker: WorkerId, state: Worker, at: int, sha: Bytes -> Digest)
    requires s.now <= at
    ensures Step(SetWorker(s, worker, state), Tick(at - s.now), sha) == SetWorker(Later(s, at), worker, state)
  {
  }

  lemma StoredIsRun(s: System, worker: WorkerId, message: Q.QueueMessage, endAt: int, sha: Bytes -> Digest)
    requires s.now <= endAt
    ensures Run(SetWorker(s, worker, Stored(message)), [Tick(endAt - s.now)] + [Work(worker, Settle(true))], sha)
            == After(Later(s, endAt), worker, (GatewayFlow.Stores(s.db, Q.Ack(s.queue, message).0), true))
  {
    hide Q.Ack;
    TickIsStep(s, worker, Stored(message), endAt, sha);
    Run1(SetWorker(s, worker, Stored(message)), Tick(endAt - s.now), [Work(worker, Settle(true))], sha);
    RunOne(SetWorker(Later(s, endAt), worker, Stored(message)), Work(worker, Settle(true)), sha);
    SetTwice(Later(s, endAt).(queue := Q.Ack(s.queue, message).0), worker, Stored(message), Idle);
  }

  lemma ProcessesTo(s: System, worker: WorkerId, message: Q.QueueMessage, claim: ClaimView, sha: Bytes -> Digest)
    ensures Step(SetWorker(s, worker, Working(message, claim)), Work(worker, Process), sha)
            == SetWorker(
                 s, worker,
                 if Decode(claim.work.rawBody, claim.work.receivedAt) == Ok(claim.work.values) then
                   Storing(message, claim, ProcessingResult(claim.work.values, claim.work.receivedAt))
                 else Failing(message, claim, false))
  {
    hide Decode;
    SetTwice(
      s, worker, Working(message, claim),
      Storing(message, claim, ProcessingResult(claim.work.values, claim.work.receivedAt)));
    SetTwice(s, worker, Working(message, claim), Failing(message, claim, false));
  }

  lemma StoresTo(
    s: System, worker: WorkerId, message: Q.QueueMessage, claim: ClaimView, result: ProcessingResult,
    sha: Bytes -> Digest)
    ensures var (db, stored) := CompleteJob(s.db, claim.work.job, result, worker, s.now);
            Step(SetWorker(s, worker, Storing(message, claim, result)), Work(worker, Store(true)), sha)
            == SetWorker(s.(db := db), worker, if stored.Ok? then Stored(message) else Failing(message, claim, true))
  {
    hide CompleteJob;
    var db := CompleteJob(s.db, claim.work.job, result, worker, s.now).0;
    SetTwice(s.(db := db), worker, Storing(message, claim, result), Stored(message));
    SetTwice(s.(db := db), worker, Storing(message, claim, result), Failing(message, claim, true));
  }

  /** Time passes, and then the worker goes on with its actions. */
  lemma AfterTick(
    s: System, worker: WorkerId, state: Worker, at: int, actions: seq<Action>, sha: Bytes -> Digest)
    requires s.now <= at
    ensures Run(SetWorker(s, worker, state), [Tick(at - s.now)] + actions, sha)
            == Run(SetWorker(Later(s, at), worker, state), actions, sha)
  {
    hide Step;
    TickIsStep(s, worker, state, at, sha);
    Run1(SetWorker(s, worker, state), Tick(at - s.now), actions, sha);
  }

  lemma StoringIsRun(
    s: System, worker: WorkerId, message: Q.QueueMessage, claim: ClaimView, result: ProcessingResult, endAt: int,
    sha: Bytes -> Digest)
    returns (actions: seq<Action>)
    requires s.now <= endAt
    ensures var (db, stored) := CompleteJob(s.db, claim.work.job, result, worker, s.now);
            var stores := GatewayFlow.Stores(db, s.queue);
            Run(SetWorker(s, worker, Storing(message, claim, result)), actions, sha)
            == After(
                 Later(s, endAt), worker,
                 if stored.Ok? then (GatewayFlow.Stores(db, Q.Ack(s.queue, message).0), true)
                 else Flow.ReportFailure(stores, worker, message, claim.work, true, endAt))
  {
    hide CompleteJob, Flow.ReportFailure, Q.Ack, Step, SetWorker;
    var (db, stored) := CompleteJob(s.db, claim.work.job, result, worker, s.now);
    var s' := s.(db := db);
    var last: seq<Action>;
    if stored.Ok? {
      last := [Tick(endAt - s.now)] + [Work(worker, Settle(true))];
      StoredIsRun(s', worker, message, endAt, sha);
    } else {
      var report := FailureIsRun(Later(s', endAt), worker, message, claim, true, sha);
      AfterTick(s', worker, Failing(message, claim, true), endAt, report, sha);
      last := [Tick(endAt - s.now)] + report;
    }
    StoresTo(s, worker, message, claim, result, sha);
    Run1(SetWorker(s, worker, Storing(message, claim, result)), Work(worker, Store(true)), last, sha);
    actions := [Work(worker, Store(true))] + last;
  }

  lemma WorkIsRun(
    s: System, worker: WorkerId, message: Q.QueueMessage, claim: ClaimView, clock: Flow.Clock, sha: Bytes -> Digest)
    returns (actions: seq<Action>)
    requires s.now <= clock.storeAt <= clock.endAt
    ensures Run(SetWorker(s, worker, Working(message, claim)), actions, sha)
            == After(Later(s, clock.endAt), worker, Flow.ProcessWork(StoresOf(s), worker, message, claim.work, clock))
  {
    hide Decode, CompleteJob, Flow.ReportFailure, Q.Ack, Step, SetWorker;
    var start := SetWorker(s, worker, Working(message, claim));
    ProcessesTo(s, worker, message, claim, sha);
    var rest: seq<Action>;
    if Decode(claim.work.rawBody, claim.work.receivedAt) == Ok(claim.work.values) {
      var result := ProcessingResult(claim.work.values, claim.work.receivedAt);
      var storing := StoringIsRun(Later(s, clock.storeAt), worker, message, claim, result, clock.endAt, sha);
      AfterTick(s, worker, Storing(message, claim, result), clock.storeAt, storing, sha);
      rest := [Tick(clock.storeAt - s.now)] + storing;
    } else {
      var report := FailureIsRun(Later(s, clock.endAt), worker, message, claim, false, sha);
      AfterTick(s, worker, Failing(message, claim, false), clock.endAt, report, sha);
      rest := [Tick(clock.endAt - s.now)] + report;
    }
    Run1(start, Work(worker, Process), rest, sha);
    return [Work(worker, Process)] + rest;
  }

  lemma RescueIsRun(s: System, worker: WorkerId, message: Q.QueueMessage, sha: Bytes -> Digest)
    ensures Step(SetWorker(s, worker, Rescue(message)), Work(worker, Settle(true)), sha)
            == After(s, worker, (GatewayFlow.Stores(s.db, Q.Retry(s.queue, message).0), true))
  {
    hide Q.Retry;
    SetTwice(s.(queue := Q.Retry(s.queue, message).0), worker, Rescue(message), Idle);
  }

  /** Where the worker stands after it looked at a job it could not claim. */
  function Looked(db: Database, message: Q.QueueMessage): Worker {
    if message.job >= |db.jobs| || db.jobs[message.job].state == COMPLETE then AckUnclaimed(message)
    else if db.jobs[message.job].state == FAILED then DiscardUnclaimed(message)
    else ReturnUnclaimed(message)
  }

  function ScriptOf(q: Q.QueueState, state: Worker): (Q.QueueState, bool)
    requires state.AckUnclaimed? || state.DiscardUnclaimed? || state.ReturnUnclaimed?
  {
    match state
    case AckUnclaimed(message) => Q.Ack(q, message)
    case DiscardUnclaimed(message) => Q.DeadLetter(q, message)
    case ReturnUnclaimed(message) => Q.Retry(q, message)
  }

  lemma LooksAndSettles(s: System, worker: WorkerId, message: Q.QueueMessage, sha: Bytes -> Digest)
    ensures var state := Looked(s.db, message);
            var (queue, done) := ScriptOf(s.queue, state);
            && Step(SetWorker(s, worker, Unclaimed(message)), Work(worker, LookAgain), sha)
               == SetWorker(s, worker, state)
            && Step(SetWorker(s, worker, state), Work(worker, Settle(true)), sha)
               == SetWorker(s.(queue := queue), worker, if done then Idle else Rescue(message))
  {
    hide Q.Ack, Q.DeadLetter, Q.Retry;
    var state := Looked(s.db, message);
    var queue := ScriptOf(s.queue, state).0;
    SetTwice(s, worker, Unclaimed(message), state);
    SetTwice(s.(queue := queue), worker, state, Idle);
    SetTwice(s.(queue := queue), worker, state, Rescue(message));
  }

  lemma UnclaimedIsRun(s: System, worker: WorkerId, message: Q.QueueMessage, sha: Bytes -> Digest)
    returns (actions: seq<Action>)
    ensures Run(SetWorker(s, worker, Unclaimed(message)), actions, sha)
            == After(s, worker, (Flow.ReturnOrFinishUnclaimed(StoresOf(s), message), true))
  {
    hide Step, SetWorker, Q.Ack, Q.DeadLetter, Q.Retry;
    var state := Looked(s.db, message);
    var (queue, done) := ScriptOf(s.queue, state);
    var look, settle := Work(worker, LookAgain), Work(worker, Settle(true));
    LooksAndSettles(s, worker, message, sha);
    var last: seq<Action> := [];
    if !done {
      last := [settle];
      var rescue := SetWorker(s.(queue := queue), worker, Rescue(message));
      RunOne(rescue, settle, sha);
      RescueIsRun(s.(queue := queue), worker, message, sha);
    }
    Run1(SetWorker(s, worker, state), settle, last, sha);
    Run1(SetWorker(s, worker, Unclaimed(message)), look, [settle] + last, sha);
    return [look] + ([settle] + last);
  }

  lemma ClaimsTo(s: System, worker: WorkerId, message: Q.QueueMessage, sha: Bytes -> Digest)
    ensures var (db, claim) := ClaimJob(s.db, message.job, worker, s.now, LEASE_SECONDS);
            Step(SetWorker(s, worker, Received(message)), Work(worker, ClaimWork(true)), sha)
            == SetWorker(
                 s.(db := db), worker,
                 if claim.Err? then Rescue(message)
                 else if claim.value.None? then Unclaimed(message)
                 else Working(message, ClaimView(claim.value.value, s.now + LEASE_SECONDS * SECOND_US)))
  {
    hide ClaimJob;
    var (db, claim) := ClaimJob(s.db, message.job, worker, s.now, LEASE_SECONDS);
    SetTwice(s.(db := db), worker, Received(message), Rescue(message));
    SetTwice(s.(db := db), worker, Received(message), Unclaimed(message));
    if claim.Ok? && claim.value.Some? {
      SetTwice(
        s.(db := db), worker, Received(message),
        Working(message, ClaimView(claim.value.value, s.now + LEASE_SECONDS * SECOND_US)));
    }
  }

  /** The end of a turn that does not work: the worker is idle and time passes. */
  lemma IdleUntil(s: System, worker: WorkerId, stores: GatewayFlow.Stores, endAt: int, sha: Bytes -> Digest)
    requires s.now <= endAt
    ensures Run(After(s, worker, (stores, true)), [Tick(endAt - s.now)], sha)
            == After(Later(s, endAt), worker, (stores, true))
  {
    RunOne(After(s, worker, (stores, true)), Tick(endAt - s.now), sha);
  }

  lemma RescuedIsRun(s: System, worker: WorkerId, message: Q.QueueMessage, endAt: int, sha: Bytes -> Digest)
    returns (actions: seq<Action>)
    requires s.now <= endAt
    ensures Run(SetWorker(s, worker, Rescue(message)), actions, sha)
            == After(Later(s, endAt), worker, (GatewayFlow.Stores(s.db, Q.Retry(s.queue, message).0), true))
  {
    hide Step, SetWorker, After, Q.Retry;
    var settle := Work(worker, Settle(true));
    Run1(SetWorker(s, worker, Rescue(message)), settle, [Tick(endAt - s.now)], sha);
    RescueIsRun(s, worker, message, sha);
    IdleUntil(s, worker, GatewayFlow.Stores(s.db, Q.Retry(s.queue, message).0), endAt, sha);
    actions := [settle] + [Tick(endAt - s.now)];
  }

  lemma MessageIsRun(s: System, worker: WorkerId, message: Q.QueueMessage, clock: Flow.Clock, sha: Bytes -> Digest)
    returns (actions: seq<Action>)
    requires s.now == clock.claimAt <= clock.storeAt <= clock.endAt
    ensures Run(SetWorker(s, worker, Received(message)), actions, sha)
            == After(Later(s, clock.endAt), worker, Flow.HandleMessage(StoresOf(s), worker, message, clock))
  {
    hide ClaimJob, Step, SetWorker, Flow.ProcessWork, Flow.ReturnOrFinishUnclaimed, Q.Retry;
    var (db, claim) := ClaimJob(s.db, message.job, worker, s.now, LEASE_SECONDS);
    var s' := s.(db := db);
    ClaimsTo(s, worker, message, sha);
    var rest: seq<Action>;
    if claim.Err? {
      rest := RescuedIsRun(s', worker, message, clock.endAt, sha);
    } else if claim.value.None? {
      var settled := UnclaimedIsRun(s', worker, message, sha);
      var stores := Flow.ReturnOrFinishUnclaimed(StoresOf(s'), message);
      RunConcat(SetWorker(s', worker, Unclaimed(message)), settled, [Tick(clock.endAt - s.now)], sha);
      IdleUntil(s', worker, stores, clock.endAt, sha);
      rest := settled + [Tick(clock.endAt - s.now)];
    } else {
      var view := ClaimView(claim.value.value, s.now + LEASE_SECONDS * SECOND_US);
      rest := WorkIsRun(s', worker, message, view, clock, sha);
    }
    Run1(SetWorker(s, worker, Received(message)), Work(worker, ClaimWork(true)), rest, sha);
    return [Work(worker, ClaimWork(true))] + rest;
  }

  predicate InOrder(from: int, clock: Flow.Clock) {
    from <= clock.claimAt <= clock.storeAt <= clock.endAt
  }

  /** From any state in which the worker is idle, its next turn is a run. */
  lemma TurnIsRun(s: System, worker: WorkerId, clock: Flow.Clock, sha: Bytes -> Digest) returns (actions: seq<Action>)
    requires worker in s.workers && s.workers[worker] == Idle && InOrder(s.now, clock)
    ensures Run(s, actions, sha) == After(Later(s, clock.endAt), worker, Flow.Turn(StoresOf(s), worker, clock))
  {
    hide Q.Claim, Flow.HandleMessage;
    var (queue, claimed) := Q.Claim(s.queue);
    var tick, take := Tick(clock.claimAt - s.now), Work(worker, Take(true));
    var s1 := Later(s, clock.claimAt);
    var s2 := s1.(queue := queue);
    assert s.workers == s.workers[worker := Idle];
    var rest: seq<Action>;
    if claimed.Message? {
      rest := MessageIsRun(s2, worker, claimed.message, clock, sha);
    } else {
      rest := [Tick(clock.endAt - clock.claimAt)];
      RunOne(s2, Tick(clock.endAt - clock.claimAt), sha);
    }
    Run1(s1, take, rest, sha);
    Run1(s, tick, [take] + rest, sha);
    return [tick] + ([take] + rest);
  }

  predicate AllInOrder(from: int, clocks: seq<Flow.Clock>)
    decreases clocks
  {
    clocks == [] || (InOrder(from, clocks[0]) && AllInOrder(clocks[0].endAt, clocks[1..]))
  }

  function EndOf(from: int, clocks: seq<Flow.Clock>): int
    decreases clocks
  {
    if clocks == [] then from else EndOf(clocks[0].endAt, clocks[1..])
  }

  /** So are any number of turns of a worker that goes on. */
  lemma {:induction false} TurnsAreRun(s: System, worker: WorkerId, clocks: seq<Flow.Clock>, sha: Bytes -> Digest)
    returns (actions: seq<Action>)
    requires worker in s.workers && s.workers[worker] == Idle && AllInOrder(s.now, clocks)
    requires Flow.Turns(StoresOf(s), worker, clocks).1
    ensures Run(s, actions, sha)
            == WithStores(Later(s, EndOf(s.now, clocks)), Flow.Turns(StoresOf(s), worker, clocks).0)
    decreases clocks
  {
    hide Flow.Turn, Step;
    if clocks == [] {
      actions := [];
    } else {
      var first := TurnIsRun(s, worker, clocks[0], sha);
      var next := Run(s, first, sha);
      IdleAgain(s, worker, clocks[0], Flow.Turn(StoresOf(s), worker, clocks[0]).0);
      var rest := TurnsAreRun(next, worker, clocks[1..], sha);
      RunConcat(s, first, rest, sha);
      actions := first + rest;
    }
  }

  lemma IdleAgain(s: System, worker: WorkerId, clock: Flow.Clock, stores: GatewayFlow.Stores)
    requires worker in s.workers && s.workers[worker] == Idle
    ensures After(Later(s, clock.endAt), worker, (stores, true)) == WithStores(Later(s, clock.endAt), stores)
  {
    assert s.workers[worker := Idle] == s.workers;
  }
}
