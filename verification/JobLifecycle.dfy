/** The life of one processing job: what each repository transaction does to its row,
    and what holds of the row over every history of such transactions. */
module JobLifecycle {
  import opened Outcomes

  type JobId = nat
  type WorkerId = nat

  const SECOND_US := 1_000_000
  const MAX_BACKOFF_SECONDS := 300

  datatype JobState = PENDING_QUEUE | QUEUED | PROCESSING | RETRY_WAIT | COMPLETE | FAILED

  datatype PacketKey = PacketKey(payloadId: int, bootId: int, sequenceNumber: int)

  /** A row of the job table; the job id is its place in order of creation. */
  datatype Job = Job(
    packet: PacketKey,
    state: JobState,
    queueMessage: Option<JobId>,
    attemptCount: int,
    maxAttempts: int,
    claimedBy: Option<WorkerId>,
    leaseExpiresAt: Option<int>,
    nextAttemptAt: Option<int>)

  datatype StorageError =
    | ValueError
    | DeliveryNotFound
    | InvalidDeliveryState
    | JobNotFound
    | ResultConflict
    | Inconsistent

  function NewJob(packet: PacketKey, maxAttempts: int): Job {
    Job(packet, PENDING_QUEUE, None, 0, maxAttempts, None, None, None)
  }

  // ----- the transactions, on one row -----

  /** The new row, and whether this call moved it. */
  function MarkQueued(job: Job, message: JobId): Result<(Job, bool), StorageError> {
    if job.state == QUEUED then
      if job.queueMessage != Some(message) then Err(InvalidDeliveryState) else Ok((job, false))
    else if job.state !in {PENDING_QUEUE, RETRY_WAIT} then Err(InvalidDeliveryState)
    else Ok((job.(state := QUEUED, queueMessage := Some(message), nextAttemptAt := None), true))
  }

  predicate LeaseExpired(job: Job, now: int) {
    job.state == PROCESSING && job.leaseExpiresAt.Some? && job.leaseExpiresAt.value <= now
  }

  predicate RetryDue(job: Job, now: int) {
    job.state == RETRY_WAIT && job.nextAttemptAt.Some? && job.nextAttemptAt.value <= now
  }

  predicate Claimable(job: Job, now: int) {
    job.state == QUEUED || LeaseExpired(job, now) || RetryDue(job, now)
  }

  function Claim(job: Job, worker: WorkerId, now: int, leaseSeconds: int): Job {
    job.(state := PROCESSING, attemptCount := job.attemptCount + 1, claimedBy := Some(worker),
         leaseExpiresAt := Some(now + leaseSeconds * SECOND_US), nextAttemptAt := None)
  }

  /** What every write by a worker demands of the row first. */
  predicate OwnedBy(job: Job, worker: WorkerId) {
    job.state == PROCESSING && job.claimedBy == Some(worker)
  }

  function Complete(job: Job): Job {
    job.(state := COMPLETE, leaseExpiresAt := None, nextAttemptAt := None)
  }

  function Power2(n: nat): (p: nat)
    ensures p >= 1
  {
    if n == 0 then 1 else 2 * Power2(n - 1)
  }

  function Backoff(baseSeconds: int, attemptCount: int): int {
    var delay := baseSeconds * Power2(if attemptCount >= 1 then attemptCount - 1 else 0);
    if delay <= MAX_BACKOFF_SECONDS then delay else MAX_BACKOFF_SECONDS
  }

  function FailAttempt(
    job: Job, worker: WorkerId, temporary: bool, baseSeconds: int, now: int): Result<Job, StorageError> {
    if baseSeconds <= 0 then Err(ValueError)
    else if job.state == FAILED then Ok(job)
    else if !OwnedBy(job, worker) then Err(InvalidDeliveryState)
    else if !temporary || job.attemptCount >= job.maxAttempts then
      Ok(job.(state := FAILED, leaseExpiresAt := None, nextAttemptAt := None))
    else
      Ok(job.(state := RETRY_WAIT, leaseExpiresAt := None,
              nextAttemptAt := Some(now + Backoff(baseSeconds, job.attemptCount) * SECOND_US)))
  }

  // ----- every history of one row -----

  /** One transaction that reached the row. A completion that finds its result stored
      already changes nothing, and a refused transaction changes nothing either. */
  datatype JobEvent =
    | MarkEvent(message: JobId)
    | ClaimEvent(worker: WorkerId, now: int, leaseSeconds: int)
    | CompleteEvent(worker: WorkerId)
    | FailEvent(worker: WorkerId, temporary: bool, now: int)

  function After(job: Job, event: JobEvent, baseSeconds: int): Job {
    match event
    case MarkEvent(message) =>
      var marked := MarkQueued(job, message);
      if marked.Ok? then marked.value.0 else job
    case ClaimEvent(worker, now, leaseSeconds) =>
      if leaseSeconds > 0 && Claimable(job, now) then Claim(job, worker, now, leaseSeconds) else job
    case CompleteEvent(worker) =>
      if OwnedBy(job, worker) then Complete(job) else job
    case FailEvent(worker, temporary, now) =>
      var failed := FailAttempt(job, worker, temporary, baseSeconds, now);
      if failed.Ok? then failed.value else job
  }

  function Replay(job: Job, events: seq<JobEvent>, baseSeconds: int): Job
    decreases events
  {
    if events == [] then job else Replay(After(job, events[0], baseSeconds), events[1..], baseSeconds)
  }

  predicate IsTakeover(job: Job, event: JobEvent) {
    event.ClaimEvent? && event.leaseSeconds > 0 && LeaseExpired(job, event.now)
  }

  predicate IsFreshClaim(job: Job, event: JobEvent) {
    event.ClaimEvent? && event.leaseSeconds > 0 && Claimable(job, event.now) && !LeaseExpired(job, event.now)
  }

  function FreshClaims(job: Job, events: seq<JobEvent>, baseSeconds: int): nat
    decreases events
  {
    if events == [] then 0
    else (if IsFreshClaim(job, events[0]) then 1 else 0)
         + FreshClaims(After(job, events[0], baseSeconds), events[1..], baseSeconds)
  }

  function Takeovers(job: Job, events: seq<JobEvent>, baseSeconds: int): nat
    decreases events
  {
    if events == [] then 0
    else (if IsTakeover(job, events[0]) then 1 else 0)
         + Takeovers(After(job, events[0], baseSeconds), events[1..], baseSeconds)
  }

  /** What every reachable row satisfies. */
  predicate JobOk(job: Job) {
    && 0 <= job.attemptCount
    && 0 < job.maxAttempts
    && (job.state in {PENDING_QUEUE, QUEUED, RETRY_WAIT} ==> job.attemptCount < job.maxAttempts)
    && (job.state == PENDING_QUEUE ==> job.attemptCount == 0)
    && (job.state in {PROCESSING, RETRY_WAIT, COMPLETE, FAILED} ==> 1 <= job.attemptCount)
    && (job.queueMessage.None? <==> job.state == PENDING_QUEUE)
    && (job.claimedBy.Some? <==> 1 <= job.attemptCount)
    && (job.leaseExpiresAt.Some? <==> job.state == PROCESSING)
    && (job.nextAttemptAt.Some? <==> job.state == RETRY_WAIT)
  }

  lemma AfterKeepsJobOk(job: Job, event: JobEvent, baseSeconds: int)
    requires JobOk(job)
    ensures JobOk(After(job, event, baseSeconds))
  {
  }

  /** Claims of queued or waiting work are limited; the rest of the attempts are takeovers
      of expired leases, and only those can exceed the limit. */
  lemma {:induction false} AttemptAccounting(job: Job, events: seq<JobEvent>, baseSeconds: int)
    requires JobOk(job)
    ensures var end := Replay(job, events, baseSeconds);
            && JobOk(end)
            && end.maxAttempts == job.maxAttempts
            && end.attemptCount == job.attemptCount + FreshClaims(job, events, baseSeconds)
                                   + Takeovers(job, events, baseSeconds)
    ensures FreshClaims(job, events, baseSeconds) <=
            if job.attemptCount <= job.maxAttempts then job.maxAttempts - job.attemptCount else 0
    decreases events
  {
    if events != [] {
      AfterKeepsJobOk(job, events[0], baseSeconds);
      AttemptAccounting(After(job, events[0], baseSeconds), events[1..], baseSeconds);
    }
  }

  /** attempt_count itself is not limited by max_attempts: expiring leases, of whatever
      length, drive it as high as one likes. */
  lemma {:induction false} TakeoversExceedAnyLimit(packet: PacketKey, maxAttempts: int, leaseSeconds: int, n: nat)
    returns (events: seq<JobEvent>)
    requires maxAttempts > 0 && leaseSeconds > 0
    ensures var end := Replay(NewJob(packet, maxAttempts), events, 1);
            end.attemptCount == n + 1 && end.state == PROCESSING
    ensures FreshClaims(NewJob(packet, maxAttempts), events, 1) == 1
    ensures forall event :: event in events && event.ClaimEvent? ==> event.leaseSeconds == leaseSeconds
  {
    var start := NewJob(packet, maxAttempts);
    var queued := After(start, MarkEvent(0), 1);
    var claimed := After(queued, ClaimEvent(0, 0, leaseSeconds), 1);
    var takeovers := KeepTakingOver(claimed, leaseSeconds, 1, n);
    events := [MarkEvent(0), ClaimEvent(0, 0, leaseSeconds)] + takeovers;
    assert events[1..] == [ClaimEvent(0, 0, leaseSeconds)] + takeovers && events[1..][1..] == takeovers;
  }

  lemma {:induction false} KeepTakingOver(job: Job, leaseSeconds: int, base: int, n: nat)
    returns (events: seq<JobEvent>)
    requires job.state == PROCESSING && job.leaseExpiresAt.Some? && leaseSeconds > 0
    ensures var end := Replay(job, events, base);
            end.attemptCount == job.attemptCount + n && end.state == PROCESSING
    ensures FreshClaims(job, events, base) == 0
    ensures forall event :: event in events && event.ClaimEvent? ==> event.leaseSeconds == leaseSeconds
    decreases n
  {
    events := [];
    if n > 0 {
      var step := ClaimEvent(0, job.leaseExpiresAt.value, leaseSeconds);
      var rest := KeepTakingOver(After(job, step, base), leaseSeconds, base, n - 1);
      events := [step] + rest;
      assert events[1..] == rest;
    }
  }

  // ----- termination -----

  predicate Terminal(job: Job) {
    job.state == COMPLETE || job.state == FAILED
  }

  function StateRank(state: JobState): nat {
    match state
    case PROCESSING => 3
    case PENDING_QUEUE => 2
    case RETRY_WAIT => 2
    case QUEUED => 1
    case COMPLETE => 0
    case FAILED => 0
  }

  /** Attempts left, then the way to the next claim. */
  function Measure(job: Job): nat {
    4 * (if job.attemptCount < job.maxAttempts then job.maxAttempts - job.attemptCount else 0) + StateRank(job.state)
  }

  /** Every event that changes the row lowers the measure; a takeover may leave it as it is,
      but never raises it. */
  lemma MeasureDecreases(job: Job, event: JobEvent, baseSeconds: int)
    requires JobOk(job)
    ensures var next := After(job, event, baseSeconds);
            if next == job || IsTakeover(job, event) then Measure(next) <= Measure(job)
            else Measure(next) < Measure(job)
  {
  }

  /** The events that changed the row. */
  function Changes(job: Job, events: seq<JobEvent>, baseSeconds: int): nat
    decreases events
  {
    if events == [] then 0
    else (if After(job, events[0], baseSeconds) != job then 1 else 0)
         + Changes(After(job, events[0], baseSeconds), events[1..], baseSeconds)
  }

  /** Over every history a row changes no more often than its measure and the takeovers
      allow; what is left of the measure at the end was not used. */
  lemma {:induction false} FewChanges(job: Job, events: seq<JobEvent>, baseSeconds: int)
    requires JobOk(job)
    ensures Changes(job, events, baseSeconds) + Measure(Replay(job, events, baseSeconds))
            <= Measure(job) + Takeovers(job, events, baseSeconds)
    decreases events
  {
    if events != [] {
      AfterKeepsJobOk(job, events[0], baseSeconds);
      MeasureDecreases(job, events[0], baseSeconds);
      FewChanges(After(job, events[0], baseSeconds), events[1..], baseSeconds);
    }
  }

  /** And a row is stuck in no state: until it is done some event that is not a takeover
      moves it on. */
  lemma NotStuck(job: Job, baseSeconds: int) returns (event: JobEvent)
    requires JobOk(job) && !Terminal(job)
    ensures !IsTakeover(job, event) && After(job, event, baseSeconds) != job
  {
    match job.state
    case PENDING_QUEUE => event := MarkEvent(0);
    case RETRY_WAIT => event := ClaimEvent(0, job.nextAttemptAt.value, 1);
    case QUEUED => event := ClaimEvent(0, 0, 1);
    case PROCESSING => event := CompleteEvent(job.claimedBy.value);
  }

  /** So from every row, also one taken over past its limit, some history without takeovers
      and of at most that many events finishes the job. */
  lemma {:induction false} CanFinish(job: Job, baseSeconds: int) returns (events: seq<JobEvent>)
    requires JobOk(job)
    ensures Terminal(Replay(job, events, baseSeconds)) && Takeovers(job, events, baseSeconds) == 0
    ensures |events| <= Measure(job)
    decreases Measure(job)
  {
    events := [];
    if !Terminal(job) {
      var event := NotStuck(job, baseSeconds);
      AfterKeepsJobOk(job, event, baseSeconds);
      MeasureDecreases(job, event, baseSeconds);
      var rest := CanFinish(After(job, event, baseSeconds), baseSeconds);
      events := [event] + rest;
      assert events[1..] == rest;
    }
  }

  /** A finished job stays as it is. */
  lemma {:induction false} TerminalIsFinal(job: Job, events: seq<JobEvent>, baseSeconds: int)
    requires Terminal(job)
    ensures Replay(job, events, baseSeconds) == job
    decreases events
  {
    if events != [] {
      TerminalIsFinal(job, events[1..], baseSeconds);
    }
  }

  // ----- backoff -----

  /** A temporary failure at `now` with attempts left makes the job due after the delay of
      that attempt, and not a microsecond earlier. */
  lemma FailureSchedulesRetry(job: Job, worker: WorkerId, base: int, now: int)
    requires job.state == PROCESSING && job.claimedBy == Some(worker)
    requires base > 0 && 1 <= job.attemptCount < job.maxAttempts
    ensures var due := now + 1_000_000 * Backoff(base, job.attemptCount);
            var failed := FailAttempt(job, worker, true, base, now);
            && due >= now + 1_000_000
            && failed == Ok(job.(state := RETRY_WAIT, leaseExpiresAt := None, nextAttemptAt := Some(due)))
            && forall at :: Claimable(failed.value, at) <==> due <= at
  {
    BackoffGrows(base, job.attemptCount, job.attemptCount);
  }

  /** Until then no worker gets it: whatever else happens to the row, it stays as it is,
      unless a gateway queues it again. */
  lemma {:induction false} WaitsUntilDue(job: Job, events: seq<JobEvent>, base: int)
    requires job.state == RETRY_WAIT && job.nextAttemptAt.Some?
    requires forall event :: event in events ==>
               !event.MarkEvent? && (event.ClaimEvent? ==> event.now < job.nextAttemptAt.value)
    ensures Replay(job, events, base) == job
    decreases events
  {
    if events != [] {
      assert events[0] in events;
      WaitsUntilDue(job, events[1..], base);
    }
  }

  /** The event lets the row wait for a retry. */
  predicate Schedules(job: Job, event: JobEvent, base: int) {
    var next := After(job, event, base);
    event.FailEvent? && job.state == PROCESSING && next.state == RETRY_WAIT && next.nextAttemptAt.Some?
  }

  /** The waiting times, in microseconds, that a history writes into the row: from each
      failure to the moment the row then names. */
  function Delays(job: Job, events: seq<JobEvent>, base: int): seq<int>
    decreases events
  {
    if events == [] then []
    else
      var next := After(job, events[0], base);
      (if Schedules(job, events[0], base) then [next.nextAttemptAt.value - events[0].now] else [])
      + Delays(next, events[1..], base)
  }

  function Sum(values: seq<int>): int {
    if values == [] then 0 else values[0] + Sum(values[1..])
  }

  /** The attempt number that the next scheduled delay will be computed from, at least. */
  function NextFailure(job: Job): int {
    if job.state == PROCESSING then job.attemptCount else job.attemptCount + 1
  }

  predicate Nondecreasing(values: seq<int>, from: int) {
    && (forall i :: 0 <= i < |values| ==> from <= values[i])
    && (forall i, j :: 0 <= i < j < |values| ==> values[i] <= values[j])
  }

  lemma {:induction false} PowerGrows(m: nat, n: nat)
    requires m <= n
    ensures Power2(m) <= Power2(n)
    decreases n
  {
    if m < n {
      PowerGrows(m, n - 1);
    }
  }

  lemma Times(base: int, p: int, q: int)
    requires base >= 0 && p <= q
    ensures base * p <= base * q
  {
  }

  lemma BackoffGrows(base: int, a: int, b: int)
    requires base > 0 && 1 <= a <= b
    ensures 0 < Backoff(base, a) <= Backoff(base, b) <= MAX_BACKOFF_SECONDS
    ensures Backoff(base, a) <= base * Power2(a - 1)
  {
    PowerGrows(a - 1, b - 1);
    Times(base, Power2(a - 1), Power2(b - 1));
    Times(base, 1, Power2(a - 1));
  }

  /** The first delay is the base, and each next one doubles, both up to the cap. */
  lemma BackoffDoubles(base: int, attempt: int)
    requires base > 0 && attempt >= 1
    ensures Backoff(base, 1) == if base <= 300 then base else 300
    ensures Backoff(base, attempt + 1) ==
            var doubled := 2 * Backoff(base, attempt);
            if doubled <= 300 then doubled else 300
  {
    assert Power2(0) == 1;
    assert base * Power2(attempt) == 2 * (base * Power2(attempt - 1));
  }

  /** What is left of the two bounds when the next delay belongs to attempt `next`. */
  function GeometricRest(base: int, maxAttempts: int, next: int): int
    requires 1 <= next && 1 <= maxAttempts
  {
    if next >= maxAttempts then 0 else base * Power2(maxAttempts - 1) - base * Power2(next - 1)
  }

  function LinearRest(maxAttempts: int, next: int): int {
    if next >= maxAttempts then 0 else MAX_BACKOFF_SECONDS * (maxAttempts - next)
  }

  lemma RestShrinks(base: int, maxAttempts: int, next: int, later: int)
    requires base > 0 && 1 <= maxAttempts && 1 <= next <= later
    ensures GeometricRest(base, maxAttempts, next) >= GeometricRest(base, maxAttempts, later) >= 0
    ensures LinearRest(maxAttempts, next) >= LinearRest(maxAttempts, later) >= 0
    ensures next < maxAttempts && next < later ==>
              && Backoff(base, next) + GeometricRest(base, maxAttempts, later) <= GeometricRest(base, maxAttempts, next)
              && Backoff(base, next) + LinearRest(maxAttempts, later) <= LinearRest(maxAttempts, next)
  {
    if next < maxAttempts {
      PowerGrows(next - 1, maxAttempts - 1);
      Times(base, Power2(next - 1), Power2(maxAttempts - 1));
      BackoffGrows(base, next, next);
      PowerGrows(next, maxAttempts - 1);
      Times(base, Power2(next), Power2(maxAttempts - 1));
      assert base * Power2(next) == base * Power2(next - 1) + base * Power2(next - 1);
      if later < maxAttempts {
        PowerGrows(next - 1, later - 1);
        Times(base, Power2(next - 1), Power2(later - 1));
        PowerGrows(later - 1, maxAttempts - 1);
        Times(base, Power2(later - 1), Power2(maxAttempts - 1));
        if next < later {
          PowerGrows(next, later - 1);
          Times(base, Power2(next), Power2(later - 1));
        }
      }
    }
  }

  /** A failure that schedules a delay uses up its attempt number. */
  lemma ScheduleUsesAttempt(job: Job, event: JobEvent, base: int)
    requires JobOk(job)
    ensures var next := After(job, event, base);
            && next.maxAttempts == job.maxAttempts
            && 1 <= NextFailure(job) <= NextFailure(next)
            && (Schedules(job, event, base) ==>
                  && NextFailure(job) == job.attemptCount < job.maxAttempts
                  && NextFailure(next) == NextFailure(job) + 1
                  && next.nextAttemptAt == Some(event.now + Backoff(base, job.attemptCount) * SECOND_US))
            && (!Schedules(job, event, base) && !IsTakeover(job, event) && !Terminal(next) ==>
                  NextFailure(next) == NextFailure(job))
  {
  }

  lemma Prepend(value: int, rest: seq<int>, from: int)
    requires Nondecreasing(rest, from) && value <= from
    ensures Nondecreasing([value] + rest, value) && Sum([value] + rest) == value + Sum(rest)
  {
    assert ([value] + rest)[1..] == rest;
  }

  lemma {:induction false} DelaysFrom(job: Job, events: seq<JobEvent>, base: int)
    requires JobOk(job) && base > 0
    ensures Nondecreasing(Delays(job, events, base), Backoff(base, NextFailure(job)) * SECOND_US)
    ensures Sum(Delays(job, events, base)) <= GeometricRest(base, job.maxAttempts, NextFailure(job)) * SECOND_US
    ensures Sum(Delays(job, events, base)) <= LinearRest(job.maxAttempts, NextFailure(job)) * SECOND_US
    decreases events
  {
    hide After, Schedules, GeometricRest, LinearRest, Backoff, JobOk, NextFailure, Delays, Sum, Nondecreasing, Replay;
    var next := NextFailure(job);
    CountsFromOne(job);
    RestShrinks(base, job.maxAttempts, next, next);
    if events == [] {
      NoDelays(job, base);
    } else {
      var job' := After(job, events[0], base);
      var next' := NextFailure(job');
      var rest := Delays(job', events[1..], base);
      AfterKeepsJobOk(job, events[0], base);
      ScheduleUsesAttempt(job, events[0], base);
      DelaysFrom(job', events[1..], base);
      RestShrinks(base, job.maxAttempts, next, next');
      BackoffGrows(base, next, next');
      DelaysUnfold(job, events, base);
      if Schedules(job, events[0], base) {
        Prepend(Backoff(base, next) * SECOND_US, rest, Backoff(base, next') * SECOND_US);
      } else {
        FromLower(rest, Backoff(base, next') * SECOND_US, Backoff(base, next) * SECOND_US);
      }
    }
  }

  lemma CountsFromOne(job: Job)
    requires JobOk(job)
    ensures 1 <= NextFailure(job) && 1 <= job.maxAttempts
  {
  }

  lemma NoDelays(job: Job, base: int)
    ensures Delays(job, [], base) == [] && Sum([]) == 0 && forall from :: Nondecreasing([], from)
  {
  }

  lemma FromLower(values: seq<int>, from: int, lower: int)
    requires Nondecreasing(values, from) && lower <= from
    ensures Nondecreasing(values, lower)
  {
  }

  lemma DelaysUnfold(job: Job, events: seq<JobEvent>, base: int)
    requires events != [] && JobOk(job)
    ensures var rest := Delays(After(job, events[0], base), events[1..], base);
            Delays(job, events, base) ==
            if Schedules(job, events[0], base) then [Backoff(base, job.attemptCount) * SECOND_US] + rest else rest
  {
    ScheduleUsesAttempt(job, events[0], base);
  }

  lemma {:induction false} FinishedSchedulesNothing(job: Job, events: seq<JobEvent>, base: int)
    requires Terminal(job)
    ensures Delays(job, events, base) == []
    decreases events
  {
    if events != [] {
      FinishedSchedulesNothing(job, events[1..], base);
    }
  }

  /** Each delay is at least that of the attempt it must belong to, and exactly that if no
      takeover used up an attempt in between. */
  lemma {:induction false} DelayOfAttempt(job: Job, events: seq<JobEvent>, base: int, i: nat)
    requires JobOk(job) && base > 0 && i < |Delays(job, events, base)|
    ensures Delays(job, events, base)[i] >= Backoff(base, NextFailure(job) + i) * SECOND_US
    ensures Takeovers(job, events, base) == 0 ==>
              Delays(job, events, base)[i] == Backoff(base, NextFailure(job) + i) * SECOND_US
    decreases events
  {
    hide After, Schedules, Backoff, JobOk, NextFailure;
    var job' := After(job, events[0], base);
    AfterKeepsJobOk(job, events[0], base);
    ScheduleUsesAttempt(job, events[0], base);
    DelaysUnfold(job, events, base);
    if Schedules(job, events[0], base) {
      if i > 0 {
        DelayOfAttempt(job', events[1..], base, i - 1);
      }
    } else {
      DelayOfAttempt(job', events[1..], base, i);
      BackoffGrows(base, NextFailure(job) + i, NextFailure(job') + i);
      if Terminal(job') {
        FinishedSchedulesNothing(job', events[1..], base);
      }
    }
  }

  /** For a fixed base, whatever the history: the delays of a job never decrease, the n-th
      is at least the base doubled n - 1 times, capped at 300 seconds, and exactly that
      without takeovers; and their total stays within the full geometric sum and within the
      cap times the number of possible retries. */
  lemma BackoffBound(packet: PacketKey, maxAttempts: int, events: seq<JobEvent>, base: int)
    requires maxAttempts > 0 && base > 0
    ensures var job := NewJob(packet, maxAttempts);
            var delays := Delays(job, events, base);
            && (forall i, j :: 0 <= i < j < |delays| ==> delays[i] <= delays[j])
            && (forall i :: 0 <= i < |delays| ==>
                  var full := base * Power2(i);
                  var capped := 1_000_000 * if full <= 300 then full else 300;
                  delays[i] >= capped && (Takeovers(job, events, base) == 0 ==> delays[i] == capped))
            && Sum(delays) <= 1_000_000 * (base * (Power2(maxAttempts - 1) - 1))
            && Sum(delays) <= 300_000_000 * (maxAttempts - 1)
  {
    hide Delays, Takeovers, Sum;
    var job := NewJob(packet, maxAttempts);
    DelaysFrom(job, events, base);
    WholeRest(base, maxAttempts);
    forall i | 0 <= i < |Delays(job, events, base)|
      ensures Delays(job, events, base)[i] >= Backoff(base, i + 1) * SECOND_US
      ensures Takeovers(job, events, base) == 0 ==>
                Delays(job, events, base)[i] == Backoff(base, i + 1) * SECOND_US
    {
      DelayOfAttempt(job, events, base, i);
    }
  }

  lemma WholeRest(base: int, maxAttempts: int)
    requires base > 0 && maxAttempts > 0
    ensures GeometricRest(base, maxAttempts, 1) == base * (Power2(maxAttempts - 1) - 1)
    ensures LinearRest(maxAttempts, 1) == 300 * (maxAttempts - 1)
  {
    if maxAttempts == 1 {
      assert base * (Power2(0) - 1) == 0;
    }
  }
}
