/** The payload worker process: the body of its loop, over its repository and its queue. */
module PayloadWorker {
  import opened Outcomes
  import opened FrameCodec
  import opened JobLifecycle
  import opened Storage
  import opened Repository
  import opened QueueAdapter
  import Flow = WorkerFlow
  import GatewayFlow
  import Pipeline
  import Q = RedisQueue

  class WorkerProcess {
    const repository: TelemetryRepository
    const queue: TelemetryQueue
    const id: WorkerId

    function Stores(): GatewayFlow.Stores
      reads repository, queue
    {
      GatewayFlow.Stores(repository.Snapshot(), queue.State())
    }

    /** A new process first returns all work that a stopped one left behind. */
    constructor (repository: TelemetryRepository, queue: TelemetryQueue, id: WorkerId)
      modifies queue
      ensures this.repository == repository && this.queue == queue && this.id == id
      ensures queue.State() == Q.RecoverProcessing(old(queue.State()))
    {
      this.repository, this.queue, this.id := repository, queue, id;
      new;
      var recovered := queue.RecoverProcessing();
    }

    method RunOnce(clock: Flow.Clock) returns (alive: bool)
      requires repository.Valid()
      modifies repository, queue
      ensures repository.Valid()
      ensures (Stores(), alive) == Flow.Turn(old(Stores()), id, clock)
    {
      var claimed := queue.Claim();
      if claimed.Err? {
        // A malformed entry went to the failed list; the loop goes on.
        return true;
      }
      if claimed.value.None? {
        return true;
      }
      alive := HandleMessage(claimed.value.value, clock);
    }

    method HandleMessage(message: Q.QueueMessage, clock: Flow.Clock) returns (alive: bool)
      requires repository.Valid()
      modifies repository, queue
      ensures repository.Valid()
      ensures (Stores(), alive) == Flow.HandleMessage(old(Stores()), id, message, clock)
    {
      var claim := repository.ClaimProcessingJob(message.job, id, clock.claimAt, Pipeline.LEASE_SECONDS);
      if claim.Err? {
        var _ := queue.Retry(message);
        return true;
      }
      if claim.value.None? {
        ReturnOrFinishUnclaimed(message);
        return true;
      }
      alive := ProcessWork(message, claim.value.value, clock);
    }

    method ReturnOrFinishUnclaimed(message: Q.QueueMessage)
      modifies queue
      ensures Stores() == Flow.ReturnOrFinishUnclaimed(old(Stores()), message)
    {
      var done;
      if message.job >= |repository.jobs| || repository.jobs[message.job].state == COMPLETE {
        done := queue.Ack(message);
      } else if repository.jobs[message.job].state == FAILED {
        done := queue.DeadLetter(message);
      } else {
        done := queue.Retry(message);
      }
      if done.Err? {
        // The error leads to one more attempt to keep the reference.
        var _ := queue.Retry(message);
      }
    }

    method ProcessWork(message: Q.QueueMessage, work: WorkItem, clock: Flow.Clock) returns (alive: bool)
      requires repository.Valid()
      modifies repository, queue
      ensures repository.Valid()
      ensures (Stores(), alive) == Flow.ProcessWork(old(Stores()), id, message, work, clock)
    {
      var frame := Decode(work.rawBody, work.receivedAt);
      if frame != Ok(work.values) {
        alive := ReportFailure(message, work, false, clock.endAt);
        return;
      }
      var result := ProcessingResult(work.values, work.receivedAt);
      var stored := repository.CompleteProcessingJob(work.job, result, id, clock.storeAt);
      if stored.Ok? {
        // A failed acknowledgement must not rewrite the success as a failure.
        var _ := queue.Ack(message);
        return true;
      }
      alive := ReportFailure(message, work, true, clock.endAt);
    }

    method ReportFailure(message: Q.QueueMessage, work: WorkItem, temporary: bool, now: int) returns (alive: bool)
      requires repository.Valid()
      modifies repository, queue
      ensures repository.Valid()
      ensures (Stores(), alive) == Flow.ReportFailure(old(Stores()), id, message, work, temporary, now)
    {
      var failure := repository.FailProcessingAttempt(work.job, id, temporary, Pipeline.BASE_BACKOFF_SECONDS, now);
      if failure.Err? {
        return false;
      }
      var done;
      if failure.value.state == FAILED {
        done := queue.DeadLetter(message);
      } else {
        done := queue.Retry(message);
      }
      alive := done.Ok?;
    }

    /** The loop, for as many turns as there are clocks or until an error ends the process. */
    method Run(clocks: seq<Flow.Clock>) returns (alive: bool)
      requires repository.Valid()
      modifies repository, queue
      ensures repository.Valid()
      ensures (Stores(), alive) == Flow.Turns(old(Stores()), id, clocks)
    {
      hide Flow.Turn;
      alive := true;
      var i := 0;
      while i < |clocks| && alive
        invariant 0 <= i <= |clocks|
        invariant repository.Valid()
        invariant if alive then Flow.Turns(Stores(), id, clocks[i..]) == Flow.Turns(old(Stores()), id, clocks)
                  else Flow.Turns(old(Stores()), id, clocks) == (Stores(), false)
        decreases |clocks| - i
      {
        assert clocks[i..][0] == clocks[i] && clocks[i..][1..] == clocks[i + 1..];
        alive := RunOnce(clocks[i]);
        i := i + 1;
      }
    }
  }
}
