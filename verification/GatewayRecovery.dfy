/** The start-up recovery rebuilds a lost queue from the job table. */
module GatewayRecovery {
  import opened Outcomes
  import opened JobLifecycle
  import opened Storage
  import opened StorageInvariant
  import opened GatewayFlow
  import opened PipelineInvariant
  import opened TransactionEffects
  import Q = RedisQueue

  /** Whatever is marked is listed, and names its job; jobs need not be marked. */
  ghost predicate MarkersMatch(jobs: seq<Job>, q: Q.QueueState) {
    Q.Consistent(q) && forall id: JobId :: MarkerOk(jobs, q, id)
  }

  predicate Waits(job: Job) {
    job.state in {PENDING_QUEUE, QUEUED, RETRY_WAIT}
  }

  /** The row of a job that is known to be in the queue. */
  function InQueue(job: Job, id: JobId): Job {
    if job.state == QUEUED then job
    else job.(state := QUEUED, queueMessage := Some(id), nextAttemptAt := None)
  }

  lemma QueueOneEffect(s: Stores, id: JobId)
    requires DbOk(s.db) && MarkersMatch(s.db.jobs, s.queue) && id < |s.db.jobs| && Waits(s.db.jobs[id])
    ensures var (s', queued) := QueueOne(s, Q.QueueMessage(id, s.db.jobs[id].packet));
            && queued == Ok(s.db.jobs[id].state != QUEUED)
            && DbOk(s'.db) && Extends(s.db, s'.db) && s'.db.packets == s.db.packets
            && s'.db.jobs == s.db.jobs[id := InQueue(s.db.jobs[id], id)]
            && MarkersMatch(s'.db.jobs, s'.queue)
            && s'.queue.markers.Keys == s.queue.markers.Keys + {id}
            && s'.queue.processing == s.queue.processing && s'.queue.failed == s.queue.failed
            && Q.OldestFirst(s'.queue.pending)
               == Q.OldestFirst(s.queue.pending) + if id in s.queue.markers then [] else [Reference(s.db.jobs, id)]
  {
    hide DbOk, Extends;
    MarkKeepsDbOk(s.db, id);
    TablesOk(s.db);
    MarkEffect(s.db, id);
    EnqueueEffect(s.db.jobs, s.queue, id);
    SamePacketsMatch(
      s.db.jobs, s.db.jobs[id := InQueue(s.db.jobs[id], id)],
      Q.Enqueue(s.queue, Q.QueueMessage(id, s.db.jobs[id].packet)).0);
  }

  lemma MarkEffect(db: Database, id: JobId)
    requires JobsOk(db.jobs, db.packets) && id < |db.jobs| && Waits(db.jobs[id])
    ensures var (db', marked) := MarkJobQueued(db, id, id);
            marked == Ok(db.jobs[id].state != QUEUED) && db'.jobs == db.jobs[id := InQueue(db.jobs[id], id)]
  {
    assert JobOk(db.jobs[id]);
    assert db.jobs == db.jobs[id := db.jobs[id]];
  }

  lemma EnqueueEffect(jobs: seq<Job>, q: Q.QueueState, id: JobId)
    requires MarkersMatch(jobs, q) && id < |jobs|
    ensures var (q', answer) := Q.Enqueue(q, Q.QueueMessage(id, jobs[id].packet));
            && answer != -1
            && MarkersMatch(jobs, q')
            && q'.markers.Keys == q.markers.Keys + {id}
            && q'.processing == q.processing && q'.failed == q.failed
            && Q.OldestFirst(q'.pending)
               == Q.OldestFirst(q.pending) + if id in q.markers then [] else [Reference(jobs, id)]
  {
    var q' := Q.Enqueue(q, Q.QueueMessage(id, jobs[id].packet)).0;
    Q.EnqueueEffect(q, Q.QueueMessage(id, jobs[id].packet));
    assert MarkerOk(jobs, q, id);
    forall other: JobId ensures MarkerOk(jobs, q', other) {
      assert MarkerOk(jobs, q, other);
    }
    if id !in q.markers {
      assert q'.pending[1..] == q.pending;
    }
  }

  predicate SamePackets(jobs: seq<Job>, later: seq<Job>) {
    |later| == |jobs| && forall id :: 0 <= id < |jobs| ==> later[id].packet == jobs[id].packet
  }

  lemma SamePacketsMatch(jobs: seq<Job>, later: seq<Job>, q: Q.QueueState)
    requires MarkersMatch(jobs, q) && SamePackets(jobs, later)
    ensures MarkersMatch(later, q)
  {
    forall id: JobId ensures MarkerOk(later, q, id) {
      assert MarkerOk(jobs, q, id);
    }
  }

  // ----- a whole list -----

  predicate Increasing(ids: seq<JobId>) {
    forall i, k :: 0 <= i < k < |ids| ==> ids[i] < ids[k]
  }

  predicate InTable(jobs: seq<Job>, ids: seq<JobId>) {
    forall i :: 0 <= i < |ids| ==> ids[i] < |jobs|
  }

  predicate AllWait(jobs: seq<Job>, ids: seq<JobId>)
    requires InTable(jobs, ids)
  {
    forall i :: 0 <= i < |ids| ==> Waits(jobs[ids[i]])
  }

  function IdSet(ids: seq<JobId>): set<JobId> {
    set id | id in ids
  }

  lemma IdSetUnfolds(ids: seq<JobId>)
    requires ids != []
    ensures IdSet(ids) == {ids[0]} + IdSet(ids[1..])
    ensures forall id :: id in ids <==> id == ids[0] || id in ids[1..]
    ensures Increasing(ids) ==> Increasing(ids[1..]) && ids[0] !in ids[1..]
  {
    assert ids == [ids[0]] + ids[1..];
  }

  /** How many of the listed jobs are not in the queue by their own account. */
  function NotQueued(jobs: seq<Job>, ids: seq<JobId>): nat
    requires InTable(jobs, ids)
  {
    if ids == [] then 0 else NotQueued(jobs, ids[1..]) + if jobs[ids[0]].state != QUEUED then 1 else 0
  }

  /** References of the listed jobs that have no marker, in the order of the list. */
  function NewReferences(jobs: seq<Job>, marked: set<JobId>, ids: seq<JobId>): seq<Q.Entry>
    requires InTable(jobs, ids)
  {
    if ids == [] then []
    else (if ids[0] in marked then [] else [Reference(jobs, ids[0])]) + NewReferences(jobs, marked, ids[1..])
  }

  lemma {:induction false} ListUnaffected(
    jobs: seq<Job>, later: seq<Job>, marked: set<JobId>, id: JobId, ids: seq<JobId>)
    requires SamePackets(jobs, later) && InTable(jobs, ids) && id !in ids
    requires forall other :: 0 <= other < |jobs| && other != id ==> later[other] == jobs[other]
    ensures NotQueued(later, ids) == NotQueued(jobs, ids)
    ensures NewReferences(later, marked + {id}, ids) == NewReferences(jobs, marked, ids)
  {
    if ids != [] {
      assert ids[0] in ids;
      ListUnaffected(jobs, later, marked, id, ids[1..]);
    }
  }

  /** The job table after the listed jobs were queued. */
  predicate AllInQueue(jobs: seq<Job>, later: seq<Job>, ids: seq<JobId>) {
    && |later| == |jobs|
    && forall id :: 0 <= id < |jobs| ==> later[id] == if id in ids then InQueue(jobs[id], id) else jobs[id]
  }

  lemma {:induction false} RecoverListEffect(s: Stores, ids: seq<JobId>)
    requires DbOk(s.db) && MarkersMatch(s.db.jobs, s.queue) && Increasing(ids)
    requires InTable(s.db.jobs, ids) && AllWait(s.db.jobs, ids)
    ensures var (s', recovered) := RecoverList(s, ids);
            && recovered == Ok(NotQueued(s.db.jobs, ids))
            && DbOk(s'.db) && Extends(s.db, s'.db) && s'.db.packets == s.db.packets
            && AllInQueue(s.db.jobs, s'.db.jobs, ids)
            && MarkersMatch(s'.db.jobs, s'.queue)
            && s'.queue.markers.Keys == s.queue.markers.Keys + IdSet(ids)
            && s'.queue.processing == s.queue.processing && s'.queue.failed == s.queue.failed
            && Q.OldestFirst(s'.queue.pending)
               == Q.OldestFirst(s.queue.pending) + NewReferences(s.db.jobs, s.queue.markers.Keys, ids)
    decreases ids
  {
    hide DbOk, Extends, QueueOne, MarkersMatch, IdSet, Increasing, InQueue, Waits, Q.OldestFirst, Reference;
    hide SamePackets;
    if ids == [] {
      assert IdSet(ids) == {} by { IdSetEmpty(); }
      ExtendsReflexive(s.db);
    } else {
      var id, rest := ids[0], ids[1..];
      IdSetUnfolds(ids);
      QueueOneEffect(s, id);
      var s1 := QueueOne(s, Q.QueueMessage(id, s.db.jobs[id].packet)).0;
      RestStillWaits(s.db.jobs, s1.db.jobs, ids);
      RecoverListEffect(s1, rest);
      ExtendsTransitive(s.db, s1.db, RecoverList(s, ids).0.db);
      ListUnaffected(s.db.jobs, s1.db.jobs, s.queue.markers.Keys, id, rest);
    }
  }

  lemma IdSetEmpty()
    ensures IdSet([]) == {}
  {
  }

  lemma RestStillWaits(jobs: seq<Job>, later: seq<Job>, ids: seq<JobId>)
    requires InTable(jobs, ids) && AllWait(jobs, ids) && ids != [] && ids[0] !in ids[1..]
    requires later == jobs[ids[0] := InQueue(jobs[ids[0]], ids[0])]
    ensures InTable(later, ids[1..]) && AllWait(later, ids[1..]) && SamePackets(jobs, later)
  {
    forall i | 0 <= i < |ids[1..]| ensures Waits(later[ids[1..][i]]) {
      assert ids[1..][i] in ids[1..];
    }
  }

  // ----- the recovery -----

  lemma RecoverableWait(jobs: seq<Job>, now: int, limit: nat)
    ensures var ids := RecoverableAmong(jobs, |jobs|, now, limit);
            Increasing(ids) && InTable(jobs, ids) && AllWait(jobs, ids)
  {
    hide RecoverableAmong;
    var ids := RecoverableAmong(jobs, |jobs|, now, limit);
    forall i | 0 <= i < |ids| ensures ids[i] < |jobs| && Waits(jobs[ids[i]]) {
      assert ids[i] in ids;
    }
  }

  /** On any queue whose markers match the table, the recovery queues the oldest waiting
      jobs, up to the limit: it cannot fail, it moves exactly those rows that were not
      QUEUED and counts them, and it appends exactly the references that were missing. */
  lemma RecoveryEffect(s: Stores, now: int, limit: int)
    requires DbOk(s.db) && MarkersMatch(s.db.jobs, s.queue) && 1 <= limit <= 10_000
    ensures var ids := RecoverableAmong(s.db.jobs, |s.db.jobs|, now, limit);
            var (s', recovered) := RecoverPendingJobs(s, now, limit);
            && InTable(s.db.jobs, ids)
            && recovered == Ok(NotQueued(s.db.jobs, ids))
            && DbOk(s'.db) && Extends(s.db, s'.db) && s'.db.packets == s.db.packets
            && AllInQueue(s.db.jobs, s'.db.jobs, ids)
            && MarkersMatch(s'.db.jobs, s'.queue)
            && s'.queue.markers.Keys == s.queue.markers.Keys + IdSet(ids)
            && s'.queue.processing == s.queue.processing && s'.queue.failed == s.queue.failed
            && Q.OldestFirst(s'.queue.pending)
               == Q.OldestFirst(s.queue.pending) + NewReferences(s.db.jobs, s.queue.markers.Keys, ids)
  {
    hide DbOk, Extends, MarkersMatch, RecoverList, RecoverableAmong;
    RecoverableWait(s.db.jobs, now, limit);
    RecoverListEffect(s, RecoverableAmong(s.db.jobs, |s.db.jobs|, now, limit));
  }

  lemma {:induction false} AllReferences(jobs: seq<Job>, ids: seq<JobId>)
    requires InTable(jobs, ids)
    ensures |NewReferences(jobs, {}, ids)| == |ids|
    ensures forall i :: 0 <= i < |ids| ==> NewReferences(jobs, {}, ids)[i] == Reference(jobs, ids[i])
  {
    if ids != [] {
      AllReferences(jobs, ids[1..]);
      forall i | 0 <= i < |ids| ensures NewReferences(jobs, {}, ids)[i] == Reference(jobs, ids[i]) {
        if i > 0 {
          assert ids[1..][i - 1] == ids[i];
        }
      }
    }
  }

  lemma EmptyMatches(jobs: seq<Job>)
    ensures MarkersMatch(jobs, Q.EMPTY)
  {
  }

  /** After Redis lost everything: each recoverable job within the limit is QUEUED and has
      exactly one reference, workers will take them in order of creation, nothing else is
      in Redis, and no other row moved. */
  lemma RestartRebuild(s: Stores, now: int, limit: int)
    requires DbOk(s.db) && s.queue == Q.EMPTY && 1 <= limit <= 10_000
    ensures var ids := RecoverableAmong(s.db.jobs, |s.db.jobs|, now, limit);
            var (s', recovered) := RecoverPendingJobs(s, now, limit);
            && InTable(s.db.jobs, ids)
            && recovered == Ok(NotQueued(s.db.jobs, ids))
            && AllInQueue(s.db.jobs, s'.db.jobs, ids)
            && (forall id :: id in ids ==>
                  s'.db.jobs[id].state == QUEUED && Q.Listed(s'.queue)[Reference(s'.db.jobs, id)] == 1)
            && |s'.queue.pending| == |ids|
            && (forall i :: 0 <= i < |ids| ==> Q.OldestFirst(s'.queue.pending)[i] == Reference(s.db.jobs, ids[i]))
            && s'.queue.processing == [] && s'.queue.failed == []
            && s'.queue.markers.Keys == IdSet(ids)
    ensures var jobs := s.db.jobs;
            var s' := RecoverPendingJobs(s, now, limit).0;
            |RecoverableAmong(jobs, |jobs|, now, limit)| < limit ==>
              forall id :: 0 <= id < |jobs| && Recoverable(jobs[id], now) ==> s'.db.jobs[id].state == QUEUED
  {
    hide DbOk, RecoverPendingJobs, RecoverableAmong;
    hide MarkersMatch, IdSet, Waits, NotQueued, Q.OldestFirst;
    var ids := RecoverableAmong(s.db.jobs, |s.db.jobs|, now, limit);
    EmptyMatches(s.db.jobs);
    RecoveryEffect(s, now, limit);
    AllReferences(s.db.jobs, ids);
    var s' := RecoverPendingJobs(s, now, limit).0;
    assert Q.OldestFirst(s.queue.pending) == [] by { OldestOfNone(); }
    assert s.queue.markers.Keys == {} && s'.queue.markers.Keys == IdSet(ids);
    ListedOnce(s'.db.jobs, s'.queue, ids);
  }

  /** So after a total loss one recovery brings back exactly the work that waits for a
      worker, the oldest first up to the limit: new jobs, queued jobs and due retries are
      QUEUED with one reference each, and every other job stays without one as it was. */
  lemma RebuiltIff(s: Stores, now: int, limit: int, id: JobId)
    requires DbOk(s.db) && s.queue == Q.EMPTY && 1 <= limit <= 10_000 && id < |s.db.jobs|
    ensures var (s', recovered) := RecoverPendingJobs(s, now, limit);
            var job := s.db.jobs[id];
            && recovered.Ok?
            && |s'.db.jobs| == |s.db.jobs|
            && var references := Q.Listed(s'.queue)[Q.Reference(Q.QueueMessage(id, job.packet))];
               if WaitsForWorker(job, now) && WaitingBefore(s.db.jobs, id, now) < limit then
                 && s'.db.jobs[id] == job.(state := QUEUED, queueMessage := Some(id), nextAttemptAt := None)
                 && references == 1
               else s'.db.jobs[id] == job && references == 0 && id !in s'.queue.markers
  {
    hide DbOk, RecoverPendingJobs, RecoverableAmong, WaitingBefore, WaitsForWorker;
    hide MarkersMatch, NotQueued, Q.OldestFirst;
    var ids := RecoverableAmong(s.db.jobs, |s.db.jobs|, now, limit);
    ListedIffWaiting(s.db.jobs, |s.db.jobs|, now, limit);
    EmptyMatches(s.db.jobs);
    RecoveryEffect(s, now, limit);
    var s' := RecoverPendingJobs(s, now, limit).0;
    assert id in s'.queue.markers.Keys <==> id in ids;
    ReferencesOf(s'.db.jobs, s'.queue, id);
    if id in ids {
      TablesOk(s.db);
      QueuedRow(s.db, id);
    }
  }

  /** A job has one reference if it is marked and none if not. */
  lemma ReferencesOf(jobs: seq<Job>, q: Q.QueueState, id: JobId)
    requires MarkersMatch(jobs, q) && id < |jobs|
    ensures Q.Listed(q)[Reference(jobs, id)] == if id in q.markers then 1 else 0
  {
    assert MarkerOk(jobs, q, id);
    assert Q.Marked(q, Q.QueueMessage(id, jobs[id].packet)) <==> id in q.markers;
  }

  lemma QueuedRow(db: Database, id: JobId)
    requires JobsOk(db.jobs, db.packets) && id < |db.jobs|
    ensures InQueue(db.jobs[id], id)
            == db.jobs[id].(state := QUEUED, queueMessage := Some(id), nextAttemptAt := None)
  {
    assert JobOk(db.jobs[id]);
  }

  lemma OldestOfNone()
    ensures Q.OldestFirst([]) == []
  {
  }

  lemma ListedOnce(jobs: seq<Job>, q: Q.QueueState, ids: seq<JobId>)
    requires MarkersMatch(jobs, q) && q.markers.Keys == IdSet(ids) && forall id :: id in ids ==> id < |jobs|
    ensures forall id :: id in ids ==> Q.Listed(q)[Reference(jobs, id)] == 1
  {
    forall id | id in ids ensures Q.Listed(q)[Reference(jobs, id)] == 1 {
      assert id in q.markers.Keys && MarkerOk(jobs, q, id);
      assert Q.Marked(q, Q.QueueMessage(id, jobs[id].packet));
    }
  }

  /** Another recovery at the same time finds the same jobs, changes nothing and counts 0. */
  lemma SecondRecoveryIsIdle(s: Stores, now: int, limit: int)
    requires DbOk(s.db) && MarkersMatch(s.db.jobs, s.queue) && 1 <= limit <= 10_000
    ensures var s' := RecoverPendingJobs(s, now, limit).0;
            RecoverPendingJobs(s', now, limit) == (s', Ok(0))
  {
    hide DbOk, MarkersMatch, RecoverList, RecoverableAmong;
    var ids := RecoverableAmong(s.db.jobs, |s.db.jobs|, now, limit);
    var s' := RecoverPendingJobs(s, now, limit).0;
    RecoveryEffect(s, now, limit);
    forall i | 0 <= i < |ids| ensures s'.db.jobs[ids[i]].state == QUEUED && ids[i] in s'.queue.markers {
      assert ids[i] in ids;
      assert ids[i] in s'.queue.markers.Keys;
    }
    SameRecoverable(s.db.jobs, s'.db.jobs, ids, |s.db.jobs|, now, limit);
    QueuedListIsIdle(s', ids);
  }

  lemma {:induction false} SameRecoverable(
    jobs: seq<Job>, later: seq<Job>, ids: seq<JobId>, upTo: nat, now: int, limit: nat)
    requires AllInQueue(jobs, later, ids) && upTo <= |jobs|
    requires forall id :: id in ids ==> id < |jobs| && Recoverable(jobs[id], now)
    ensures RecoverableAmong(later, upTo, now, limit) == RecoverableAmong(jobs, upTo, now, limit)
    decreases upTo
  {
    if upTo > 0 {
      SameRecoverable(jobs, later, ids, upTo - 1, now, limit);
    }
  }

  /** Queued jobs that have their references are left alone. */
  lemma {:induction false} QueuedListIsIdle(s: Stores, ids: seq<JobId>)
    requires DbOk(s.db) && MarkersMatch(s.db.jobs, s.queue)
    requires InTable(s.db.jobs, ids)
    requires forall i :: 0 <= i < |ids| ==> s.db.jobs[ids[i]].state == QUEUED && ids[i] in s.queue.markers
    ensures RecoverList(s, ids) == (s, Ok(0))
    decreases ids
  {
    hide DbOk, QueueOne;
    if ids != [] {
      TablesOk(s.db);
      assert MarkerOk(s.db.jobs, s.queue, ids[0]);
      QueuedIsIdle(s, ids[0]);
      QueuedListIsIdle(s, ids[1..]);
    }
  }

  lemma QueuedIsIdle(s: Stores, id: JobId)
    requires JobsOk(s.db.jobs, s.db.packets) && MarkerOk(s.db.jobs, s.queue, id)
    requires id < |s.db.jobs| && s.db.jobs[id].state == QUEUED && id in s.queue.markers
    ensures QueueOne(s, Q.QueueMessage(id, s.db.jobs[id].packet)) == (s, Ok(false))
  {
    assert JobOk(s.db.jobs[id]);
  }

  /** What the recovery does not rebuild: work in progress, and retries not yet due. */
  lemma NotRebuilt(s: Stores, now: int, limit: int, id: JobId)
    requires DbOk(s.db) && s.queue == Q.EMPTY && 1 <= limit <= 10_000 && id < |s.db.jobs|
    requires s.db.jobs[id].state == PROCESSING || (s.db.jobs[id].state == RETRY_WAIT && !RetryDue(s.db.jobs[id], now))
    ensures var s' := RecoverPendingJobs(s, now, limit).0;
            && id < |s'.db.jobs|
            && s'.db.jobs[id] == s.db.jobs[id]
            && id !in s'.queue.markers && Q.Listed(s'.queue)[Reference(s'.db.jobs, id)] == 0
  {
    hide DbOk, RecoverPendingJobs, RecoverableAmong;
    EmptyMatches(s.db.jobs);
    RecoveryEffect(s, now, limit);
  }
}
