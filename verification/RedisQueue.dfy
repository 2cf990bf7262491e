/** The Redis side: three lists and one marker per job, changed only by the scripts.
    Index 0 of a list is its left end, where LPUSH adds; RPOPLPUSH takes from the right. */
module RedisQueue {
  import opened Wire
  import opened JobLifecycle

  datatype QueueMessage = QueueMessage(job: JobId, packet: PacketKey)

  /** List contents: the canonical bytes of a message, or bytes that are no message. */
  datatype Entry = Reference(message: QueueMessage) | Malformed(text: Bytes)

  datatype QueueState = QueueState(
    pending: seq<Entry>,
    processing: seq<Entry>,
    failed: seq<Entry>,
    markers: map<JobId, QueueMessage>)

  const EMPTY := QueueState([], [], [], map[])

  /** LREM key 1 value. */
  function RemoveFirst(list: seq<Entry>, entry: Entry): seq<Entry> {
    if list == [] then []
    else if list[0] == entry then list[1..]
    else [list[0]] + RemoveFirst(list[1..], entry)
  }

  // ----- the scripts -----

  /** 1 added, 0 already there, -1 the job already names another packet. */
  function Enqueue(q: QueueState, message: QueueMessage): (QueueState, int) {
    if message.job !in q.markers then
      (q.(markers := q.markers[message.job := message], pending := [Reference(message)] + q.pending), 1)
    else if q.markers[message.job] == message then (q, 0)
    else (q, -1)
  }

  datatype Claimed = Nothing | Message(message: QueueMessage) | Quarantined(text: Bytes)

  function Claim(q: QueueState): (QueueState, Claimed) {
    if q.pending == [] then (q, Nothing)
    else
      var oldest, rest := q.pending[|q.pending| - 1], q.pending[..|q.pending| - 1];
      match oldest
      case Reference(message) => (q.(pending := rest, processing := [oldest] + q.processing), Message(message))
      case Malformed(text) => (q.(pending := rest, failed := [oldest] + q.failed), Quarantined(text))
  }

  function Ack(q: QueueState, message: QueueMessage): (QueueState, bool) {
    if Reference(message) in q.processing then
      (q.(processing := RemoveFirst(q.processing, Reference(message)), markers := q.markers - {message.job}), true)
    else (q, false)
  }

  function Retry(q: QueueState, message: QueueMessage): (QueueState, bool) {
    if Reference(message) in q.processing then
      (q.(processing := RemoveFirst(q.processing, Reference(message)),
          pending := [Reference(message)] + q.pending), true)
    else (q, false)
  }

  function DeadLetter(q: QueueState, message: QueueMessage): (QueueState, bool) {
    if Reference(message) in q.processing then
      (q.(processing := RemoveFirst(q.processing, Reference(message)), failed := [Reference(message)] + q.failed), true)
    else (q, false)
  }

  /** All of processing, in its order, to the left of what is pending. */
  function RecoverProcessing(q: QueueState): QueueState {
    q.(processing := [], pending := q.processing + q.pending)
  }

  // ----- conservation -----

  function Listed(q: QueueState): multiset<Entry> {
    multiset(q.pending) + multiset(q.processing) + multiset(q.failed)
  }

  predicate Marked(q: QueueState, message: QueueMessage) {
    message.job in q.markers && q.markers[message.job] == message
  }

  /** Every marked message is in exactly one list, once, and nothing else is listed. */
  ghost predicate Consistent(q: QueueState) {
    && (forall message: QueueMessage :: Listed(q)[Reference(message)] == if Marked(q, message) then 1 else 0)
    && (forall job :: job in q.markers ==> q.markers[job].job == job)
  }

  lemma {:induction false} RemoveFirstTakesOne(list: seq<Entry>, entry: Entry)
    requires entry in list
    ensures multiset(RemoveFirst(list, entry)) == multiset(list) - multiset{entry}
  {
    assert list == [list[0]] + list[1..];
    if list[0] != entry {
      RemoveFirstTakesOne(list[1..], entry);
    }
  }

  lemma {:induction false} RemoveFirstAt(list: seq<Entry>, i: nat)
    requires i < |list| && list[i] !in list[..i]
    ensures RemoveFirst(list, list[i]) == list[..i] + list[i + 1..]
  {
    if i > 0 {
      assert list[0] == list[..i][0];
      assert list[1..][..i - 1] == list[..i][1..];
      RemoveFirstAt(list[1..], i - 1);
    }
  }

  lemma PopOldest(list: seq<Entry>)
    requires list != []
    ensures multiset(list) == multiset(list[..|list| - 1]) + multiset{list[|list| - 1]}
  {
    assert list == list[..|list| - 1] + [list[|list| - 1]];
  }

  /** What each script does to the listed entries and to the set of marked jobs. */
  lemma EnqueueEffect(q: QueueState, message: QueueMessage)
    requires Consistent(q)
    ensures var (q', result) := Enqueue(q, message);
            && Consistent(q')
            && Listed(q') == Listed(q) + (if result == 1 then multiset{Reference(message)} else multiset{})
            && (result == 1 <==> message.job !in q.markers)
            && (result == -1 ==> message.job in q.markers && q.markers[message.job] != message)
  {
  }

  lemma ClaimEffect(q: QueueState)
    requires Consistent(q)
    ensures var (q', claimed) := Claim(q);
            && Consistent(q')
            && Listed(q') == Listed(q)
            && q'.markers == q.markers
            && (claimed.Message? ==> Marked(q, claimed.message))
  {
    if q.pending != [] {
      PopOldest(q.pending);
      var oldest := q.pending[|q.pending| - 1];
      assert Listed(Claim(q).0) == Listed(q);
      if oldest.Reference? {
        assert Listed(q)[Reference(oldest.message)] > 0;
      }
    }
  }

  lemma AckEffect(q: QueueState, message: QueueMessage)
    requires Consistent(q)
    ensures var (q', acked) := Ack(q, message);
            && Consistent(q')
            && Listed(q) == Listed(q') + (if acked then multiset{Reference(message)} else multiset{})
            && (acked ==> Marked(q, message) && q'.markers == q.markers - {message.job})
  {
    if Reference(message) in q.processing {
      RemoveFirstTakesOne(q.processing, Reference(message));
      var q' := Ack(q, message).0;
      assert Listed(q)[Reference(message)] > 0;
      assert Listed(q) == Listed(q') + multiset{Reference(message)};
      forall m: QueueMessage
        ensures Listed(q')[Reference(m)] == if Marked(q', m) then 1 else 0
      {
        assert Listed(q)[Reference(m)] == if Marked(q, m) then 1 else 0;
      }
    }
  }

  lemma MoveEffect(q: QueueState, message: QueueMessage)
    requires Consistent(q)
    ensures var (q', moved) := Retry(q, message);
            Consistent(q') && Listed(q') == Listed(q) && q'.markers == q.markers && q'.failed == q.failed
    ensures var (q', moved) := DeadLetter(q, message);
            Consistent(q') && Listed(q') == Listed(q) && q'.markers == q.markers
  {
    if Reference(message) in q.processing {
      RemoveFirstTakesOne(q.processing, Reference(message));
      assert Listed(Retry(q, message).0) == Listed(q);
      assert Listed(DeadLetter(q, message).0) == Listed(q);
    }
  }

  lemma RecoverEffect(q: QueueState)
    requires Consistent(q)
    ensures var q' := RecoverProcessing(q);
            Consistent(q') && Listed(q') == Listed(q) && q'.markers == q.markers && q'.failed == q.failed
  {
    assert Listed(RecoverProcessing(q)) == Listed(q);
  }

  // ----- every history of the queue -----

  datatype QueueEvent =
    | Enqueueing(message: QueueMessage)
    | Claiming
    | Acking(message: QueueMessage)
    | Retrying(message: QueueMessage)
    | DeadLettering(message: QueueMessage)
    | Recovering

  function After(q: QueueState, event: QueueEvent): QueueState {
    match event
    case Enqueueing(message) => Enqueue(q, message).0
    case Claiming => Claim(q).0
    case Acking(message) => Ack(q, message).0
    case Retrying(message) => Retry(q, message).0
    case DeadLettering(message) => DeadLetter(q, message).0
    case Recovering => RecoverProcessing(q)
  }

  function Run(q: QueueState, events: seq<QueueEvent>): QueueState
    decreases events
  {
    if events == [] then q else Run(After(q, events[0]), events[1..])
  }

  /** The entry an event adds, takes out for good, or hands to a worker, if any. */
  function AddedBy(q: QueueState, event: QueueEvent): seq<Entry> {
    if event.Enqueueing? && Enqueue(q, event.message).1 == 1 then [Reference(event.message)] else []
  }

  function RemovedBy(q: QueueState, event: QueueEvent): seq<Entry> {
    if event.Acking? && Ack(q, event.message).1 then [Reference(event.message)] else []
  }

  function HandedOutBy(q: QueueState, event: QueueEvent): seq<Entry> {
    if event.Claiming? && q.pending != [] then [q.pending[|q.pending| - 1]] else []
  }

  function Added(q: QueueState, events: seq<QueueEvent>): seq<Entry>
    decreases events
  {
    if events == [] then [] else AddedBy(q, events[0]) + Added(After(q, events[0]), events[1..])
  }

  function Removed(q: QueueState, events: seq<QueueEvent>): seq<Entry>
    decreases events
  {
    if events == [] then [] else RemovedBy(q, events[0]) + Removed(After(q, events[0]), events[1..])
  }

  function HandedOut(q: QueueState, events: seq<QueueEvent>): seq<Entry>
    decreases events
  {
    if events == [] then [] else HandedOutBy(q, events[0]) + HandedOut(After(q, events[0]), events[1..])
  }

  lemma Step(q: QueueState, event: QueueEvent)
    requires Consistent(q)
    ensures Consistent(After(q, event))
    ensures Listed(After(q, event)) + multiset(RemovedBy(q, event)) == Listed(q) + multiset(AddedBy(q, event))
  {
    match event
    case Enqueueing(message) => EnqueueEffect(q, message);
    case Claiming => ClaimEffect(q);
    case Acking(message) => AckEffect(q, message);
    case Retrying(message) => MoveEffect(q, message);
    case DeadLettering(message) => MoveEffect(q, message);
    case Recovering => RecoverEffect(q);
  }

  /** Nothing is lost and nothing is doubled: what was added and not acknowledged is
      exactly what is listed, each message once, and marked exactly if listed. */
  lemma {:induction false} QueueConserves(q: QueueState, events: seq<QueueEvent>)
    requires Consistent(q)
    ensures Consistent(Run(q, events))
    ensures Listed(Run(q, events)) + multiset(Removed(q, events)) == Listed(q) + multiset(Added(q, events))
    decreases events
  {
    if events != [] {
      var q' := After(q, events[0]);
      Step(q, events[0]);
      QueueConserves(q', events[1..]);
      Balance(
        Listed(q), Listed(q'), Listed(Run(q, events)),
        AddedBy(q, events[0]), Added(q', events[1..]), RemovedBy(q, events[0]), Removed(q', events[1..]));
    }
  }

  lemma Balance(
    start: multiset<Entry>, middle: multiset<Entry>, end: multiset<Entry>,
    added: seq<Entry>, addedLater: seq<Entry>, removed: seq<Entry>, removedLater: seq<Entry>)
    requires middle + multiset(removed) == start + multiset(added)
    requires end + multiset(removedLater) == middle + multiset(addedLater)
    ensures end + multiset(removed + removedLater) == start + multiset(added + addedLater)
  {
    var r, r', a, a' := multiset(removed), multiset(removedLater), multiset(added), multiset(addedLater);
    assert end + (r + r') == (end + r') + r == (middle + a') + r == (middle + r) + a' == start + (a + a');
  }

  // ----- order -----

  /** A list from its right end: the order in which claims take it. */
  function OldestFirst(list: seq<Entry>): (s: seq<Entry>)
    ensures |s| == |list|
  {
    if list == [] then [] else OldestFirst(list[1..]) + [list[0]]
  }

  lemma {:induction false} OldestFirstConcat(a: seq<Entry>, b: seq<Entry>)
    ensures OldestFirst(a + b) == OldestFirst(b) + OldestFirst(a)
  {
    if a == [] {
      assert a + b == b;
    } else {
      assert (a + b)[1..] == a[1..] + b;
      OldestFirstConcat(a[1..], b);
    }
  }

  lemma OldestFirstPop(list: seq<Entry>)
    requires list != []
    ensures OldestFirst(list) == [list[|list| - 1]] + OldestFirst(list[..|list| - 1])
  {
    var rest, oldest := list[..|list| - 1], list[|list| - 1];
    assert list == rest + [oldest];
    OldestFirstConcat(rest, [oldest]);
    assert OldestFirst([oldest]) == [oldest];
  }

  predicate PutsBack(event: QueueEvent) {
    event.Retrying? || event.Recovering?
  }

  /** Unless something is put back, claims follow the order of the enqueues. */
  lemma {:induction false} ClaimsFollowEnqueues(q: QueueState, events: seq<QueueEvent>)
    requires forall event :: event in events ==> !PutsBack(event)
    ensures HandedOut(q, events) + OldestFirst(Run(q, events).pending) == OldestFirst(q.pending) + Added(q, events)
    decreases events
  {
    if events != [] {
      var q' := After(q, events[0]);
      var rest := events[1..];
      ClaimsFollowEnqueues(q', rest);
      PendingMoves(q, events[0]);
      Reassociate(
        HandedOutBy(q, events[0]), HandedOut(q', rest), OldestFirst(Run(q', rest).pending), OldestFirst(q'.pending),
        OldestFirst(q.pending), AddedBy(q, events[0]), Added(q', rest));
    }
  }

  lemma Reassociate(
    handed: seq<Entry>, handedLater: seq<Entry>, end: seq<Entry>, middle: seq<Entry>,
    start: seq<Entry>, added: seq<Entry>, addedLater: seq<Entry>)
    requires handed + middle == start + added && handedLater + end == middle + addedLater
    ensures (handed + handedLater) + end == start + (added + addedLater)
  {
    assert (handed + handedLater) + end == handed + (handedLater + end) == (handed + middle) + addedLater;
  }

  lemma PendingMoves(q: QueueState, event: QueueEvent)
    requires !PutsBack(event)
    ensures HandedOutBy(q, event) + OldestFirst(After(q, event).pending) == OldestFirst(q.pending) + AddedBy(q, event)
  {
    if event.Enqueueing? && event.message.job !in q.markers {
      assert After(q, event).pending[1..] == q.pending;
    }
    if event.Claiming? && q.pending != [] {
      OldestFirstPop(q.pending);
    }
  }

  /** After a recovery the waiting work is claimed first, then the stranded work, each
      in its own order. */
  lemma RecoveryOrder(q: QueueState)
    ensures OldestFirst(RecoverProcessing(q).pending) == OldestFirst(q.pending) + OldestFirst(q.processing)
  {
    OldestFirstConcat(q.processing, q.pending);
  }

  /** A message that is put back waits behind everything that waits already, and the rest
      of the processing list keeps its order. */
  lemma RetryGoesLast(q: QueueState, message: QueueMessage)
    requires Reference(message) in q.processing
    ensures OldestFirst(Retry(q, message).0.pending) == OldestFirst(q.pending) + [Reference(message)]
    ensures exists i :: 0 <= i < |q.processing| && q.processing[i] == Reference(message)
                        && Retry(q, message).0.processing == q.processing[..i] + q.processing[i + 1..]
  {
    var i := FirstPlace(q.processing, Reference(message));
    RemoveFirstAt(q.processing, i);
    assert ([Reference(message)] + q.pending)[1..] == q.pending;
  }

  lemma {:induction false} FirstPlace(list: seq<Entry>, entry: Entry) returns (i: nat)
    requires entry in list
    ensures i < |list| && list[i] == entry && entry !in list[..i]
  {
    i := 0;
    if list[0] != entry {
      assert list == [list[0]] + list[1..];
      var k := FirstPlace(list[1..], entry);
      i := k + 1;
      assert list[..i] == [list[0]] + list[1..][..k];
    }
  }

  // ----- every answer of the scripts -----

  /** An unmarked job gets its marker and one reference, behind all others; the same message
      again is told apart from another packet under the same job, and changes nothing. */
  lemma EnqueueOutcome(q: QueueState, message: QueueMessage)
    ensures Enqueue(q, message) ==
            if message.job in q.markers then (q, if q.markers[message.job] == message then 0 else -1)
            else
              (QueueState([Reference(message)] + q.pending, q.processing, q.failed,
                          q.markers[message.job := message]), 1)
  {
  }

  /** The oldest entry goes to processing, or to failed if it is no message. */
  lemma ClaimOutcome(q: QueueState)
    ensures q.pending == [] ==> Claim(q) == (q, Nothing)
    ensures forall rest, oldest :: q.pending == rest + [oldest] ==>
              Claim(q) == match oldest
                          case Reference(message) =>
                            (QueueState(rest, [oldest] + q.processing, q.failed, q.markers), Message(message))
                          case Malformed(text) =>
                            (QueueState(rest, q.processing, [oldest] + q.failed, q.markers), Quarantined(text))
  {
  }

  /** A script that settles a message takes exactly its first occurrence out of processing,
      and acknowledges it with its marker, or puts it behind all waiting work, or keeps it
      in the failed list; without an occurrence it changes nothing. */
  lemma SettleOutcome(q: QueueState, message: QueueMessage)
    ensures Reference(message) !in q.processing ==>
              Ack(q, message) == Retry(q, message) == DeadLetter(q, message) == (q, false)
    ensures Reference(message) in q.processing ==>
              exists before, after ::
                && q.processing == before + [Reference(message)] + after && Reference(message) !in before
                && Ack(q, message) ==
                   (QueueState(q.pending, before + after, q.failed, q.markers - {message.job}), true)
                && Retry(q, message) ==
                   (QueueState([Reference(message)] + q.pending, before + after, q.failed, q.markers), true)
                && DeadLetter(q, message) ==
                   (QueueState(q.pending, before + after, [Reference(message)] + q.failed, q.markers), true)
  {
    if Reference(message) in q.processing {
      var i := FirstPlace(q.processing, Reference(message));
      RemoveFirstAt(q.processing, i);
      assert q.processing == q.processing[..i] + [Reference(message)] + q.processing[i + 1..];
    }
  }
}
