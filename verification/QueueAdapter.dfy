/** TelemetryQueue: each method runs one script over the Redis lists and markers, and
    raises what the adapter raises for the script's answer. */
module QueueAdapter {
  import opened Outcomes
  import opened Wire
  import opened JobLifecycle
  import Q = RedisQueue

  datatype QueueError = QueueConflict | QueueStateError | MalformedEntry(text: Bytes)

  class TelemetryQueue {
    var pending: seq<Q.Entry>
    var processing: seq<Q.Entry>
    var failed: seq<Q.Entry>
    var markers: map<JobId, Q.QueueMessage>

    function State(): Q.QueueState
      reads this
    {
      Q.QueueState(pending, processing, failed, markers)
    }

    constructor ()
      ensures State() == Q.EMPTY
    {
      pending, processing, failed, markers := [], [], [], map[];
    }

    method Enqueue(message: Q.QueueMessage) returns (outcome: Result<bool, QueueError>)
      modifies this`pending, this`markers
      ensures var (state, answer) := Q.Enqueue(old(State()), message);
              && State() == state
              && outcome == if answer == -1 then Err(QueueConflict) else Ok(answer == 1)
      ensures Q.Consistent(old(State())) ==> Q.Consistent(State())
    {
      ghost var before := State();
      if Q.Consistent(before) {
        Q.EnqueueEffect(before, message);
      }
      if message.job !in markers {
        markers := markers[message.job := message];
        pending := [Q.Reference(message)] + pending;
        return Ok(true);
      }
      if markers[message.job] == message {
        return Ok(false);
      }
      return Err(QueueConflict);
    }

    /** BRPOPLPUSH, and the dead-letter script for an entry that is no message. */
    method Claim() returns (outcome: Result<Option<Q.QueueMessage>, QueueError>)
      modifies this`pending, this`processing, this`failed
      ensures var (state, claimed) := Q.Claim(old(State()));
              && State() == state
              && outcome == match claimed
                            case Nothing => Ok(None)
                            case Message(message) => Ok(Some(message))
                            case Quarantined(text) => Err(MalformedEntry(text))
      ensures Q.Consistent(old(State())) ==> Q.Consistent(State())
    {
      ghost var before := State();
      if Q.Consistent(before) {
        Q.ClaimEffect(before);
      }
      if pending == [] {
        return Ok(None);
      }
      var item := pending[|pending| - 1];
      pending := pending[..|pending| - 1];
      processing := [item] + processing;
      if item.Reference? {
        return Ok(Some(item.message));
      }
      var removed := RemoveFromProcessing(item);
      if !removed {
        return Err(QueueStateError);
      }
      failed := [item] + failed;
      return Err(MalformedEntry(item.text));
    }

    /** LREM processing 1 item. */
    method RemoveFromProcessing(item: Q.Entry) returns (removed: bool)
      modifies this`processing
      ensures removed <==> item in old(processing)
      ensures processing == if removed then Q.RemoveFirst(old(processing), item) else old(processing)
    {
      for i := 0 to |processing|
        invariant processing == old(processing)
        invariant item !in processing[..i]
      {
        if processing[i] == item {
          Q.RemoveFirstAt(processing, i);
          processing := processing[..i] + processing[i + 1..];
          return true;
        }
        assert processing[..i + 1] == processing[..i] + [processing[i]];
      }
      assert processing == processing[..|processing|];
      return false;
    }

    method Ack(message: Q.QueueMessage) returns (outcome: Result<(), QueueError>)
      modifies this`processing, this`markers
      ensures var (state, acked) := Q.Ack(old(State()), message);
              State() == state && outcome == if acked then Ok(()) else Err(QueueStateError)
      ensures Q.Consistent(old(State())) ==> Q.Consistent(State())
    {
      ghost var before := State();
      if Q.Consistent(before) {
        Q.AckEffect(before, message);
      }
      var removed := RemoveFromProcessing(Q.Reference(message));
      if !removed {
        return Err(QueueStateError);
      }
      markers := markers - {message.job};
      return Ok(());
    }

    method Retry(message: Q.QueueMessage) returns (outcome: Result<(), QueueError>)
      modifies this`processing, this`pending
      ensures var (state, moved) := Q.Retry(old(State()), message);
              State() == state && outcome == if moved then Ok(()) else Err(QueueStateError)
      ensures Q.Consistent(old(State())) ==> Q.Consistent(State())
    {
      ghost var before := State();
      if Q.Consistent(before) {
        Q.MoveEffect(before, message);
      }
      var removed := RemoveFromProcessing(Q.Reference(message));
      if !removed {
        return Err(QueueStateError);
      }
      pending := [Q.Reference(message)] + pending;
      return Ok(());
    }

    method DeadLetter(message: Q.QueueMessage) returns (outcome: Result<(), QueueError>)
      modifies this`processing, this`failed
      ensures var (state, moved) := Q.DeadLetter(old(State()), message);
              State() == state && outcome == if moved then Ok(()) else Err(QueueStateError)
      ensures Q.Consistent(old(State())) ==> Q.Consistent(State())
    {
      ghost var before := State();
      if Q.Consistent(before) {
        Q.MoveEffect(before, message);
      }
      var removed := RemoveFromProcessing(Q.Reference(message));
      if !removed {
        return Err(QueueStateError);
      }
      failed := [Q.Reference(message)] + failed;
      return Ok(());
    }

    /** RPOPLPUSH processing pending until processing is empty. */
    method RecoverProcessing() returns (recovered: nat)
      modifies this`processing, this`pending
      ensures State() == Q.RecoverProcessing(old(State()))
      ensures recovered == |old(processing)|
      ensures Q.OldestFirst(pending) == Q.OldestFirst(old(pending)) + Q.OldestFirst(old(processing))
    {
      Q.RecoveryOrder(State());
      recovered := 0;
      while processing != []
        invariant processing + pending == old(processing) + old(pending)
        invariant recovered + |processing| == |old(processing)|
        decreases |processing|
      {
        var item := processing[|processing| - 1];
        assert processing + pending == processing[..|processing| - 1] + ([item] + pending);
        processing, pending := processing[..|processing| - 1], [item] + pending;
        recovered := recovered + 1;
      }
    }
  }
}
