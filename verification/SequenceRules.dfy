/** The sequence algorithm of one payload boot session, as a pure decision. */
module SequenceRules {
  import opened Outcomes
  import opened Wire

  const HALF_RANGE := 0x8000_0000

  datatype Disposition =
    | FIRST_IN_ORDER
    | FIRST_WITH_GAP
    | IN_ORDER
    | GAP
    | DUPLICATE
    | CONFLICT
    | LATE_OR_OUT_OF_ORDER

  datatype SequenceError = ValueError | SequenceStateError

  datatype SequenceDecision = SequenceDecision(
    disposition: Disposition,
    accepted: bool,
    shouldQueue: bool,
    shouldAdvanceHighWater: bool,
    nextHighWater: Option<int>,
    missingCount: int)
  {
    predicate IsUnique() {
      disposition !in {DUPLICATE, CONFLICT}
    }
  }

  predicate IsUint32(value: int) {
    0 <= value < TWO_TO_32
  }

  function ForwardDistance(from: int, to: int): (distance: int)
    ensures 0 <= distance < TWO_TO_32
  {
    (to - from) % TWO_TO_32
  }

  function DecideSequence(lastHighWater: Option<int>, current: int, incoming: Bytes, existing: Option<Bytes>)
    : Result<SequenceDecision, SequenceError>
  {
    if !IsUint32(current) then Err(ValueError)
    else if lastHighWater.Some? && !IsUint32(lastHighWater.value) then Err(ValueError)
    else if incoming == [] then Err(ValueError)
    else if existing.Some? then
      if existing.value == incoming then
        Ok(SequenceDecision(DUPLICATE, true, false, false, lastHighWater, 0))
      else
        Ok(SequenceDecision(CONFLICT, false, false, false, lastHighWater, 0))
    else if lastHighWater.None? then
      Ok(SequenceDecision(
           if current == 0 then FIRST_IN_ORDER else FIRST_WITH_GAP, true, true, true, Some(current), current))
    else
      var distance := ForwardDistance(lastHighWater.value, current);
      if distance == 0 then Err(SequenceStateError)
      else if distance == 1 then Ok(SequenceDecision(IN_ORDER, true, true, true, Some(current), 0))
      else if 2 <= distance < HALF_RANGE then
        Ok(SequenceDecision(GAP, true, true, true, Some(current), distance - 1))
      else Ok(SequenceDecision(LATE_OR_OUT_OF_ORDER, true, true, false, lastHighWater, 0))
  }

  /** The whole decision in plain comparisons: how far the number lies ahead of the mark,
      counting on past 2^32 - 1 if it must. */
  lemma DecisionOutcome(lastHighWater: Option<int>, current: int, incoming: Bytes, existing: Option<Bytes>)
    ensures DecideSequence(lastHighWater, current, incoming, existing) ==
            if current < 0 || current > 0xFFFF_FFFF || incoming == [] then Err(ValueError)
            else if lastHighWater.Some? && !(0 <= lastHighWater.value <= 0xFFFF_FFFF) then Err(ValueError)
            else if existing == Some(incoming) then
              Ok(SequenceDecision(DUPLICATE, true, false, false, lastHighWater, 0))
            else if existing.Some? then Ok(SequenceDecision(CONFLICT, false, false, false, lastHighWater, 0))
            else
              match lastHighWater
              case None =>
                Ok(SequenceDecision(
                     if current == 0 then FIRST_IN_ORDER else FIRST_WITH_GAP, true, true, true, Some(current), current))
              case Some(mark) =>
                var ahead := if current < mark then current - mark + 0x1_0000_0000 else current - mark;
                if ahead == 0 then Err(SequenceStateError)
                else if ahead < 0x8000_0000 then
                  Ok(SequenceDecision(
                       if ahead == 1 then IN_ORDER else GAP, true, true, true, Some(current), ahead - 1))
                else Ok(SequenceDecision(LATE_OR_OUT_OF_ORDER, true, true, false, Some(mark), 0))
  {
  }

  /** Moving forward never takes a packet for late and for current in turn: of two
      different sequence numbers exactly one lies ahead of the other, except at the
      distance of exactly half the range, where each is late after the other. */
  lemma AheadIsOneSided(a: int, b: int, incoming: Bytes)
    requires IsUint32(a) && IsUint32(b) && a != b && incoming != []
    ensures var there := DecideSequence(Some(a), b, incoming, None);
            var back := DecideSequence(Some(b), a, incoming, None);
            && there.Ok? && back.Ok?
            && (there.value.shouldAdvanceHighWater && back.value.shouldAdvanceHighWater <==> false)
            && (!there.value.shouldAdvanceHighWater && !back.value.shouldAdvanceHighWater <==>
                ForwardDistance(a, b) == HALF_RANGE)
  {
    assert ForwardDistance(a, b) + ForwardDistance(b, a) == TWO_TO_32;
  }
}
