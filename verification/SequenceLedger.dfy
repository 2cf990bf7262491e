/** What the sequence row of one boot session counts, for every order of arrival. */
module SequenceLedger {
  import opened Outcomes
  import opened SequenceRules
  import opened Wire

  /** The disposition stored with a packet; both first cases are FIRST. */
  datatype Placement = FIRST | PLACED_IN_ORDER | PLACED_AFTER_GAP | LATE

  /** One accepted packet of the session, in order of acceptance. */
  datatype Entry = Entry(sequence: int, placement: Placement, missingBefore: int)

  /** The persistent row of the session. */
  datatype Row = Row(highWater: int, acceptedCount: int, missingCount: int)

  function PlacementOf(disposition: Disposition): Placement
    requires disposition !in {DUPLICATE, CONFLICT}
  {
    match disposition
    case FIRST_IN_ORDER => FIRST
    case FIRST_WITH_GAP => FIRST
    case IN_ORDER => PLACED_IN_ORDER
    case GAP => PLACED_AFTER_GAP
    case LATE_OR_OUT_OF_ORDER => LATE
  }

  /** How a packet with a key of its own is placed after `row`, as DecideSequence has it. */
  function Place(row: Option<Row>, sequence: int): Result<Entry, SequenceError> {
    var highWater := if row.Some? then Some(row.value.highWater) else None;
    // The bytes only matter when a packet with this key is already stored.
    match DecideSequence(highWater, sequence, [0], None)
    case Err(error) => Err(error)
    case Ok(decision) =>
      if decision.IsUnique() then Ok(Entry(sequence, PlacementOf(decision.disposition), decision.missingCount))
      else Err(ValueError)
  }

  /** The same rule in plain comparisons, without modular arithmetic: how far ahead of
      the high-water mark the packet lies, counting on past 2^32 - 1 if it must. */
  predicate Placed(row: Option<Row>, entry: Entry) {
    && IsUint32(entry.sequence)
    && match row
       case None => entry.placement == FIRST && entry.missingBefore == entry.sequence
       case Some(r) =>
         var ahead := entry.sequence - r.highWater + if entry.sequence < r.highWater then TWO_TO_32 else 0;
         && ahead != 0
         && entry.placement == (if ahead == 1 then PLACED_IN_ORDER
                                else if ahead < HALF_RANGE then PLACED_AFTER_GAP
                                else LATE)
         && entry.missingBefore == if ahead < HALF_RANGE then ahead - 1 else 0
  }

  lemma PlaceIffPlaced(row: Option<Row>, sequence: int, entry: Entry)
    requires row.Some? ==> IsUint32(row.value.highWater)
    ensures Place(row, sequence) == Ok(entry) <==> entry.sequence == sequence && Placed(row, entry)
    ensures Place(row, sequence) == Err(SequenceStateError) <==>
            IsUint32(sequence) && row.Some? && row.value.highWater == sequence
  {
  }

  lemma OtherNumberIsPlaced(row: Option<Row>, sequence: int) returns (entry: Entry)
    requires IsUint32(sequence)
    requires row.Some? ==> IsUint32(row.value.highWater) && row.value.highWater != sequence
    ensures Place(row, sequence) == Ok(entry) && entry.sequence == sequence && Placed(row, entry)
  {
    entry := Place(row, sequence).value;
    PlaceIffPlaced(row, sequence, entry);
  }

  function Advance(row: Option<Row>, entry: Entry): Row {
    match row
    case None => Row(entry.sequence, 1, entry.missingBefore)
    case Some(r) =>
      if entry.placement == LATE then r.(acceptedCount := r.acceptedCount + 1)
      else Row(entry.sequence, r.acceptedCount + 1, r.missingCount + entry.missingBefore)
  }

  /** The row after the packets of a session, and the rule that placed each of them. */
  function Replay(entries: seq<Entry>): Option<Row> {
    if entries == [] then None
    else Some(Advance(Replay(entries[..|entries| - 1]), entries[|entries| - 1]))
  }

  predicate Legit(entries: seq<Entry>) {
    entries == []
    || var before, last := entries[..|entries| - 1], entries[|entries| - 1];
       && Legit(before)
       && last.sequence !in Sequences(before)
       && Placed(Replay(before), last)
  }

  // ----- counting over the packets of a session -----

  function Sequences(entries: seq<Entry>): set<int> {
    set e | e in entries :: e.sequence
  }

  function MissingSum(entries: seq<Entry>): int {
    if entries == [] then 0 else MissingSum(entries[..|entries| - 1]) + entries[|entries| - 1].missingBefore
  }

  function LateCount(entries: seq<Entry>): nat {
    if entries == [] then 0
    else LateCount(entries[..|entries| - 1]) + if entries[|entries| - 1].placement == LATE then 1 else 0
  }

  /** The sequence of the last packet that was not late. */
  function LastForward(entries: seq<Entry>): Option<int> {
    if entries == [] then None
    else if entries[|entries| - 1].placement == LATE then LastForward(entries[..|entries| - 1])
    else Some(entries[|entries| - 1].sequence)
  }

  /** How often the high-water mark moved to a numerically smaller value. */
  function Wraps(entries: seq<Entry>): nat {
    if entries == [] then 0
    else
      var before, last := entries[..|entries| - 1], entries[|entries| - 1];
      Wraps(before) +
      if last.placement != LATE && LastForward(before).Some? && last.sequence < LastForward(before).value then 1 else 0
  }

  lemma SequencesGrow(before: seq<Entry>, last: Entry)
    ensures Sequences(before + [last]) == Sequences(before) + {last.sequence}
  {
    assert forall e :: e in before + [last] <==> e in before || e == last;
  }

  lemma Split(entries: seq<Entry>)
    requires entries != []
    ensures entries == entries[..|entries| - 1] + [entries[|entries| - 1]]
    ensures Sequences(entries) == Sequences(entries[..|entries| - 1]) + {entries[|entries| - 1].sequence}
  {
    SequencesGrow(entries[..|entries| - 1], entries[|entries| - 1]);
  }

  /** The row is an exact account: its counters are those of the packet table, and the
      conservation law holds with every wrap of the high-water mark paid for. */
  lemma {:induction false} RowCounts(entries: seq<Entry>)
    requires Legit(entries)
    ensures entries == [] <==> Replay(entries).None?
    ensures forall v :: v in Sequences(entries) ==> IsUint32(v)
    ensures Replay(entries).Some? ==>
              var row := Replay(entries).value;
              && LastForward(entries) == Some(row.highWater)
              && row.highWater in Sequences(entries)
              && row.acceptedCount == |entries| == |Sequences(entries)|
              && row.missingCount == MissingSum(entries)
              && row.missingCount + row.acceptedCount - LateCount(entries)
                 == row.highWater + 1 + TWO_TO_32 * Wraps(entries)
  {
    if entries != [] {
      var before, last := entries[..|entries| - 1], entries[|entries| - 1];
      Split(entries);
      RowCounts(before);
    }
  }

  /** The same law modulo 2^32, free of the number of wraps. */
  lemma {:induction false} Conservation(entries: seq<Entry>)
    requires Legit(entries) && entries != []
    ensures var row := Replay(entries).value;
            (row.missingCount + row.acceptedCount - LateCount(entries)) % TWO_TO_32
            == (row.highWater + 1) % TWO_TO_32
  {
    RowCounts(entries);
    WrapsVanish(Replay(entries).value.highWater + 1, Wraps(entries));
  }

  lemma {:induction false} WrapsVanish(x: int, wraps: nat)
    ensures (x + TWO_TO_32 * wraps) % TWO_TO_32 == x % TWO_TO_32
  {
    if wraps > 0 {
      WrapsVanish(x, wraps - 1);
    }
  }

  /** A new key never meets its own high-water mark, so it is always placed. */
  lemma NewKeyIsPlaced(entries: seq<Entry>, sequence: int)
    requires Legit(entries) && IsUint32(sequence) && sequence !in Sequences(entries)
    ensures Place(Replay(entries), sequence).Ok?
    ensures Legit(entries + [Place(Replay(entries), sequence).value])
  {
    RowCounts(entries);
    var entry := OtherNumberIsPlaced(Replay(entries), sequence);
    LegitGrows(entries, entry);
  }

  lemma LegitGrows(entries: seq<Entry>, entry: Entry)
    requires Legit(entries) && Placed(Replay(entries), entry) && entry.sequence !in Sequences(entries)
    ensures Legit(entries + [entry])
    ensures Replay(entries + [entry]) == Some(Advance(Replay(entries), entry))
  {
    assert (entries + [entry])[..|entries|] == entries;
  }

  // ----- what the counters mean -----

  function UpTo(n: int): (numbers: set<int>)
    ensures forall v :: v in numbers <==> 0 <= v <= n
    ensures n >= 0 ==> |numbers| == n + 1
    decreases n + 1
  {
    if n < 0 then {} else UpTo(n - 1) + {n}
  }

  /** The numbers up to the high-water mark that the session never accepted. */
  function Holes(entries: seq<Entry>, highWater: int): set<int> {
    UpTo(highWater) - Sequences(entries)
  }

  lemma SubsetCount(a: set<int>, b: set<int>)
    requires a <= b
    ensures |a| <= |b|
  {
    assert b == a + (b - a);
  }

  lemma SharedCount(a: set<int>, b: set<int>)
    ensures |a - b| + |b| == |a| + |b - a|
  {
    assert a == (a - b) + (a * b);
    assert b == (b - a) + (a * b);
  }

  /** How the numbers up to the mark and the accepted numbers share their members. */
  lemma HolesAndAbove(all: set<int>, highWater: int)
    requires (forall v :: v in all ==> IsUint32(v)) && highWater in all
    ensures var above := all - UpTo(highWater);
            && |UpTo(highWater) - all| + |all| == highWater + 1 + |above|
            && |above| < TWO_TO_32
            && (above == {} <==> forall v :: v in all ==> v <= highWater)
  {
    hide UpTo;
    SharedCount(UpTo(highWater), all);
    FewAbove(all, highWater);
    NoneAbove(all, highWater);
  }

  lemma NoneAbove(all: set<int>, highWater: int)
    requires forall v :: v in all ==> IsUint32(v)
    ensures all - UpTo(highWater) == {} <==> forall v :: v in all ==> v <= highWater
  {
    hide UpTo;
    if all - UpTo(highWater) == {} {
      forall v | v in all ensures v <= highWater {
        assert v !in all - UpTo(highWater);
      }
    } else {
      var v :| v in all - UpTo(highWater);
    }
  }

  lemma FewAbove(all: set<int>, highWater: int)
    requires (forall v :: v in all ==> IsUint32(v)) && highWater in all
    ensures |all - UpTo(highWater)| < TWO_TO_32
  {
    var top := UpTo(TWO_TO_32 - 1);
    assert highWater in top;
    SubsetCount(all - UpTo(highWater), top - {highWater});
  }

  /** Missing minus late is the number of holes exactly when the high-water mark never
      wrapped and no accepted number lies above it. */
  lemma HoleCountIff(entries: seq<Entry>)
    requires Legit(entries) && entries != []
    ensures var row := Replay(entries).value;
            row.missingCount - LateCount(entries) == |Holes(entries, row.highWater)| <==>
            Wraps(entries) == 0 && forall e :: e in entries ==> e.sequence <= row.highWater
  {
    hide UpTo, LateCount, Wraps, MissingSum, Legit, Replay;
    RowCounts(entries);
    var highWater := Replay(entries).value.highWater;
    HolesAndAbove(Sequences(entries), highWater);
    assert (forall v :: v in Sequences(entries) ==> v <= highWater)
           <==> (forall e :: e in entries ==> e.sequence <= highWater) by {
      forall e | e in entries ensures e.sequence in Sequences(entries) {
      }
    }
  }

  /** Below half the range the high-water mark never wraps and is the largest accepted
      number, whatever the order of arrival. */
  lemma {:induction false} BelowHalfRange(entries: seq<Entry>)
    requires Legit(entries)
    requires forall e :: e in entries ==> e.sequence < HALF_RANGE
    ensures Wraps(entries) == 0
    ensures entries != [] ==> forall e :: e in entries ==> e.sequence <= Replay(entries).value.highWater
  {
    if entries != [] {
      var before, last := entries[..|entries| - 1], entries[|entries| - 1];
      Split(entries);
      BelowHalfRange(before);
      RowCounts(before);
      assert forall e :: e in entries ==> e in before || e == last;
      if before != [] {
        var mark :| mark in before && mark.sequence == Replay(before).value.highWater;
        assert mark in entries;
      }
    }
  }

  /** So there the holes are counted exactly. */
  lemma ExactHoleCount(entries: seq<Entry>)
    requires Legit(entries) && entries != []
    requires forall e :: e in entries ==> e.sequence < HALF_RANGE
    ensures var row := Replay(entries).value;
            && row.highWater in Sequences(entries)
            && (forall e :: e in entries ==> e.sequence <= row.highWater)
            && row.missingCount - LateCount(entries) == |Holes(entries, row.highWater)|
  {
    RowCounts(entries);
    BelowHalfRange(entries);
    HoleCountIff(entries);
  }

  /** Beyond it the count can be wrong: after 0, the number 2^31 is late although it is
      the larger one, and the account shows one hole less than none. */
  lemma HalfRangeMiscounts()
    ensures var entries := [Entry(0, FIRST, 0), Entry(HALF_RANGE, LATE, 0)];
            && Legit(entries)
            && Replay(entries) == Some(Row(0, 2, 0))
            && Replay(entries).value.missingCount - LateCount(entries) == -1
  {
    var first, entries := [Entry(0, FIRST, 0)], [Entry(0, FIRST, 0), Entry(HALF_RANGE, LATE, 0)];
    assert entries[..1] == first && first[..0] == [];
    assert Replay(first) == Some(Row(0, 1, 0)) && LateCount(first) == 0;
    assert Legit(first);
    assert HALF_RANGE !in Sequences(first);
  }
}
