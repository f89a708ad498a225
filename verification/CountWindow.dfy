/** The count-based sliding window of window.go: a ring with one outcome in each slot. */
module CountWindow {
  import opened Outcomes
  import opened WindowSpec
  import opened TimeWindow

  /** The contents of the slot that was written `age` updates before the last one. */
  function SlotContents(log: seq<WindowOutcome>, age: int): Counter {
    if 0 <= age < |log| then ZERO.Add(log[|log| - 1 - age]) else ZERO
  }

  class CountWindowMetric {
    const slots: array<Counter>
    var endIndex: int
    var total: Counter

    ghost var log: seq<WindowOutcome>

    ghost function Footprint(): set<object> {
      {this, slots}
    }

    ghost function Abs(): CountLog
      reads this
    {
      CountLog(slots.Length, log)
    }

    ghost predicate Valid()
      reads this, slots
    {
      && 0 <= endIndex < slots.Length
      && (forall i :: 0 <= i < slots.Length ==> slots[i] == SlotContents(log, Age(i, endIndex, slots.Length)))
      && total == Abs().Total()
    }

    constructor (windowSize: nat)
      requires windowSize > 0
      ensures Valid() && fresh(Footprint())
      ensures Abs() == CountLog(windowSize, [])
    {
      slots := new Counter[windowSize](_ => ZERO);
      total := ZERO;
      endIndex := 0;
      log := [];
    }

    /** Empties the oldest slot and makes it the end. */
    method MoveForwardOneStep() returns (latest: int)
      requires Valid()
      modifies this, slots
      ensures latest == endIndex && 0 <= endIndex < slots.Length && log == old(log)
      ensures slots[endIndex] == ZERO
      ensures forall i :: 0 <= i < slots.Length && i != endIndex ==>
                slots[i] == SlotContents(log, Age(i, endIndex, slots.Length) - 1)
      ensures total == Tally(Kept(log, slots.Length))
    {
      hide Tally, SlotContents, Kept, CountLog.Window, Counter.Subtract;
      AgeStep(endIndex, slots.Length);
      endIndex := (endIndex + 1) % slots.Length;
      OldestLeaves(log, slots.Length);
      total := total.Subtract(slots[endIndex]);
      slots[endIndex] := ZERO;
      latest := endIndex;
    }

    method Update(outcome: WindowOutcome) returns (snapshot: Snapshot)
      requires Valid()
      modifies this, slots
      ensures Valid() && Abs() == old(Abs()).Update(outcome)
      ensures snapshot == NewSnapshot(Abs().Total())
    {
      hide Tally, NewSnapshot, Kept, CountLog.Window, SlotContents, Counter.Add;
      var latest := MoveForwardOneStep();
      slots[latest] := slots[latest].Add(outcome);
      total := total.Add(outcome);
      WindowShifts(log, outcome, slots.Length);
      SlotsShift(log, outcome);
      log := log + [outcome];
      assert total == Abs().Total();
      snapshot := NewSnapshot(total);
    }

    method GetSnapshot() returns (snapshot: Snapshot)
      requires Valid()
      ensures snapshot == NewSnapshot(Abs().Total())
    {
      snapshot := NewSnapshot(total);
    }

    /** Each slot holds at most one outcome. */
    lemma SlotsHoldOneOutcome(i: int)
      requires Valid() && 0 <= i < slots.Length
      ensures slots[i].Consistent() && slots[i].total <= 1
    {
    }
  }

  /** What is left of the window when its oldest outcome has gone. */
  function Kept(log: seq<WindowOutcome>, capacity: nat): seq<WindowOutcome>
    requires capacity > 0
  {
    if |log| < capacity then log else log[|log| - capacity + 1..]
  }

  /** With an update every slot becomes one older, and the youngest holds the new outcome. */
  lemma SlotsShift(log: seq<WindowOutcome>, outcome: WindowOutcome)
    ensures SlotContents(log + [outcome], 0) == ZERO.Add(outcome)
    ensures forall age {:trigger SlotContents(log + [outcome], age)} :: age != 0 ==>
              SlotContents(log + [outcome], age) == SlotContents(log, age - 1)
  {
    hide SlotContents, Counter.Add;
    YoungestSlot(log, outcome);
    forall age {:trigger SlotContents(log + [outcome], age)} | age != 0
      ensures SlotContents(log + [outcome], age) == SlotContents(log, age - 1)
    {
      OlderSlot(log, outcome, age);
    }
  }

  lemma YoungestSlot(log: seq<WindowOutcome>, outcome: WindowOutcome)
    ensures SlotContents(log + [outcome], 0) == ZERO.Add(outcome)
  {
    hide Counter.Add;
  }

  lemma OlderSlot(log: seq<WindowOutcome>, outcome: WindowOutcome, age: int)
    requires age != 0
    ensures SlotContents(log + [outcome], age) == SlotContents(log, age - 1)
  {
    hide Counter.Add;
    if 0 < age <= |log| {
      assert (log + [outcome])[|log| - age] == log[|log| - age];
    }
  }

  lemma WindowShifts(log: seq<WindowOutcome>, outcome: WindowOutcome, capacity: nat)
    requires capacity > 0
    ensures Tally(CountLog(capacity, log + [outcome]).Window()) == Tally(Kept(log, capacity)).Add(outcome)
  {
    hide One;
    var w := CountLog(capacity, log + [outcome]).Window();
    assert w[..|w| - 1] == Kept(log, capacity);
  }

  /** Dropping the oldest outcome of a full window takes its slot's contents off the tally. */
  lemma OldestLeaves(log: seq<WindowOutcome>, capacity: nat)
    requires capacity > 0
    ensures Tally(Kept(log, capacity)) ==
            Tally(CountLog(capacity, log).Window()).Subtract(SlotContents(log, capacity - 1))
  {
    hide Tally, One, Counter.Plus, Counter.Subtract;
    if |log| >= capacity {
      var w := CountLog(capacity, log).Window();
      TallyConcat([w[0]], w[1..]);
      assert w == [w[0]] + w[1..];
      assert w[1..] == Kept(log, capacity);
      TallyOfOne(w[0]);
      PlusLaws(Tally([w[0]]), Tally(w[1..]), w[0]);
    } else {
      SubtractZero(Tally(log));
    }
  }

  lemma SubtractZero(c: Counter)
    ensures c.Subtract(ZERO) == c
  {
  }

  lemma TallyOfOne(o: WindowOutcome)
    ensures Tally([o]) == ZERO.Add(o)
  {
    assert [o][..0] == [];
  }
}
