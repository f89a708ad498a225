/** The time-based sliding window of window.go: a ring of one-second buckets. */
module TimeWindow {
  import Binary64
  import opened Outcomes
  import opened WindowSpec

  datatype Bucket = Bucket(startTime: int, counts: Counter)

  /** How many steps back from the end the slot lies in a ring. */
  function Age(slot: int, end: int, capacity: int): int {
    if slot <= end then end - slot else end - slot + capacity
  }

  /** Moving the end one step makes every slot one step older and the new end the youngest. */
  lemma AgeStep(end: int, capacity: int)
    requires 0 <= end < capacity
    ensures var next := (end + 1) % capacity;
            && next == (if end + 1 == capacity then 0 else end + 1)
            && Age(next, end, capacity) == capacity - 1
            && forall i :: 0 <= i < capacity && i != next ==> Age(i, next, capacity) == Age(i, end, capacity) + 1
  {
    if end + 1 == capacity {
      assert (end + 1) % capacity == 0;
    } else {
      assert (end + 1) % capacity == end + 1;
    }
  }

  lemma SmallModulus(i: nat, n: nat)
    requires i < n
    ensures i % n == i
  {
  }

  lemma NextModulus(x: nat, n: nat)
    requires n > 0
    ensures (x % n + 1) % n == (x + 1) % n
  {
    var q, r := x / n, x % n;
    assert x == q * n + r;
    if r + 1 == n {
      assert x + 1 == (q + 1) * n + 0;
      Binary64.UniqueDivision(x + 1, n, q + 1, 0);
      Binary64.UniqueDivision(n, n, 1, 0);
    } else {
      Binary64.UniqueDivision(x + 1, n, q, r + 1);
      SmallModulus(r + 1, n);
    }
  }

  /** The number of slots a slide visits: one when the clock lags behind the ring. */
  function SlotsToVisit(clock: int, now: int, capacity: nat): nat {
    if now < clock then 1
    else if now - clock < capacity then now - clock else capacity
  }

  class TimeWindowMetric {
    const buckets: array<Bucket>
    var endIndex: int
    var total: Counter

    ghost var clock: int           // the second of the bucket at endIndex
    ghost var log: seq<Stamped>    // every outcome recorded so far

    ghost function Footprint(): set<object> {
      {this, buckets}
    }

    ghost function Abs(): TimeLog
      reads this
    {
      TimeLog(buckets.Length, clock, log)
    }

    /** Read backwards from endIndex the buckets are consecutive seconds, each holding exactly the
        outcomes of its second. */
    ghost predicate Ring()
      reads this, buckets
    {
      forall i :: 0 <= i < buckets.Length ==>
        && buckets[i].startTime == clock - Age(i, endIndex, buckets.Length)
        && buckets[i].counts == InSecond(log, buckets[i].startTime)
    }

    ghost predicate Valid()
      reads this, buckets
    {
      && 0 <= endIndex < buckets.Length
      && Abs().Valid()
      && Ring()
      && total == Abs().Total()
    }

    constructor (windowSize: nat, now: int)
      requires windowSize > 0
      ensures Valid() && fresh(Footprint())
      ensures Abs() == NewTimeLog(windowSize, now)
    {
      buckets := new Bucket[windowSize];
      total := ZERO;
      clock := now;
      log := [];
      endIndex := windowSize - 1;
      new;
      hide InSpan;
      var startTime := now;
      var i := windowSize - 1;
      while i >= 0
        modifies buckets
        invariant -1 <= i < windowSize && startTime == now - (windowSize - 1 - i)
        invariant forall k :: i < k < windowSize ==> buckets[k] == Bucket(now - Age(k, endIndex, windowSize), ZERO)
      {
        SmallModulus(i, windowSize);
        buckets[i % windowSize] := Bucket(startTime, ZERO);
        startTime := startTime - 1;
        i := i - 1;
      }
      EmptyLog();
    }

    /** A slot `age` steps back from the end, `steps` iterations into a slide: the youngest slots
        have been reset, the others are as they were. */
    ghost predicate SlidingSlot(b: Bucket, age: int, start: int, oldClock: int, steps: int)
      reads this
    {
      if age < steps then b == Bucket(start + steps - age, ZERO)
      else b.startTime == oldClock - (age - steps) && b.counts == InSecond(log, b.startTime)
    }

    /** The ring `steps` iterations into a slide that started at `oldClock`; `total` counts the
        seconds that are still there. */
    ghost predicate Sliding(start: int, oldClock: int, steps: int)
      reads this, buckets
    {
      && 0 <= endIndex < buckets.Length && 0 <= steps <= buckets.Length
      && total == InSpan(log, oldClock - buckets.Length + steps, oldClock)
      && forall i :: 0 <= i < buckets.Length ==>
           SlidingSlot(buckets[i], Age(i, endIndex, buckets.Length), start, oldClock, steps)
    }

    /** One iteration: the slot after the end is emptied and becomes the end. */
    method SlideOneStep(startTime: int, ghost start: int, ghost oldClock: int, ghost steps: int)
      requires Sliding(start, oldClock, steps) && steps < buckets.Length
      requires startTime == start + steps + 1
      modifies this`endIndex, this`total, buckets
      ensures Sliding(start, oldClock, steps + 1)
      ensures endIndex == (old(endIndex) + 1) % buckets.Length
    {
      hide InSpan, Counter.Plus, Counter.Subtract;
      ghost var last, low := endIndex, oldClock - buckets.Length + steps;
      PlusLaws(InSecond(log, low + 1), InSpan(log, low + 1, oldClock), Success);
      AgeStep(endIndex, buckets.Length);
      SpanSplits(log, low, low + 1, oldClock);
      endIndex := (endIndex + 1) % buckets.Length;
      assert SlidingSlot(buckets[endIndex], Age(endIndex, last, buckets.Length), start, oldClock, steps);
      total := total.Subtract(buckets[endIndex].counts);
      buckets[endIndex] := Bucket(startTime, ZERO);
      forall i | 0 <= i < buckets.Length
        ensures SlidingSlot(buckets[i], Age(i, endIndex, buckets.Length), start, oldClock, steps + 1)
      {
        assert i != endIndex ==> SlidingSlot(buckets[i], Age(i, last, buckets.Length), start, oldClock, steps);
      }
    }

    /** Slides the ring to the given second. `steps` slots are visited, one after the other, and since
        there are at most as many steps as slots, none is visited twice. */
    method MoveWindowToCurrentSecond(now: int) returns (current: int, ghost steps: nat)
      requires Valid()
      modifies this, buckets
      ensures Valid() && Abs() == old(Abs()).Slide(now)
      ensures current == endIndex
      ensures steps == SlotsToVisit(old(clock), now, buckets.Length) <= buckets.Length
      ensures endIndex == (old(endIndex) + steps) % buckets.Length
    {
      hide InSpan, Counter.Plus;
      ghost var oldClock := clock;
      var differenceInSeconds := now - buckets[endIndex].startTime;
      assert differenceInSeconds == now - clock;
      steps := 0;
      SmallModulus(endIndex, buckets.Length);
      if differenceInSeconds == 0 {
        return endIndex, 0;
      }
      var secondsToMoveWindow := if differenceInSeconds < buckets.Length then differenceInSeconds else buckets.Length;
      ghost var planned := secondsToMoveWindow;
      ghost var start := if differenceInSeconds < 0 then clock else now - secondsToMoveWindow;
      while true
        invariant endIndex == (old(endIndex) + steps) % buckets.Length
        invariant Sliding(start, oldClock, steps)
        invariant clock == oldClock == old(clock) && log == old(log)
        invariant steps > 0 ==> secondsToMoveWindow > 0
        invariant differenceInSeconds > 0 ==> start == now - secondsToMoveWindow - steps >= clock
        invariant differenceInSeconds > 0 ==> secondsToMoveWindow > 0
        invariant differenceInSeconds > 0 ==> secondsToMoveWindow + steps == planned
        invariant differenceInSeconds < 0 ==> steps == 0 && start == clock && secondsToMoveWindow == differenceInSeconds
        decreases secondsToMoveWindow
      {
        secondsToMoveWindow := secondsToMoveWindow - 1;
        NextModulus(old(endIndex) + steps, buckets.Length);
        SlideOneStep(now - secondsToMoveWindow, start, oldClock, steps);
        steps := steps + 1;
        if secondsToMoveWindow <= 0 {
          break;
        }
      }
      clock := WindowSpec.Advance(oldClock, now);
      Settle(start, oldClock, steps);
      current := endIndex;
    }

    /** The end of a slide: the reset seconds are younger than every recorded outcome. */
    lemma Settle(start: int, oldClock: int, steps: int)
      requires Sliding(start, oldClock, steps) && TimeLog(buckets.Length, oldClock, log).Valid()
      requires clock == start + steps && (start == oldClock || (start > oldClock && steps == buckets.Length))
      ensures Valid()
    {
      hide InSpan, Counter.Plus;
      forall i | 0 <= i < buckets.Length
        ensures buckets[i].startTime == clock - Age(i, endIndex, buckets.Length)
        ensures buckets[i].counts == InSecond(log, buckets[i].startTime)
      {
        assert SlidingSlot(buckets[i], Age(i, endIndex, buckets.Length), start, oldClock, steps);
        if Age(i, endIndex, buckets.Length) < steps {
          EmptySpan(log, buckets[i].startTime - 1, buckets[i].startTime);
        }
      }
      if start == oldClock {
        SpanSplits(log, clock - buckets.Length, oldClock, clock);
        EmptySpan(log, oldClock, clock);
        PlusLaws(InSpan(log, clock - buckets.Length, oldClock), ZERO, Success);
      } else {
        EmptySpan(log, clock - buckets.Length, clock);
        EmptySpan(log, oldClock, oldClock);
      }
    }

    method Update(outcome: WindowOutcome, now: int) returns (snapshot: Snapshot)
      requires Valid()
      modifies this, buckets
      ensures Valid() && Abs() == old(Abs()).Update(outcome, now)
      ensures snapshot == NewSnapshot(Abs().Total())
    {
      hide InSpan, NewSnapshot, Counter.Add;
      var current, _ := MoveWindowToCurrentSecond(now);
      UpdateAdds(old(Abs()), outcome, now);
      AppendToLog(log, Stamped(clock, outcome));
      buckets[current] := buckets[current].(counts := buckets[current].counts.Add(outcome));
      total := total.Add(outcome);
      log := log + [Stamped(clock, outcome)];
      snapshot := NewSnapshot(total);
    }

    method GetSnapshot(now: int) returns (snapshot: Snapshot)
      requires Valid()
      modifies this, buckets
      ensures Valid() && Abs() == old(Abs()).Slide(now)
      ensures snapshot == NewSnapshot(Abs().Total())
    {
      var _, _ := MoveWindowToCurrentSecond(now);
      snapshot := NewSnapshot(total);
    }

    /** The running total is the sum of the buckets, from the oldest to the youngest. */
    lemma TotalIsBucketSum()
      requires Valid()
      ensures total == SumOfBuckets(buckets.Length)
    {
      SumBySecond(buckets.Length);
      SecondsAddUp(log, clock, buckets.Length);
    }

    /** The slot that lies `age` steps back from the end. */
    function Slot(age: nat): int
      requires age < buckets.Length && 0 <= endIndex < buckets.Length
      reads this
    {
      if age <= endIndex then endIndex - age else endIndex - age + buckets.Length
    }

    /** The sum of the `n` oldest buckets. */
    function SumOfBuckets(n: nat): Counter
      requires n <= buckets.Length && 0 <= endIndex < buckets.Length
      reads this, buckets
    {
      if n == 0 then ZERO else SumOfBuckets(n - 1).Plus(buckets[Slot(buckets.Length - n)].counts)
    }

    lemma {:induction false} SumBySecond(n: nat)
      requires Valid() && n <= buckets.Length
      ensures SumOfBuckets(n) == SumOfSeconds(log, clock - buckets.Length + n, n)
    {
      hide InSpan, Counter.Plus;
      if n > 0 {
        SumBySecond(n - 1);
      }
    }
  }

  lemma EmptyLog()
    ensures forall low, high {:trigger InSpan([], low, high)} :: InSpan([], low, high) == ZERO
  {
  }

  /** A new outcome is counted in its own second and in no other. */
  lemma AppendToLog(log: seq<Stamped>, s: Stamped)
    ensures forall second {:trigger InSecond(log + [s], second)} ::
      InSecond(log + [s], second) == if second == s.second then InSecond(log, second).Add(s.outcome)
        else InSecond(log, second)
  {
    assert (log + [s])[..|log|] == log;
  }
}
