/** What the two windows remember, stated on plain logs of outcomes. */
module WindowSpec {
  import opened Outcomes

  // ---- Time window -------------------------------------------------------------------------

  datatype Stamped = Stamped(second: int, outcome: WindowOutcome)

  /** A window of `capacity` seconds ending at the logical second `clock`. */
  datatype TimeLog = TimeLog(capacity: nat, clock: int, log: seq<Stamped>) {
    /** Nothing is stamped after the logical clock. */
    predicate Valid() {
      capacity > 0 && forall k :: 0 <= k < |log| ==> log[k].second <= clock
    }

    function Slide(now: int): TimeLog {
      this.(clock := Advance(clock, now))
    }

    function Update(outcome: WindowOutcome, now: int): TimeLog {
      var t := Slide(now);
      t.(log := t.log + [Stamped(t.clock, outcome)])
    }

    /** The outcomes stamped in the last `capacity` logical seconds. */
    function Total(): (c: Counter)
      ensures c.Consistent() && c.total <= |log|
    {
      SpanIsConsistent(log, clock - capacity, clock);
      InSpan(log, clock - capacity, clock)
    }
  }

  function NewTimeLog(capacity: nat, now: int): TimeLog {
    TimeLog(capacity, now, [])
  }

  /** The second the ring moves to when it is slid at `now`: a clock that lags behind still moves
      the ring forward, by one second. */
  function Advance(clock: int, now: int): int {
    if now >= clock then now else clock + 1
  }

  /** The outcomes stamped in (low, high]. */
  function InSpan(log: seq<Stamped>, low: int, high: int): Counter {
    if log == [] then ZERO
    else
      var rest := InSpan(log[..|log| - 1], low, high);
      var last := log[|log| - 1];
      if low < last.second <= high then rest.Add(last.outcome) else rest
  }

  lemma {:induction false} SpanIsConsistent(log: seq<Stamped>, low: int, high: int)
    ensures InSpan(log, low, high).Consistent() && InSpan(log, low, high).total <= |log|
  {
    if log != [] {
      SpanIsConsistent(log[..|log| - 1], low, high);
    }
  }

  /** A stamp in the span; if asked for, that of an error, or of a timeout. */
  predicate Hits(s: Stamped, low: int, high: int, errors: bool, timeouts: bool) {
    && low < s.second <= high
    && (errors ==> s.outcome == Error || s.outcome == TimeoutError)
    && (timeouts ==> s.outcome == TimeoutSuccess || s.outcome == TimeoutError)
  }

  ghost function Positions(log: seq<Stamped>, low: int, high: int, errors: bool, timeouts: bool): set<int> {
    set i | 0 <= i < |log| && Hits(log[i], low, high, errors, timeouts)
  }

  /** A span counts the outcomes stamped in it, and among them the errors and the timeouts. */
  lemma {:induction false} SpanCounts(log: seq<Stamped>, low: int, high: int)
    ensures InSpan(log, low, high).total == |Positions(log, low, high, false, false)|
    ensures InSpan(log, low, high).error == |Positions(log, low, high, true, false)|
    ensures InSpan(log, low, high).timeout == |Positions(log, low, high, false, true)|
  {
    hide Positions, InSpan, Hits, Counter.Add;
    if log == [] {
      EmptySpan(log, low, high);
      NoPositions(low, high, false, false);
      NoPositions(low, high, true, false);
      NoPositions(low, high, false, true);
    } else {
      var before, last := log[..|log| - 1], log[|log| - 1];
      SpanCounts(before, low, high);
      assert log == before + [last];
      SpanSnoc(before, last, low, high);
      HitsInNumbers(InSpan(before, low, high), last, low, high);
      PositionsSnoc(before, last, low, high, false, false);
      PositionsSnoc(before, last, low, high, true, false);
      PositionsSnoc(before, last, low, high, false, true);
    }
  }

  lemma HitsInNumbers(c: Counter, s: Stamped, low: int, high: int)
    ensures var c' := if low < s.second <= high then c.Add(s.outcome) else c;
            && c'.total == c.total + (if Hits(s, low, high, false, false) then 1 else 0)
            && c'.error == c.error + (if Hits(s, low, high, true, false) then 1 else 0)
            && c'.timeout == c.timeout + (if Hits(s, low, high, false, true) then 1 else 0)
  {
  }

  lemma NoPositions(low: int, high: int, errors: bool, timeouts: bool)
    ensures |Positions([], low, high, errors, timeouts)| == 0
  {
    assert Positions([], low, high, errors, timeouts) == {};
  }

  lemma PositionsSnoc(log: seq<Stamped>, s: Stamped, low: int, high: int, errors: bool, timeouts: bool)
    ensures |Positions(log + [s], low, high, errors, timeouts)| ==
            |Positions(log, low, high, errors, timeouts)| + if Hits(s, low, high, errors, timeouts) then 1 else 0
  {
    hide Hits;
    var all, before := Positions(log + [s], low, high, errors, timeouts), Positions(log, low, high, errors, timeouts);
    forall i
      ensures i in all <==> i in before || (i == |log| && Hits(s, low, high, errors, timeouts))
    {
      if 0 <= i < |log| {
        assert (log + [s])[i] == log[i];
      }
    }
    assert |log| !in before;
    assert all == before + if Hits(s, low, high, errors, timeouts) then {|log|} else {};
  }

  function InSecond(log: seq<Stamped>, second: int): Counter {
    InSpan(log, second - 1, second)
  }

  lemma {:induction false} SpanSplits(log: seq<Stamped>, low: int, middle: int, high: int)
    requires low <= middle <= high
    ensures InSpan(log, low, high) == InSpan(log, low, middle).Plus(InSpan(log, middle, high))
  {
    hide One;
    if log != [] {
      SpanSplits(log[..|log| - 1], low, middle, high);
    }
  }

  lemma {:induction false} EmptySpan(log: seq<Stamped>, low: int, high: int)
    requires forall k :: 0 <= k < |log| ==> !(low < log[k].second <= high)
    ensures InSpan(log, low, high) == ZERO
  {
    if log != [] {
      EmptySpan(log[..|log| - 1], low, high);
    }
  }

  /** Sliding keeps validity and drops exactly the seconds that leave the window. */
  lemma SlideDrops(t: TimeLog, now: int)
    requires t.Valid()
    ensures t.Slide(now).Valid()
    ensures t.Total() == InSpan(t.log, t.clock - t.capacity, t.Slide(now).clock - t.capacity).Plus(t.Slide(now).Total())
  {
    hide InSpan, Counter.Plus;
    SpanMoves(t, Advance(t.clock, now));
  }

  lemma SpanMoves(t: TimeLog, clock: int)
    requires t.Valid() && clock >= t.clock
    ensures InSpan(t.log, t.clock - t.capacity, t.clock) ==
            InSpan(t.log, t.clock - t.capacity, clock - t.capacity).Plus(InSpan(t.log, clock - t.capacity, clock))
  {
    hide InSpan;
    SpanSplits(t.log, t.clock - t.capacity, t.clock, clock);
    EmptySpan(t.log, t.clock, clock);
    SpanSplits(t.log, t.clock - t.capacity, clock - t.capacity, clock);
  }

  /** An update adds its outcome to the window it has slid to. */
  lemma UpdateAdds(t: TimeLog, outcome: WindowOutcome, now: int)
    requires t.Valid()
    ensures t.Update(outcome, now).Valid()
    ensures t.Update(outcome, now).Total() == t.Slide(now).Total().Add(outcome)
  {
    var u := t.Update(outcome, now);
    assert u.log[..|u.log| - 1] == t.log;
    assert InSpan(u.log, u.clock - u.capacity, u.clock) ==
           InSpan(t.log, u.clock - u.capacity, u.clock).Add(outcome);
  }

  /** The sum of the outcomes of `n` consecutive seconds, the last being `last`. */
  function SumOfSeconds(log: seq<Stamped>, last: int, n: nat): Counter
    decreases n
  {
    if n == 0 then ZERO else SumOfSeconds(log, last - 1, n - 1).Plus(InSecond(log, last))
  }

  lemma {:induction false} SecondsAddUp(log: seq<Stamped>, last: int, n: nat)
    ensures SumOfSeconds(log, last, n) == InSpan(log, last - n, last)
    decreases n
  {
    hide InSpan;
    if n == 0 {
      EmptySpan(log, last, last);
    } else {
      SecondsAddUp(log, last - 1, n - 1);
      SpanSplits(log, last - n, last - 1, last);
    }
  }

  // ---- Time window over whole runs ---------------------------------------------------------

  /** One call on the window: getSnapshot, or update with an outcome. */
  datatype WindowCall = WindowCall(now: int, outcome: Option<WindowOutcome>)

  function ApplyCall(t: TimeLog, c: WindowCall): TimeLog {
    match c.outcome
    case None => t.Slide(c.now)
    case Some(o) => t.Update(o, c.now)
  }

  function Replay(t: TimeLog, calls: seq<WindowCall>): TimeLog {
    if calls == [] then t else ApplyCall(Replay(t, calls[..|calls| - 1]), calls[|calls| - 1])
  }

  /** The outcomes as the caller saw them, each with the second the clock showed. */
  function TrueLog(calls: seq<WindowCall>): seq<Stamped> {
    if calls == [] then []
    else
      var rest, last := TrueLog(calls[..|calls| - 1]), calls[|calls| - 1];
      match last.outcome
      case None => rest
      case Some(o) => rest + [Stamped(last.now, o)]
  }

  /** No call shows an earlier second than the construction or any call before it. */
  predicate Monotone(born: int, calls: seq<WindowCall>) {
    calls == [] || (Monotone(born, calls[..|calls| - 1])
      && Latest(born, calls[..|calls| - 1]) <= calls[|calls| - 1].now)
  }

  /** The second shown by the last call, or at construction. */
  function Latest(born: int, calls: seq<WindowCall>): int {
    if calls == [] then born else calls[|calls| - 1].now
  }

  lemma {:induction false} ReplayIsValid(capacity: nat, born: int, calls: seq<WindowCall>)
    requires capacity > 0
    ensures Replay(NewTimeLog(capacity, born), calls).Valid()
    ensures Replay(NewTimeLog(capacity, born), calls).capacity == capacity
    ensures Replay(NewTimeLog(capacity, born), calls).clock >= Latest(born, calls)
  {
    if calls != [] {
      ReplayIsValid(capacity, born, calls[..|calls| - 1]);
    }
  }

  /** The documented behaviour, "the calls of the last SlidingWindowSize seconds": on a clock that
      never goes back, the window holds exactly the outcomes of the last `capacity` true seconds. */
  lemma {:induction false} MonotoneClockIsExact(capacity: nat, born: int, calls: seq<WindowCall>)
    requires capacity > 0 && Monotone(born, calls)
    ensures var t := Replay(NewTimeLog(capacity, born), calls);
            && t.clock == Latest(born, calls)
            && t.log == TrueLog(calls)
            && t.Total() == InSpan(TrueLog(calls), Latest(born, calls) - capacity, Latest(born, calls))
  {
    hide InSpan;
    if calls != [] {
      MonotoneClockIsExact(capacity, born, calls[..|calls| - 1]);
      ReplayIsValid(capacity, born, calls);
    }
  }

  /** The logical clock always equals the true one exactly when the clock never goes back. */
  lemma {:induction false} ClockExactIffMonotone(capacity: nat, born: int, calls: seq<WindowCall>)
    requires capacity > 0
    ensures Monotone(born, calls) <==>
            forall n :: 0 <= n <= |calls| ==>
              Replay(NewTimeLog(capacity, born), calls[..n]).clock == Latest(born, calls[..n])
  {
    var t := NewTimeLog(capacity, born);
    hide InSpan;
    assert calls[..|calls|] == calls;
    if calls != [] {
      var before := calls[..|calls| - 1];
      ClockExactIffMonotone(capacity, born, before);
      assert forall n :: 0 <= n <= |before| ==> before[..n] == calls[..n];
      if Monotone(born, calls) {
        MonotoneClockIsExact(capacity, born, calls);
        assert forall n :: 0 <= n < |calls| ==> before[..n] == calls[..n];
      } else if Monotone(born, before) {
        MonotoneClockIsExact(capacity, born, before);
        assert Replay(t, calls[..|calls|]).clock != Latest(born, calls[..|calls|]);
      } else {
        var n :| 0 <= n <= |before| && Replay(t, before[..n]).clock != Latest(born, before[..n]);
        assert before[..n] == calls[..n];
      }
    }
  }

  /** Every call shows a second before the logical clock it meets. */
  predicate Lagging(t: TimeLog, calls: seq<WindowCall>) {
    calls == [] || (Lagging(t, calls[..|calls| - 1]) && calls[|calls| - 1].now < Replay(t, calls[..|calls| - 1]).clock)
  }

  /** Once the ring is ahead of the clock it moves one second per call, whatever the clock shows:
      it stays ahead for as long as there is a call a second, ... */
  lemma {:induction false} LaggingClockRunsAway(t: TimeLog, calls: seq<WindowCall>)
    requires t.Valid()
    requires forall k :: 0 <= k < |calls| ==> calls[k].now < t.clock + k
    ensures Lagging(t, calls) && Replay(t, calls).clock == t.clock + |calls|
  {
    if calls != [] {
      LaggingClockRunsAway(t, calls[..|calls| - 1]);
    }
  }

  /** The outcomes of a log without their seconds. */
  function Unstamped(log: seq<Stamped>): (outcomes: seq<WindowOutcome>)
    ensures |outcomes| == |log|
  {
    if log == [] then [] else Unstamped(log[..|log| - 1]) + [log[|log| - 1].outcome]
  }

  /** The outcomes that the calls record. */
  function Given(calls: seq<WindowCall>): seq<WindowOutcome> {
    Unstamped(TrueLog(calls))
  }

  /** The last `capacity` calls. */
  function LastCalls(capacity: nat, calls: seq<WindowCall>): seq<WindowCall> {
    if |calls| <= capacity then calls else calls[|calls| - capacity..]
  }

  /** ... and then counts calls instead of seconds: a time window whose clock lags at every call, update
      or not, holds what was recorded in the last `capacity` calls, however much time passes between
      them. */
  lemma {:induction false} LaggingWindowCountsCalls(capacity: nat, born: int, calls: seq<WindowCall>)
    requires capacity > 0 && Lagging(NewTimeLog(capacity, born), calls)
    ensures Replay(NewTimeLog(capacity, born), calls).Total() == Tally(Given(LastCalls(capacity, calls)))
  {
    hide Replay, Lagging, Given, InSpan, Tally;
    var n, k: nat := |calls|, if |calls| <= capacity then 0 else |calls| - capacity;
    LaggingClock(capacity, born, calls);
    LaggingSpan(capacity, born, calls, k, born + n - capacity, born + n);
    assert LastCalls(capacity, calls) == calls[k..];
  }

  lemma {:induction false} LaggingClock(capacity: nat, born: int, calls: seq<WindowCall>)
    requires Lagging(NewTimeLog(capacity, born), calls)
    ensures Replay(NewTimeLog(capacity, born), calls).clock == born + |calls|
    ensures Replay(NewTimeLog(capacity, born), calls).capacity == capacity
  {
    if calls != [] {
      LaggingClock(capacity, born, calls[..|calls| - 1]);
    }
  }

  /** Each call moves the ring to the next second, so a span that begins with the second of call k
      holds what that call and the later ones recorded. */
  lemma {:induction false} LaggingSpan(capacity: nat, born: int, calls: seq<WindowCall>, k: nat, low: int, high: int)
    requires capacity > 0 && Lagging(NewTimeLog(capacity, born), calls)
    requires k <= |calls| && low <= born + k && (k > 0 ==> low == born + k) && born + |calls| <= high
    ensures InSpan(Replay(NewTimeLog(capacity, born), calls).log, low, high) == Tally(Given(calls[k..]))
  {
    hide Replay, TrueLog, Lagging, Given, Unstamped, Counter.Add, InSpan, Tally;
    var t := Replay(NewTimeLog(capacity, born), calls);
    if k == |calls| {
      ReplayIsValid(capacity, born, calls);
      LaggingClock(capacity, born, calls);
      if calls == [] {
        NothingRecorded(capacity, born, calls);
      }
      assert calls[k..] == [];
      EmptySpan(t.log, low, high);
      EmptyTally();
    } else {
      var before, last := calls[..|calls| - 1], calls[|calls| - 1];
      LastCall(NewTimeLog(capacity, born), calls);
      LaggingSpan(capacity, born, before, k, low, high);
      LaggingClock(capacity, born, calls);
      GivenSnoc(before[k..], last);
      assert calls[k..] == before[k..] + [last];
      var log := Replay(NewTimeLog(capacity, born), before).log;
      if last.outcome.Some? {
        SpanSnoc(log, Stamped(t.clock, last.outcome.value), low, high);
      } else {
        assert log + [] == log;
      }
    }
  }

  /** What the last call adds to the two logs. */
  lemma LastCall(t: TimeLog, calls: seq<WindowCall>)
    requires calls != []
    ensures var (before, last) := (calls[..|calls| - 1], calls[|calls| - 1]);
            && (Lagging(t, calls) ==> Lagging(t, before))
            && Replay(t, calls).log == Replay(t, before).log +
                 (if last.outcome.Some? then [Stamped(Replay(t, calls).clock, last.outcome.value)] else [])
            && TrueLog(calls) == TrueLog(before) +
                 (if last.outcome.Some? then [Stamped(last.now, last.outcome.value)] else [])
  {
  }

  lemma EmptyTally()
    ensures Tally(Given([])) == ZERO
  {
  }

  lemma GivenSnoc(calls: seq<WindowCall>, last: WindowCall)
    ensures Tally(Given(calls + [last])) ==
            if last.outcome.Some? then Tally(Given(calls)).Add(last.outcome.value) else Tally(Given(calls))
  {
    hide Counter.Add;
    var all := calls + [last];
    assert all[..|all| - 1] == calls;
    if last.outcome.Some? {
      var log := TrueLog(all);
      assert log[..|log| - 1] == TrueLog(calls);
      assert Unstamped(log)[..|log| - 1] == Unstamped(TrueLog(calls));
    }
  }

  // ---- Which clocks the window is exact on -------------------------------------------------

  /** The logical clock after the given readings. */
  function LogicalClock(born: int, readings: seq<int>): int {
    if readings == [] then born
    else Advance(LogicalClock(born, readings[..|readings| - 1]), readings[|readings| - 1])
  }

  function Readings(calls: seq<WindowCall>): seq<int> {
    seq(|calls|, i requires 0 <= i < |calls| => calls[i].now)
  }

  /** After every call the window holds the outcomes of the last `capacity` seconds on the clock. */
  ghost predicate ContentsExact(capacity: nat, born: int, calls: seq<WindowCall>) {
    forall n :: 0 <= n <= |calls| ==>
      Replay(NewTimeLog(capacity, born), calls[..n]).Total() ==
      InSpan(TrueLog(calls[..n]), Latest(born, calls[..n]) - capacity, Latest(born, calls[..n]))
  }

  /** At reading k, what was recorded at reading i is in the ring if and only if it lies within the
      last `capacity` seconds on the clock. */
  predicate SeenAlike(capacity: nat, born: int, readings: seq<int>, i: nat, k: nat)
    requires i <= k < |readings|
  {
    (LogicalClock(born, readings[..k + 1]) - LogicalClock(born, readings[..i + 1]) < capacity)
    <==> (readings[k] - capacity < readings[i] <= readings[k])
  }

  predicate AllSeenAlike(capacity: nat, born: int, readings: seq<int>) {
    forall i, k :: 0 <= i <= k < |readings| ==> SeenAlike(capacity, born, readings, i, k)
  }

  /** The documented behaviour in full: the readings of the clock determine whether the window is
      exact. It is, after every call and whatever the outcomes, if and only if the ring and the clock
      agree for every pair of readings on whether the earlier one is still in the window. */
  lemma {:induction false} ContentsExactIff(capacity: nat, born: int, readings: seq<int>)
    requires capacity > 0
    ensures (forall calls :: Readings(calls) == readings ==> ContentsExact(capacity, born, calls))
       <==> AllSeenAlike(capacity, born, readings)
  {
    hide ContentsExact, SeenAlike;
    if AllSeenAlike(capacity, born, readings) {
      forall calls | Readings(calls) == readings
        ensures ContentsExact(capacity, born, calls)
      {
        AlikeIsExact(capacity, born, calls);
      }
    } else {
      var i, k :| 0 <= i <= k < |readings| && !SeenAlike(capacity, born, readings, i, k);
      DifferenceShows(capacity, born, readings, i, k);
      assert Readings(OnlyOutcome(readings, i)) == readings;
    }
  }

  lemma {:induction false} AlikeIsExact(capacity: nat, born: int, calls: seq<WindowCall>)
    requires capacity > 0 && AllSeenAlike(capacity, born, Readings(calls))
    ensures ContentsExact(capacity, born, calls)
  {
    hide InSpan, Replay, TrueLog, LogicalClock;
    var readings := Readings(calls);
    forall n | 0 <= n <= |calls|
      ensures Replay(NewTimeLog(capacity, born), calls[..n]).Total() ==
              InSpan(TrueLog(calls[..n]), Latest(born, calls[..n]) - capacity, Latest(born, calls[..n]))
    {
      var t, now := Replay(NewTimeLog(capacity, born), calls[..n]), Latest(born, calls[..n]);
      ClockFollows(capacity, born, calls[..n]);
      if n == 0 {
        NothingRecorded(capacity, born, calls[..n]);
      } else {
        forall i | 0 <= i < n
          ensures t.clock - capacity < LogicalClock(born, Readings(calls[..n])[..i + 1]) <= t.clock
             <==> now - capacity < calls[..n][i].now <= now
        {
          assert SeenAlike(capacity, born, readings, i, n - 1);
          assert Readings(calls[..n]) == readings[..n] && readings[..n][..i + 1] == readings[..i + 1];
          ClockGrows(born, readings[..n], i + 1);
        }
        assert SpansAgree(born, Readings(calls[..n]), t.clock - capacity, t.clock, now - capacity, now);
        SameSpan(capacity, born, calls[..n], t.clock - capacity, t.clock, now - capacity, now);
      }
    }
  }

  lemma NothingRecorded(capacity: nat, born: int, calls: seq<WindowCall>)
    requires calls == []
    ensures Replay(NewTimeLog(capacity, born), calls).log == TrueLog(calls) == []
    ensures forall low, high :: InSpan([], low, high) == ZERO
  {
  }

  lemma {:induction false} ClockFollows(capacity: nat, born: int, calls: seq<WindowCall>)
    ensures Replay(NewTimeLog(capacity, born), calls).clock == LogicalClock(born, Readings(calls))
    ensures Replay(NewTimeLog(capacity, born), calls).capacity == capacity
  {
    if calls != [] {
      var before := calls[..|calls| - 1];
      ClockFollows(capacity, born, before);
      assert Readings(calls)[..|calls| - 1] == Readings(before);
    }
  }

  lemma {:induction false} ClockGrows(born: int, readings: seq<int>, n: nat)
    requires n <= |readings|
    ensures LogicalClock(born, readings[..n]) <= LogicalClock(born, readings)
  {
    if n == |readings| {
      assert readings[..n] == readings;
    } else {
      var before := readings[..|readings| - 1];
      ClockGrows(born, before, n);
      assert before[..n] == readings[..n];
    }
  }

  /** Reading i falls into the first span on the logical clock if and only if it falls into the second
      on the true one. */
  ghost predicate SpansAgree(born: int, readings: seq<int>, low: int, high: int, low': int, high': int) {
    forall i :: 0 <= i < |readings| ==>
      (low < LogicalClock(born, readings[..i + 1]) <= high <==> low' < readings[i] <= high')
  }

  lemma SpansAgreeBefore(born: int, readings: seq<int>, low: int, high: int, low': int, high': int)
    requires readings != [] && SpansAgree(born, readings, low, high, low', high')
    ensures SpansAgree(born, readings[..|readings| - 1], low, high, low', high')
    ensures low < LogicalClock(born, readings) <= high <==> low' < readings[|readings| - 1] <= high'
  {
    hide LogicalClock;
    var before := readings[..|readings| - 1];
    forall i | 0 <= i < |before|
      ensures low < LogicalClock(born, before[..i + 1]) <= high <==> low' < before[i] <= high'
    {
      assert before[..i + 1] == readings[..i + 1];
    }
    assert readings[..|readings| - 1 + 1] == readings;
  }

  /** Two spans that agree reading by reading count the same. */
  lemma {:induction false} SameSpan(capacity: nat, born: int, calls: seq<WindowCall>, low: int, high: int, low': int,
                                    high': int)
    requires SpansAgree(born, Readings(calls), low, high, low', high')
    ensures InSpan(Replay(NewTimeLog(capacity, born), calls).log, low, high) == InSpan(TrueLog(calls), low', high')
  {
    hide LogicalClock, SpansAgree, Counter.Add, InSpan;
    if calls == [] {
      EmptySpan([], low, high);
      EmptySpan([], low', high');
    } else {
      var before, last := calls[..|calls| - 1], calls[|calls| - 1];
      SpansAgreeBefore(born, Readings(calls), low, high, low', high');
      assert Readings(calls)[..|calls| - 1] == Readings(before);
      SameSpan(capacity, born, before, low, high, low', high');
      ClockFollows(capacity, born, calls);
      if last.outcome.Some? {
        SpanSnoc(Replay(NewTimeLog(capacity, born), before).log,
                 Stamped(LogicalClock(born, Readings(calls)), last.outcome.value), low, high);
        SpanSnoc(TrueLog(before), Stamped(last.now, last.outcome.value), low', high');
      }
    }
  }

  lemma SpanSnoc(log: seq<Stamped>, s: Stamped, low: int, high: int)
    ensures InSpan(log + [s], low, high) ==
            if low < s.second <= high then InSpan(log, low, high).Add(s.outcome) else InSpan(log, low, high)
  {
    assert (log + [s])[..|log|] == log;
  }

  /** The calls with these readings of which only call i records anything. */
  function OnlyOutcome(readings: seq<int>, i: nat): seq<WindowCall> {
    seq(|readings|, j requires 0 <= j < |readings| => WindowCall(readings[j], if j == i then Some(Error) else None))
  }

  lemma {:induction false} OnlyOutcomeLogs(capacity: nat, born: int, readings: seq<int>, i: nat)
    ensures var t := Replay(NewTimeLog(capacity, born), OnlyOutcome(readings, i));
            && t.log == (if i < |readings| then [Stamped(LogicalClock(born, readings[..i + 1]), Error)] else [])
            && TrueLog(OnlyOutcome(readings, i)) == (if i < |readings| then [Stamped(readings[i], Error)] else [])
  {
    var calls := OnlyOutcome(readings, i);
    if readings == [] {
      NothingRecorded(capacity, born, calls);
    } else {
      hide Replay, TrueLog, LogicalClock;
      var n := |readings| - 1;
      OnlyOutcomeLogs(capacity, born, readings[..n], i);
      assert calls[..n] == OnlyOutcome(readings[..n], i);
      LastCall(NewTimeLog(capacity, born), calls);
      ClockFollows(capacity, born, calls);
      assert Readings(calls) == readings;
      if i < n {
        assert readings[..n][..i + 1] == readings[..i + 1];
      } else if i == n {
        assert readings[..i + 1] == readings;
      }
    }
  }

  lemma OneStamp(s: Stamped, low: int, high: int)
    ensures InSpan([s], low, high).total == if low < s.second <= high then 1 else 0
  {
    assert [s][..0] == [];
  }

  /** A pair of readings on which ring and clock differ shows in the total. */
  lemma {:induction false} DifferenceShows(capacity: nat, born: int, readings: seq<int>, i: nat, k: nat)
    requires capacity > 0 && i <= k < |readings| && !SeenAlike(capacity, born, readings, i, k)
    ensures !ContentsExact(capacity, born, OnlyOutcome(readings, i))
  {
    hide InSpan, Replay, TrueLog, LogicalClock;
    var calls, upTo := OnlyOutcome(readings, i), readings[..k + 1];
    assert calls[..k + 1] == OnlyOutcome(upTo, i) && upTo[..i + 1] == readings[..i + 1];
    var t, now := Replay(NewTimeLog(capacity, born), calls[..k + 1]), Latest(born, calls[..k + 1]);
    OnlyOutcomeLogs(capacity, born, upTo, i);
    ClockFollows(capacity, born, calls[..k + 1]);
    assert Readings(calls[..k + 1]) == upTo;
    ClockGrows(born, upTo, i + 1);
    OneStamp(t.log[0], t.clock - capacity, t.clock);
    OneStamp(TrueLog(calls[..k + 1])[0], now - capacity, now);
    assert t.Total() != InSpan(TrueLog(calls[..k + 1]), now - capacity, now);
  }

  // ---- Count window ------------------------------------------------------------------------

  datatype CountLog = CountLog(capacity: nat, log: seq<WindowOutcome>) {
    function Update(outcome: WindowOutcome): CountLog {
      this.(log := log + [outcome])
    }

    /** The last `capacity` outcomes. */
    function Window(): seq<WindowOutcome> {
      if |log| <= capacity then log else log[|log| - capacity..]
    }

    function Total(): (c: Counter)
      ensures c.Consistent()
    {
      TallyIsConsistent(Window());
      Tally(Window())
    }
  }
}
