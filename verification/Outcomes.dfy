/** Outcome counters and the snapshot taken from them. */
module Outcomes {
  import Binary64

  datatype Option<+T> = None | Some(value: T)

  datatype WindowOutcome = Success | Error | TimeoutSuccess | TimeoutError

  function OutcomeOf(failed: bool, timedOut: bool): WindowOutcome {
    if failed then (if timedOut then TimeoutError else Error)
    else if timedOut then TimeoutSuccess else Success
  }

  datatype Counter = Counter(total: int, error: int, timeout: int) {
    function Plus(c: Counter): Counter {
      Counter(total + c.total, error + c.error, timeout + c.timeout)
    }

    function Subtract(c: Counter): Counter {
      Counter(total - c.total, error - c.error, timeout - c.timeout)
    }

    function Add(o: WindowOutcome): Counter {
      Plus(One(o))
    }

    predicate Consistent() {
      0 <= error <= total && 0 <= timeout <= total
    }
  }

  const ZERO := Counter(0, 0, 0)

  /** The counter of a single outcome. */
  function One(o: WindowOutcome): Counter {
    match o
    case Success => Counter(1, 0, 0)
    case Error => Counter(1, 1, 0)
    case TimeoutError => Counter(1, 1, 1)
    case TimeoutSuccess => Counter(1, 0, 1)
  }

  /** The counter of a sequence of outcomes. */
  function Tally(s: seq<WindowOutcome>): Counter {
    if s == [] then ZERO else Tally(s[..|s| - 1]).Add(s[|s| - 1])
  }

  lemma {:induction false} TallyIsConsistent(s: seq<WindowOutcome>)
    ensures Tally(s).Consistent() && Tally(s).total == |s|
  {
    if s != [] {
      TallyIsConsistent(s[..|s| - 1]);
    }
  }

  /** A call that ended with an error is an error, one that took too long is a timeout, and neither says
      anything of the other. */
  lemma OutcomeInNumbers(c: Counter, failed: bool, timedOut: bool)
    ensures c.Add(OutcomeOf(failed, timedOut)) ==
            Counter(c.total + 1, c.error + if failed then 1 else 0, c.timeout + if timedOut then 1 else 0)
  {
  }

  lemma PlusLaws(a: Counter, b: Counter, o: WindowOutcome)
    ensures a.Plus(ZERO) == a == ZERO.Plus(a)
    ensures a.Plus(b).Add(o) == a.Plus(b.Add(o))
    ensures a.Plus(b).Subtract(a) == b && a.Plus(b).Subtract(b) == a
  {
    hide One;
  }

  /** The tally of a concatenation is the sum of the tallies. */
  lemma {:induction false} TallyConcat(a: seq<WindowOutcome>, b: seq<WindowOutcome>)
    ensures Tally(a + b) == Tally(a).Plus(Tally(b))
  {
    hide One, Counter.Plus, Counter.Add;
    if b == [] {
      assert a + b == a;
      PlusLaws(Tally(a), ZERO, Success);
    } else {
      var ab, last := a + b, b[|b| - 1];
      TallyConcat(a, b[..|b| - 1]);
      assert ab[..|ab| - 1] == a + b[..|b| - 1] && ab[|ab| - 1] == last;
      PlusLaws(Tally(a), Tally(b[..|b| - 1]), last);
    }
  }

  datatype Snapshot = Snapshot(total: int, success: int, error: int, errorPercent: int,
                               timeout: int, timeoutPercent: int)

  function NewSnapshot(c: Counter): Snapshot
    requires c.Consistent()
  {
    if c.total > 0 then
      Snapshot(c.total, c.total - c.error, c.error, Binary64.Percent(c.error, c.total),
               c.timeout, Binary64.Percent(c.timeout, c.total))
    else
      Snapshot(c.total, c.total - c.error, c.error, 0, c.timeout, 0)
  }

  /** What a snapshot shows: the counts, split into successes and errors, and shares of their whole. */
  lemma SnapshotShows(c: Counter)
    requires c.Consistent()
    ensures var s := NewSnapshot(c);
            && s.total == c.total && s.error == c.error && s.timeout == c.timeout && s.success + s.error == s.total
            && s.errorPercent == (if c.total == 0 then 0 else Binary64.Percent(c.error, c.total))
            && s.timeoutPercent == (if c.total == 0 then 0 else Binary64.Percent(c.timeout, c.total))
  {
    hide Binary64.Percent;
  }

  /** Both percentages of a snapshot lie in 0..100. */
  lemma PercentsInRange(c: Counter)
    requires c.Consistent()
    ensures 0 <= NewSnapshot(c).errorPercent <= 100
    ensures 0 <= NewSnapshot(c).timeoutPercent <= 100
  {
    if c.total > 0 {
      Binary64.PercentInRange(c.error, c.total);
      Binary64.PercentInRange(c.timeout, c.total);
    }
  }

  /** A percentage reaches a threshold exactly when the counts do, save for a window that sits
      exactly on 29, 57 or 58 percent. */
  lemma PercentReaches(e: nat, t: nat, threshold: int)
    requires e <= t && 0 < t <= Binary64.COUNT_LIMIT && 1 <= threshold
    ensures Binary64.Percent(e, t) >= threshold
       <==> 100 * e >= threshold * t && !(100 * e == threshold * t && Binary64.Short(threshold))
  {
    Binary64.PercentIsExact(e, t);
    Binary64.DivisionBounds(100 * e, t);
    var k := 100 * e / t;
    if k < threshold {
      Binary64.MulMonotone(k + 1, threshold, t);
    } else if k > threshold {
      Binary64.MulMonotone(threshold + 1, k, t);
      assert (threshold + 1) * t == threshold * t + t;
    }
  }
}
