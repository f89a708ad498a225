/** Sums over the request table: how much weight, or how many requests, of a given kind there are. */
module Accounting {
  import opened Outcomes
  import opened StateSpec
  import opened Protocol

  datatype Measure =
    | Held(lim: nat)       // weight of the calls that hold tokens of the limiter
    | Counted(lim: nat)    // weight the limiter's uncapped counter still contains
    | Permits(inst: nat)   // requests that hold or have used a permission of the instance
    | Records(inst: nat)   // requests that have recorded their outcome with the instance
    | Failures(inst: nat)  // those of them whose call ended with an error
    | Timeouts(inst: nat)  // those of them whose call took too long
    | Probing(inst: nat)   // requests that hold a permission and have not recorded an outcome yet
    | Ticks(inst: nat)     // requests that received the timer tick of the instance
    | Finished             // requests that have been reported

  predicate HasTokens(q: Req) {
    (q.pc.Running? || q.pc.Uncounted?) && !q.unfunded
  }

  /** Counted as trying or running, and, since the counter is not lowered for them, all those that
      were turned away for lack of tokens. */
  predicate IsCounted(q: Req) {
    || q.pc.Attempted? || q.pc.Waiting? || q.pc.Refused? || q.pc.Running?
    || (q.pc.Rejected? && q.pc.why == ErrMaxConcurrency)
    || (q.pc.Done? && !q.pc.admitted && q.pc.outcome == MaxConcurrencyRejected)
  }

  predicate HasPermission(q: Req) {
    match q.pc
    case Snapped => false
    case Winning => false
    case Checked => false
    case Rejected(_) => false
    case Done(admitted, _, _) => admitted
    case _ => true
  }

  predicate HasRecorded(q: Req) {
    q.pc.Deciding? || q.pc.Concluded? || (q.pc.Done? && q.pc.admitted)
  }

  function Weigh(m: Measure, q: Req): nat {
    match m
    case Held(l) => if q.lim == l && HasTokens(q) then q.weight else 0
    case Counted(l) => if q.lim == l && IsCounted(q) then q.weight else 0
    case Permits(i) => if q.inst == i && HasPermission(q) then 1 else 0
    case Records(i) => if q.inst == i && HasRecorded(q) then 1 else 0
    case Failures(i) =>
      if q.inst == i && HasRecorded(q) && q.call.Some? && q.call.value.runError.Some? then 1 else 0
    case Timeouts(i) => if q.inst == i && HasRecorded(q) && q.call.Some? && q.call.value.timedOut then 1 else 0
    case Probing(i) => if q.inst == i && HasPermission(q) && !HasRecorded(q) then 1 else 0
    case Ticks(i) => if q.tick == Some(i) then 1 else 0
    case Finished => if q.pc.Done? then 1 else 0
  }

  function Total(m: Measure, reqs: seq<Req>): nat {
    if reqs == [] then 0 else Total(m, reqs[..|reqs| - 1]) + Weigh(m, reqs[|reqs| - 1])
  }

  lemma TotalSnoc(m: Measure, reqs: seq<Req>, q: Req)
    ensures Total(m, reqs + [q]) == Total(m, reqs) + Weigh(m, q)
  {
    hide Weigh;
    assert (reqs + [q])[..|reqs|] == reqs;
  }

  lemma {:induction false} TotalUpdate(m: Measure, reqs: seq<Req>, r: nat, q: Req)
    requires r < |reqs|
    ensures Total(m, reqs[r := q]) == Total(m, reqs) - Weigh(m, reqs[r]) + Weigh(m, q)
  {
    hide Weigh;
    var last := |reqs| - 1;
    var updated := reqs[r := q];
    if r == last {
      assert updated[..last] == reqs[..last];
    } else {
      assert updated[..last] == reqs[..last][r := q];
      TotalUpdate(m, reqs[..last], r, q);
    }
  }

  lemma {:induction false} TotalZero(m: Measure, reqs: seq<Req>)
    requires forall r :: 0 <= r < |reqs| ==> Weigh(m, reqs[r]) == 0
    ensures Total(m, reqs) == 0
  {
    hide Weigh;
    if reqs != [] {
      TotalZero(m, reqs[..|reqs| - 1]);
    }
  }

  lemma {:induction false} TotalContains(m: Measure, reqs: seq<Req>, r: nat)
    requires r < |reqs|
    ensures Weigh(m, reqs[r]) <= Total(m, reqs)
  {
    hide Weigh;
    if r < |reqs| - 1 {
      TotalContains(m, reqs[..|reqs| - 1], r);
    }
  }

  lemma {:induction false} TotalPositive(m: Measure, reqs: seq<Req>) returns (r: nat)
    requires Total(m, reqs) > 0
    ensures r < |reqs| && Weigh(m, reqs[r]) > 0
  {
    hide Weigh;
    r := |reqs| - 1;
    if Weigh(m, reqs[r]) == 0 {
      r := TotalPositive(m, reqs[..|reqs| - 1]);
    }
  }

  /** Two different requests of weight one make a total of two. */
  lemma {:induction false} TotalOfTwo(m: Measure, reqs: seq<Req>, r: nat, s: nat)
    requires r < s < |reqs|
    ensures Weigh(m, reqs[r]) + Weigh(m, reqs[s]) <= Total(m, reqs)
  {
    hide Weigh;
    if s < |reqs| - 1 {
      TotalOfTwo(m, reqs[..|reqs| - 1], r, s);
    } else {
      TotalContains(m, reqs[..s], r);
    }
  }

  /** A permission is either still in use or has led to a recorded outcome. */
  lemma {:induction false} PermitsSplit(i: nat, reqs: seq<Req>)
    ensures Total(Permits(i), reqs) == Total(Probing(i), reqs) + Total(Records(i), reqs)
  {
    if reqs != [] {
      PermitsSplit(i, reqs[..|reqs| - 1]);
    }
  }
}
