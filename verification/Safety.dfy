/** What holds of a breaker in every reachable world. */
module Safety {
  import Binary64
  import opened Outcomes
  import opened WindowSpec
  import opened Config
  import opened LimiterSpec
  import opened StateSpec
  import opened Protocol
  import opened Accounting
  import opened Invariant
  import opened BreakerSteps

  // ---- Probes ------------------------------------------------------------------------------

  /** The permissions of a SemiOpen instance are exactly accounted for: those in use and those that
      led to an outcome. They are bounded, and the ring never evicts a probe, so what the instance
      decides on is every probe that has completed. */
  lemma ProbesAreExact(w: World, i: nat)
    requires Inv(w) && i < |w.insts| && w.insts[i].SemiOpenInst?
    ensures var inst := w.insts[i];
            && inst.callCount == Total(Probing(i), w.reqs) + |inst.probes.log|
            && |inst.probes.log| == Total(Records(i), w.reqs)
            && 0 <= inst.callCount <= inst.setting.config.numberOfCallsInSemiOpenState == inst.probes.capacity
            && inst.probes.Window() == inst.probes.log
            && inst.Counts().total == |inst.probes.log|
  {
    hide LimOk, ReqOk, TrailOk, NotStuck, Total, Tally;
    assert InstOk(w, i);
    PermitsSplit(i, w.reqs);
    TallyIsConsistent(w.insts[i].probes.Window());
  }

  /** A permission that is handed back was counted, so the unsigned counter never wraps around. */
  lemma PermissionNeverUnderflows(w: World, r: nat)
    requires Inv(w) && At(w, r, Refused) && w.insts[w.reqs[r].inst].SemiOpenInst?
    ensures w.insts[w.reqs[r].inst].callCount > 0
  {
    hide LimOk, ReqOk, TrailOk, NotStuck, Total;
    assert InstOk(w, w.reqs[r].inst);
    TotalContains(Permits(w.reqs[r].inst), w.reqs, r);
  }

  /** No breaker is stuck in SEMI_OPEN: with enough probes counted, somebody is about to leave the
      state; with all permissions used, some holder of one is still on its way. */
  lemma NeverStuckSemiOpen(w: World)
    requires Inv(w) && w.insts[w.state].SemiOpenInst?
    ensures var inst := w.insts[w.state];
            && (|| inst.Counts().total >= inst.setting.config.minimumNumberOfCalls
                || inst.Counts().total >= inst.setting.config.numberOfCallsInSemiOpenState
                ==> exists r: nat :: IsDecider(w, r, w.state))
            && (inst.callCount == inst.setting.config.numberOfCallsInSemiOpenState ==>
                  exists r: nat :: r < |w.reqs| && OnItsWay(w.reqs[r], w.state))
  {
    var inst := w.insts[w.state];
    ProbesAreExact(w, w.state);
    hide InstOk, LimOk, ReqOk, TrailOk, Total;
    if inst.callCount == inst.setting.config.numberOfCallsInSemiOpenState {
      if ProbesDone(inst) {
        var r: nat :| IsDecider(w, r, w.state);
        assert OnItsWay(w.reqs[r], w.state);
      } else {
        var r := TotalPositive(Probing(w.state), w.reqs);
        assert OnItsWay(w.reqs[r], w.state);
      }
    }
  }

  /** The request holds a permission of the instance and has not finished with it. */
  predicate OnItsWay(q: Req, i: nat) {
    q.inst == i && HasPermission(q) && !q.pc.Concluded? && !q.pc.Done?
  }

  // ---- Generations -------------------------------------------------------------------------

  /** What a request has captured belongs to one configuration generation: its setting, its limiter
      and the instance it deals with were all made from `gens[lim]`, also after the request itself
      has turned an Open instance into a SemiOpen one. */
  lemma CapturesOneGeneration(w: World, r: nat)
    requires Inv(w) && r < |w.reqs|
    ensures var q := w.reqs[r];
            && q.inst < |w.insts| && q.lim < |w.gens| && w.origin[q.inst] == q.lim
            && q.setting == w.gens[q.lim]
            && Belongs(w.insts[q.inst], w.gens[q.lim])
            && w.limiters[q.lim].size == w.gens[q.lim].config.maxConcurrentCalls
            && w.limiters[q.lim].maxWait == w.gens[q.lim].config.maxWaitDurationMillis
  {
    hide TrailOk, NotStuck, ReqFits, Tallies, LimiterOk, Balanced;
    assert ReqOk(w, r);
    assert InstOk(w, w.reqs[r].inst);
    assert LimOk(w.reqs, w.reqs[r].lim, w.limiters[w.reqs[r].lim], w.gens[w.reqs[r].lim]);
  }

  // ---- Tokens ------------------------------------------------------------------------------

  /** Conservation of tokens. In every run the count is within bounds and never exceeds what is
      held or granted; as long as no call was admitted without tokens it equals it, so the calls
      that run never weigh more than the limit. The uncapped count is the weight of all attempts
      that have not been released; a refused attempt stays in it for good. */
  lemma TokensAreConserved(w: World, l: nat)
    requires Inv(w) && l < |w.limiters| && !w.limiters[l].NoOp()
    ensures var lim := w.limiters[l];
            && 0 <= lim.cur <= lim.size
            && lim.cur <= Total(Held(l), w.reqs) + LimiterSpec.Weight(lim.ready)
            && lim.uncapped == Total(Counted(l), w.reqs)
            && (Funded(w.reqs, l) ==>
                  && lim.cur == Total(Held(l), w.reqs) + LimiterSpec.Weight(lim.ready)
                  && Total(Held(l), w.reqs) <= lim.size)
  {
    hide InstOk, ReqOk, TrailOk, NotStuck, Total, LimiterSpec.Weight;
    assert LimOk(w.reqs, l, w.limiters[l], w.gens[l]);
    WeightIsNatural(w.limiters[l].ready);
  }

  // ---- Waiting -----------------------------------------------------------------------------

  /** No wakeup is lost. Whoever queues could be served by an idle limiter, and a queue is only left
      standing when its front does not fit or the count is at the limit; then tokens are taken, and
      there is a call that will release some or a waiter that has been let through. */
  lemma NoLostWakeup(w: World, l: nat)
    requires Inv(w) && l < |w.limiters| && w.limiters[l].queue != []
    ensures var lim := w.limiters[l];
            && (forall k :: 0 <= k < |lim.queue| ==> lim.queue[k].n <= lim.size)
            && (lim.queue[0].n > lim.size - lim.cur || lim.cur == lim.size)
            && lim.cur > 0
            && (lim.ready != [] || exists r: nat :: r < |w.reqs| && WillRelease(w.reqs[r], l))
  {
    hide InstOk, ReqOk, TrailOk, NotStuck, Total, InOrder, Distinct;
    var lim := w.limiters[l];
    assert LimOk(w.reqs, l, lim, w.gens[l]);
    if lim.ready == [] {
      var r := TotalPositive(Held(l), w.reqs);
      assert WillRelease(w.reqs[r], l);
    }
  }

  predicate WillRelease(q: Req, l: nat) {
    q.lim == l && HasTokens(q) && q.weight > 0
  }

  /** First in, first out: whoever has ever been granted tokens arrived before everybody who is
      still queued, and grants were made in the order of arrival. */
  lemma FirstInFirstOut(w: World, l: nat)
    requires Inv(w) && l < |w.limiters| && !w.limiters[l].NoOp()
    ensures var lim := w.limiters[l];
            && Increasing(lim.grants)
            && forall g, q :: 0 <= g < |lim.grants| && 0 <= q < |lim.queue| ==> lim.grants[g] < lim.queue[q].ticket
  {
    hide InstOk, ReqOk, TrailOk, NotStuck, Balanced;
    var lim := w.limiters[l];
    assert LimOk(w.reqs, l, lim, w.gens[l]);
    var order := lim.grants + Tickets(lim.queue);
    assert forall g :: 0 <= g < |lim.grants| ==> order[g] == lim.grants[g];
    forall g, q | 0 <= g < |lim.grants| && 0 <= q < |lim.queue|
      ensures lim.grants[g] < lim.queue[q].ticket
    {
      NoBarging(lim, g, q);
    }
  }

  /** Each waiting request is listed exactly once, with its own weight, as queued or as let
      through; and nobody else is listed. */
  lemma WaitersAreListedOnce(w: World, l: nat)
    requires Inv(w) && l < |w.limiters|
    ensures var pending := Pending(w.limiters[l]);
            && Distinct(pending)
            && (forall p :: p in pending ==> WaiterOk(w.reqs, l, p))
            && (forall r :: 0 <= r < |w.reqs| && w.reqs[r].pc.Waiting? && w.reqs[r].lim == l ==> Waits(pending, r))
  {
    hide InstOk, TrailOk, NotStuck, Balanced, InOrder, Awake;
    assert LimOk(w.reqs, l, w.limiters[l], w.gens[l]);
    forall r | 0 <= r < |w.reqs| && w.reqs[r].pc.Waiting? && w.reqs[r].lim == l
      ensures Waits(Pending(w.limiters[l]), r)
    {
      assert ReqOk(w, r);
    }
  }

  // ---- The Open timer ----------------------------------------------------------------------

  /** A request won the tick of instance i. */
  predicate WonTick(q: Req, i: nat) {
    q.tick == Some(i)
  }

  /** The tick of an Open instance is not lost while the instance is current: it is still to come,
      or buffered, or held by a request that is about to install SemiOpen. */
  lemma TickIsNeverLost(w: World)
    requires Inv(w) && w.insts[w.state].OpenInst?
    ensures var timer := w.insts[w.state].timer;
            timer.Unfired? || timer.Buffered? ||
            exists r: nat :: At(w, r, Winning) && WonTick(w.reqs[r], w.state) && w.reqs[r].inst == w.state
  {
    hide LimOk, TrailOk, NotStuck, Total;
    assert InstOk(w, w.state);
    if w.insts[w.state].timer.Taken? {
      var r := TotalPositive(Ticks(w.state), w.reqs);
      assert ReqOk(w, r);
      assert At(w, r, Winning);
    }
  }

  /** At most one request wins an Open instance, and none before its waiting time is over. */
  lemma OneWinnerInTime(w: World, r: nat, i: nat)
    requires Inv(w) && r < |w.reqs| && WonTick(w.reqs[r], i)
    ensures i < |w.insts| && w.insts[i].OpenInst? && w.time >= w.insts[i].since + w.insts[i].wait
    ensures forall s :: 0 <= s < |w.reqs| && WonTick(w.reqs[s], i) ==> s == r
  {
    hide LimOk, TrailOk, NotStuck, Total;
    assert ReqOk(w, r);
    assert InstOk(w, i);
    TotalContains(Ticks(i), w.reqs, r);
    forall s | 0 <= s < |w.reqs| && WonTick(w.reqs[s], i)
      ensures s == r
    {
      if s < r {
        TotalOfTwo(Ticks(i), w.reqs, s, r);
      } else if r < s {
        TotalOfTwo(Ticks(i), w.reqs, r, s);
      }
    }
  }

  // ---- State changes -----------------------------------------------------------------------

  predicate IsAutomatic(c: Cause) {
    c.Won? || c.Judged?
  }

  /** The states a breaker goes through: automatic transitions stay in the allowed graph and in one
      generation, a forced state is only left by an operator or by an update that changes the
      filled configuration, and Open is only left automatically after its waiting time. */
  lemma TransitionsAreLegal(w: World, k: nat)
    requires Inv(w) && k < |w.trail|
    ensures var from, to, cause := w.insts[k].Kind(), w.insts[k + 1].Kind(), w.trail[k];
            && (IsAutomatic(cause) ==> ValidAutomatic(from, to) && w.origin[k + 1] == w.origin[k])
            && (from == ForcedOpen || from == ForcedClosed ==>
                  cause.Forced? || cause.WasReset?
                  || (cause.Reconfigured? && w.gens[w.origin[k + 1]].config != w.gens[w.origin[k]].config))
            && (from == Open && IsAutomatic(cause) ==> cause.Won? && cause.at >= w.insts[k].since + w.insts[k].wait)
  {
    hide InstOk, LimOk, ReqOk, NotStuck, StateSpec.Verdict;
    assert TrailOk(w, k);
    if w.trail[k].Judged? {
      EvolvesKind(w.trail[k].seen, w.insts[k]);
      DecisionsAreValid(w.trail[k].seen);
    }
  }

  /** A Closed instance was left automatically only because of what it had recorded. There was an
      update, the one that recorded the last outcome of `seen.window.log`, which is a prefix of what
      the instance has recorded in the end; with the ring at the second of that outcome, the window
      had enough calls and a share of bad ones that reaches the threshold named by the reason. */
  lemma TripsAreJustified(w: World, k: nat)
    requires Inv(w) && k < |w.trail| && w.insts[k].ClosedInst? && IsAutomatic(w.trail[k])
    requires |w.insts[k].window.log| <= Binary64.COUNT_LIMIT
    ensures w.trail[k].Judged? && w.insts[k + 1].OpenInst?
    ensures var seen, inst := w.trail[k].seen, w.insts[k];
            && seen.ClosedInst? && seen.setting == inst.setting == w.gens[w.origin[k]]
            && seen.window.capacity == inst.window.capacity && seen.window.log <= inst.window.log
            && seen.window.log != []
            && seen.window.log[|seen.window.log| - 1].second == seen.window.clock <= inst.window.clock
            && seen.Counts().total >= inst.setting.config.minimumNumberOfCalls
            && ReasonFits(inst.setting, seen.Counts(), w.trail[k].reason)
  {
    hide LimOk, ReqOk, NotStuck, StateSpec.Verdict, Tallies, ReasonFits;
    assert TrailOk(w, k) && InstOk(w, k);
    var seen := w.trail[k].seen;
    SpanIsConsistent(seen.window.log, seen.window.clock - seen.window.capacity, seen.window.clock);
    ClosedTripsIff(seen);
  }

  /** A SemiOpen instance left automatically went to Open exactly when the probes it had recorded by
      then, all of them, were unhealthy, and to Closed otherwise. */
  lemma ProbeVerdictsAreJustified(w: World, k: nat)
    requires Inv(w) && k < |w.trail| && w.insts[k].SemiOpenInst? && IsAutomatic(w.trail[k])
    requires |w.insts[k].probes.log| <= Binary64.COUNT_LIMIT
    ensures w.trail[k].Judged?
    ensures var seen, inst := w.trail[k].seen, w.insts[k];
            && seen.SemiOpenInst? && seen.probes.log <= inst.probes.log && seen.Counts() == Tally(seen.probes.log)
            && (|| |seen.probes.log| >= inst.setting.config.minimumNumberOfCalls
                || |seen.probes.log| >= inst.setting.config.numberOfCallsInSemiOpenState)
            && (w.insts[k + 1].OpenInst? <==> Unhealthy(inst.setting, Tally(seen.probes.log)))
            && (w.insts[k + 1].ClosedInst? <==> !Unhealthy(inst.setting, Tally(seen.probes.log)))
  {
    ProbesAreExact(w, k);
    hide LimOk, ReqOk, NotStuck, StateSpec.Verdict, Tallies, Unhealthy, Tally;
    assert TrailOk(w, k) && InstOk(w, k);
    var seen := w.trail[k].seen;
    assert seen.probes.Window() == seen.probes.log;
    TallyIsConsistent(seen.probes.log);
    SemiOpenDecides(seen);
    DecisionsAreValid(seen);
  }

  /** A request that ends on an instance the breaker has left changes nothing but itself. */
  lemma StaleDecisionsDoNothing(w: World, r: nat, now: int, born: int)
    requires Inv(w) && Placed(w, r) && w.reqs[r].pc.Deciding? && w.reqs[r].inst != w.state
    ensures Step(w, Decide(r, now, born)) == WithReq(w, r, w.reqs[r].(pc := Concluded(true, w.reqs[r].pc.outcome)))
  {
    hide InstOk, LimOk, ReqOk, TrailOk, NotStuck, TransitionAllowed;
    DecisionApplies(w, r);
  }

  // ---- Accounting --------------------------------------------------------------------------

  /** Every request is in flight or has been reported, exactly once; and every instance has recorded
      exactly the requests that finished with it, Open and ForcedOpen ones none. */
  lemma RequestsAreAccountedFor(w: World)
    requires Inv(w)
    ensures |w.reports| == Total(Finished, w.reqs) <= |w.reqs|
    ensures forall r :: 0 <= r < |w.reqs| && w.reqs[r].pc.Done? ==> exists k :: IsReportOf(w, k, r)
    ensures forall j, k, r :: IsReportOf(w, j, r) && IsReportOf(w, k, r) ==> j == k
    ensures forall i :: 0 <= i < |w.insts| ==>
              && w.insts[i].Recorded() == Total(Records(i), w.reqs)
              && (w.insts[i].OpenInst? || w.insts[i].ForcedOpenInst? ==> w.insts[i].Recorded() == 0)
  {
    hide LimOk, TrailOk, NotStuck, Total;
    FinishedBound(w.reqs);
    forall r | 0 <= r < |w.reqs| && w.reqs[r].pc.Done?
      ensures exists k :: IsReportOf(w, k, r)
    {
      FinishedAreReported(w.reqs, w.reports, r);
      var k :| 0 <= k < |w.reports| && w.reports[k].req == r;
      assert IsReportOf(w, k, r);
    }
    forall i | 0 <= i < |w.insts|
      ensures w.insts[i].Recorded() == Total(Records(i), w.reqs)
      ensures w.insts[i].OpenInst? || w.insts[i].ForcedOpenInst? ==> w.insts[i].Recorded() == 0
    {
      assert InstOk(w, i);
      if w.insts[i].OpenInst? || w.insts[i].ForcedOpenInst? {
        forall r | 0 <= r < |w.reqs|
          ensures Weigh(Records(i), w.reqs[r]) == 0
        {
          assert ReqOk(w, r);
        }
        TotalZero(Records(i), w.reqs);
      }
    }
  }

  predicate IsReportOf(w: World, k: int, r: int) {
    0 <= k < |w.reports| && w.reports[k].req == r
  }

  lemma {:induction false} FinishedBound(reqs: seq<Req>)
    ensures Total(Finished, reqs) <= |reqs|
  {
    if reqs != [] {
      FinishedBound(reqs[..|reqs| - 1]);
    }
  }

  /** There are as many reports as finished requests and no two are of the same one, so none is
      missing. */
  lemma FinishedAreReported(reqs: seq<Req>, reports: seq<Report>, r: nat)
    requires ReportsOk(reqs, reports) && r < |reqs| && reqs[r].pc.Done?
    ensures exists k :: 0 <= k < |reports| && reports[k].req == r
  {
    if forall k :: 0 <= k < |reports| ==> reports[k].req != r {
      hide Total;
      var others := reqs[r := reqs[r].(pc := Snapped)];
      TotalUpdate(Finished, reqs, r, reqs[r].(pc := Snapped));
      ReportsBound(others, reports);
    }
  }

  lemma {:induction false} ReportsBound(reqs: seq<Req>, reports: seq<Report>)
    requires forall k :: 0 <= k < |reports| ==> reports[k].req < |reqs| && reqs[reports[k].req].pc.Done?
    requires forall j, k :: 0 <= j < k < |reports| ==> reports[j].req != reports[k].req
    ensures |reports| <= Total(Finished, reqs)
    decreases |reports|
  {
    if reports != [] {
      hide Total;
      var last := reports[|reports| - 1].req;
      var q := reqs[last].(pc := Snapped);
      TotalUpdate(Finished, reqs, last, q);
      ReportsBound(reqs[last := q], reports[..|reports| - 1]);
    }
  }

  /** The outcome reported is a rejection exactly when the error is one of the breaker's own. A run
      function that passes on such an error, from a breaker further down, is reported as rejected
      although it ran. */
  lemma ReportedAsRejectionIff(runError: Option<CallError>, timedOut: bool)
    ensures Classify(runError, timedOut).IsRejection() <==> runError.Some? && !runError.value.OtherError?
  {
  }
}
