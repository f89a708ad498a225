/** The invariant of the protocol, and the frame argument that lets each step look only at the
    request that moves, its instance and its limiter. */
module Invariant {
  import opened Outcomes
  import opened WindowSpec
  import opened Config
  import opened LimiterSpec
  import opened StateSpec
  import opened Protocol
  import opened Accounting

  // ---- Instances ---------------------------------------------------------------------------

  ghost predicate WindowFits(t: TimeLog, setting: Setting) {
    t.Valid() && t.capacity == setting.config.slidingWindowSize
  }

  /** The instance was made from this setting. */
  ghost predicate Belongs(inst: Inst, setting: Setting) {
    match inst
    case ClosedInst(s, t) => s == setting && WindowFits(t, setting)
    case OpenInst(t, _, _, wait) => wait == setting.config.waitDurationInOpenState && WindowFits(t, setting)
    case SemiOpenInst(s, probes, _) => s == setting && probes.capacity == setting.config.numberOfCallsInSemiOpenState
    case ForcedOpenInst(s, t) => s == setting && WindowFits(t, setting)
    case ForcedClosedInst(s, t) => s == setting && WindowFits(t, setting)
  }

  function TickTaken(inst: Inst): nat {
    if inst.OpenInst? && inst.timer.Taken? then 1 else 0
  }

  /** The instance has counted exactly the requests that dealt with it. */
  ghost predicate Tallies(reqs: seq<Req>, i: nat, inst: Inst) {
    && inst.Recorded() == Total(Records(i), reqs)
    && TickTaken(inst) == Total(Ticks(i), reqs)
    && (inst.SemiOpenInst? ==>
          && inst.callCount == Total(Permits(i), reqs)
          && inst.callCount <= inst.setting.config.numberOfCallsInSemiOpenState)
  }

  /** The timer has not fired before its time. */
  ghost predicate OnTime(inst: Inst, time: int) {
    inst.OpenInst? && !inst.timer.Unfired? ==> time >= inst.since + inst.wait
  }

  ghost predicate InstOk(w: World, i: nat)
    requires i < |w.insts| == |w.origin| && w.origin[i] < |w.gens|
  {
    Belongs(w.insts[i], w.gens[w.origin[i]]) && Tallies(w.reqs, i, w.insts[i]) && OnTime(w.insts[i], w.time)
  }

  // ---- Limiters ----------------------------------------------------------------------------

  /** The waiters of a limiter, queued or let through but not resumed. */
  function Pending(l: Limiter): seq<Waiter> {
    l.queue + l.ready
  }

  ghost predicate WaiterOk(reqs: seq<Req>, l: nat, p: Waiter) {
    p.id < |reqs| && reqs[p.id].pc.Waiting? && reqs[p.id].lim == l && reqs[p.id].weight == p.n
  }

  /** No call on the limiter was admitted without tokens. */
  ghost predicate Funded(reqs: seq<Req>, l: nat) {
    forall r :: 0 <= r < |reqs| && reqs[r].lim == l ==> !reqs[r].unfunded
  }

  /** The limiter counts the weights of the requests that dealt with it. */
  ghost predicate Balanced(reqs: seq<Req>, l: nat, lim: Limiter) {
    && lim.uncapped == Total(Counted(l), reqs)
    && lim.Out() <= Total(Held(l), reqs)
    && (Funded(reqs, l) ==> lim.Out() == Total(Held(l), reqs))
  }

  ghost predicate LimOk(reqs: seq<Req>, l: nat, lim: Limiter, setting: Setting) {
    && LimiterOk(lim)
    && lim.size == setting.config.maxConcurrentCalls && lim.maxWait == setting.config.maxWaitDurationMillis
    && (forall p :: p in Pending(lim) ==> WaiterOk(reqs, l, p))
    && (!lim.NoOp() ==> Balanced(reqs, l, lim))
  }

  // ---- Requests ----------------------------------------------------------------------------

  predicate HasEntry(q: Req) {
    q.pc.Running? || q.pc.Uncounted? || q.pc.Released? || q.pc.Deciding? || q.pc.Concluded? || q.pc.Done?
  }

  /** The decision was taken on `seen`, a value that the instance had just after it recorded an
      outcome. */
  ghost predicate JudgedOn(seen: Inst, inst: Inst, decision: Decision) {
    Evolves(seen, inst) && JustRecorded(seen) && StateSpec.Verdict(seen) == Some(decision)
  }

  /** The request stands well with its instance and its limiter. */
  ghost predicate ReqFits(q: Req, r: nat, inst: Inst, lim: Limiter, state: nat) {
    // A tick is held on to until its instance is left.
    && (q.tick.Some? && !q.pc.Winning? ==> q.tick.value < state)
    && (q.pc.Winning? ==> q.tick == Some(q.inst))
    && (q.pc.Snapped? ==> q.tick.None?)
    // Open and ForcedOpen let nobody in; only ForcedClosed admits without tokens.
    && (HasPermission(q) ==> !inst.OpenInst? && !inst.ForcedOpenInst?)
    && (q.pc.Refused? ==> inst.ChecksConcurrency())
    && (q.unfunded ==> inst.ForcedClosedInst? && HasEntry(q))
    && (q.pc.Waiting? ==> Waits(Pending(lim), r))
    // A decision was taken on the value the instance had at an update, ...
    && (q.pc.Deciding? ==> JudgedOn(q.pc.seen, inst, Decision(q.pc.to, q.pc.reason)))
    // ... and once acted upon has left the instance behind.
    && ((q.pc.Concluded? || q.pc.Done?) && q.pc.moved ==> q.inst < state)
    && (q.pc.Done? && q.pc.moved ==> q.pc.admitted)
  }

  /** The instance, the setting and the limiter of the request are of one generation. */
  ghost predicate OneGeneration(w: World, q: Req)
    requires |w.insts| == |w.origin| && |w.limiters| == |w.gens|
  {
    q.inst < |w.insts| && q.lim < |w.gens| && q.setting == w.gens[q.lim] && w.origin[q.inst] == q.lim
  }

  ghost predicate ReqOk(w: World, r: nat)
    requires r < |w.reqs| && |w.insts| == |w.origin| && |w.limiters| == |w.gens|
  {
    var q := w.reqs[r];
    && OneGeneration(w, q)
    && (q.tick.Some? ==> q.tick.value < |w.insts| && w.insts[q.tick.value].OpenInst?)
    && ReqFits(q, r, w.insts[q.inst], w.limiters[q.lim], w.state)
  }

  // ---- History -----------------------------------------------------------------------------

  /** Instance k was left for instance k + 1 for the recorded cause. */
  ghost predicate TrailOk(w: World, k: nat)
    requires k < |w.trail| && |w.insts| == |w.origin| == |w.trail| + 1
    requires forall i :: 0 <= i < |w.origin| ==> w.origin[i] < |w.gens|
  {
    var left, next := w.insts[k], w.insts[k + 1];
    match w.trail[k]
    case Won(_, at) =>
      left.OpenInst? && left.timer.Taken? && next.SemiOpenInst? && at >= left.since + left.wait
        && w.origin[k + 1] == w.origin[k]
    case Judged(_, seen, reason) =>
      JudgedOn(seen, left, Decision(next.Kind(), reason)) && w.origin[k + 1] == w.origin[k]
    case Forced => (next.ForcedOpenInst? || next.ForcedClosedInst?) && w.origin[k + 1] == w.origin[k]
    case WasReset => next.ClosedInst? && w.origin[k + 1] == w.origin[k]
    case Reconfigured =>
      next.ClosedInst? && w.origin[k + 1] == w.origin[k] + 1
        && w.gens[w.origin[k + 1]].config != w.gens[w.origin[k]].config
  }

  ghost predicate ProbesDone(inst: Inst) {
    inst.SemiOpenInst? && |inst.probes.log| >= ProbesNeeded(inst.setting)
  }

  ghost predicate IsDecider(w: World, r: nat, i: nat) {
    r < |w.reqs| && w.reqs[r].pc.Deciding? && w.reqs[r].inst == i
  }

  /** A current SemiOpen instance with enough probes has somebody about to leave it. */
  ghost predicate NotStuck(w: World)
    requires w.state < |w.insts|
  {
    ProbesDone(w.insts[w.state]) ==> exists r: nat :: IsDecider(w, r, w.state)
  }

  ghost predicate ReportsOk(reqs: seq<Req>, reports: seq<Report>) {
    && |reports| == Total(Finished, reqs)
    && (forall k :: 0 <= k < |reports| ==>
          reports[k].req < |reqs| && reqs[reports[k].req].pc.Done?
            && reqs[reports[k].req].pc.outcome == reports[k].outcome)
    && (forall j, k :: 0 <= j < k < |reports| ==> reports[j].req != reports[k].req)
  }

  // ---- The invariant -----------------------------------------------------------------------

  ghost predicate Shape(w: World) {
    && |w.insts| == |w.origin| == |w.trail| + 1
    && w.state == |w.insts| - 1
    && |w.limiters| == |w.gens| && |w.gens| > 0
    && w.limiter == |w.gens| - 1
    && w.setting == w.gens[w.limiter]
    && w.origin[w.state] == w.limiter
    && (forall i :: 0 <= i < |w.origin| ==> w.origin[i] < |w.gens|)
    && (forall g :: 0 <= g < |w.gens| ==> Usable(w.gens[g]))
  }

  /** Everything but the reports. */
  ghost predicate Core(w: World) {
    && Shape(w)
    && (forall i :: 0 <= i < |w.insts| ==> InstOk(w, i))
    && (forall l :: 0 <= l < |w.limiters| ==> LimOk(w.reqs, l, w.limiters[l], w.gens[l]))
    && (forall r :: 0 <= r < |w.reqs| ==> ReqOk(w, r))
    && (forall k :: 0 <= k < |w.trail| ==> TrailOk(w, k))
    && NotStuck(w)
  }

  ghost predicate Inv(w: World) {
    Core(w) && ReportsOk(w.reqs, w.reports)
  }

  // ---- One request moves -------------------------------------------------------------------

  /** What a step must say about the request that moves and its instance. */
  ghost predicate InstStep(q: Req, q': Req, inst: Inst, inst': Inst, time: int) {
    && q'.inst == q.inst && q'.lim == q.lim && q'.setting == q.setting && q'.weight == q.weight
    && (q'.tick == q.tick || (q.tick.None? && q'.tick == Some(q.inst) && inst'.OpenInst?))
    && Evolves(inst, inst')
    && (forall setting :: Belongs(inst, setting) ==> Belongs(inst', setting))
    && (OnTime(inst, time) ==> OnTime(inst', time))
    && inst'.Recorded() - inst.Recorded() == Weigh(Records(q.inst), q') - Weigh(Records(q.inst), q)
    && TickTaken(inst') - TickTaken(inst) == Weigh(Ticks(q.inst), q') - Weigh(Ticks(q.inst), q)
    && (inst.SemiOpenInst? ==>
          && inst'.callCount - inst.callCount == Weigh(Permits(q.inst), q') - Weigh(Permits(q.inst), q)
          && (inst.callCount <= inst.setting.config.numberOfCallsInSemiOpenState ==>
                inst'.callCount <= inst.setting.config.numberOfCallsInSemiOpenState))
    // Whoever completes the probes decides.
    && !q.pc.Deciding?
    && (ProbesDone(inst') ==> ProbesDone(inst) || q'.pc.Deciding?)
  }

  /** The waiters other than the request that moves stay where they are. */
  ghost predicate WaitersStay(r: nat, lim: Limiter, lim': Limiter) {
    forall s: nat :: s != r && Waits(Pending(lim), s) ==> Waits(Pending(lim'), s)
  }

  lemma InstsKept(w: World, r: nat, q': Req, inst': Inst, lim': Limiter)
    requires Core(w) && Placed(w, r)
    requires InstStep(w.reqs[r], q', w.insts[w.reqs[r].inst], inst', w.time)
    ensures var w' := Moved(w, r, q', inst', lim');
            forall i :: 0 <= i < |w'.insts| ==> InstOk(w', i)
  {
    hide Evolves, Belongs, OnTime, Weigh, Total, ProbesDone;
    var w' := Moved(w, r, q', inst', lim');
    var q := w.reqs[r];
    forall i | 0 <= i < |w'.insts|
      ensures InstOk(w', i)
    {
      assert InstOk(w, i);
      TotalUpdate(Records(i), w.reqs, r, q');
      TotalUpdate(Ticks(i), w.reqs, r, q');
      TotalUpdate(Permits(i), w.reqs, r, q');
      if i != q.inst {
        OtherInstance(q, q', i);
      }
      EvolvesKind(w.insts[q.inst], inst');
    }
  }

  lemma OtherInstance(q: Req, q': Req, i: nat)
    requires q'.inst == q.inst != i && (q'.tick == q.tick || (q.tick.None? && q'.tick == Some(q.inst)))
    ensures Weigh(Records(i), q') == Weigh(Records(i), q)
    ensures Weigh(Ticks(i), q') == Weigh(Ticks(i), q)
    ensures Weigh(Permits(i), q') == Weigh(Permits(i), q)
  {
  }

  lemma EvolvesKind(a: Inst, b: Inst)
    requires Evolves(a, b)
    ensures a.Kind() == b.Kind()
    ensures a.SemiOpenInst? <==> b.SemiOpenInst?
    ensures a.SemiOpenInst? ==> a.setting == b.setting && |a.probes.log| <= |b.probes.log|
    ensures a.OpenInst? <==> b.OpenInst?
    ensures a.OpenInst? ==> a.since == b.since && a.wait == b.wait && (a.timer.Taken? ==> b.timer.Taken?)
  {
  }

  lemma LimsKept(w: World, r: nat, q': Req, inst': Inst, lim': Limiter)
    requires Core(w) && Placed(w, r)
    requires q'.lim == w.reqs[r].lim
    requires LimOk(w.reqs[r := q'], q'.lim, lim', w.gens[q'.lim])
    ensures var w' := Moved(w, r, q', inst', lim');
            forall l :: 0 <= l < |w'.limiters| ==> LimOk(w'.reqs, l, w'.limiters[l], w'.gens[l])
  {
    hide LimiterOk, Balanced, WaiterOk;
    var w' := Moved(w, r, q', inst', lim');
    forall l | 0 <= l < |w'.limiters|
      ensures LimOk(w'.reqs, l, w'.limiters[l], w'.gens[l])
    {
      assert LimOk(w.reqs, l, w.limiters[l], w.gens[l]);
      if l != q'.lim {
        forall p | p in Pending(w.limiters[l])
          ensures WaiterOk(w'.reqs, l, p)
        {
          OtherWaiter(w.reqs, r, q', l, p);
        }
        if !w.limiters[l].NoOp() {
          OtherLimiter(w.reqs, r, q', l, w.limiters[l]);
        }
      }
    }
  }

  lemma OtherWaiter(reqs: seq<Req>, r: nat, q': Req, l: nat, p: Waiter)
    requires r < |reqs| && reqs[r].lim != l && WaiterOk(reqs, l, p)
    ensures WaiterOk(reqs[r := q'], l, p)
  {
  }

  lemma OtherLimiter(reqs: seq<Req>, r: nat, q': Req, l: nat, lim: Limiter)
    requires r < |reqs| && reqs[r].lim == q'.lim != l && Balanced(reqs, l, lim)
    ensures Balanced(reqs[r := q'], l, lim)
  {
    hide Total, LimiterSpec.Weight;
    TotalUpdate(Counted(l), reqs, r, q');
    TotalUpdate(Held(l), reqs, r, q');
    assert Funded(reqs[r := q'], l) ==> Funded(reqs, l) by {
      if Funded(reqs[r := q'], l) {
        forall s | 0 <= s < |reqs| && reqs[s].lim == l
          ensures !reqs[s].unfunded
        {
          assert reqs[r := q'][s] == reqs[s];
        }
      }
    }
  }

  lemma ReqsKept(w: World, r: nat, q': Req, inst': Inst, lim': Limiter)
    requires Core(w) && Placed(w, r)
    requires InstStep(w.reqs[r], q', w.insts[w.reqs[r].inst], inst', w.time)
    requires WaitersStay(r, w.limiters[w.reqs[r].lim], lim')
    requires ReqFits(q', r, inst', lim', w.state)
    ensures var w' := Moved(w, r, q', inst', lim');
            forall s :: 0 <= s < |w'.reqs| ==> ReqOk(w', s)
  {
    hide Evolves, LimOk, InstOk, TrailOk, NotStuck, ReqFits, WaitersStay, Belongs, OnTime, Weigh, ProbesDone,
         TickTaken;
    var w' := Moved(w, r, q', inst', lim');
    EvolvesKind(w.insts[w.reqs[r].inst], inst');
    assert ReqOk(w, r);
    forall s | 0 <= s < |w'.reqs|
      ensures ReqOk(w', s)
    {
      if s != r {
        assert ReqOk(w, s);
        var q := w.reqs[s];
        if q.inst == w.reqs[r].inst {
          FitsEvolved(q, s, w.insts[q.inst], inst', w.limiters[q.lim], w.state);
        }
        if q.lim == w.reqs[r].lim {
          FitsStaying(q, s, w'.insts[q.inst], w.limiters[q.lim], lim', w.state, r);
        }
      }
    }
  }

  lemma FitsEvolved(q: Req, r: nat, inst: Inst, inst': Inst, lim: Limiter, state: nat)
    requires ReqFits(q, r, inst, lim, state) && Evolves(inst, inst')
    ensures ReqFits(q, r, inst', lim, state)
  {
    hide Evolves, StateSpec.Verdict, Waits, HasPermission;
    EvolvesKind(inst, inst');
    KindDecides(inst, inst');
    if q.pc.Deciding? {
      EvolvesTransitive(q.pc.seen, inst, inst');
    }
  }

  lemma FitsStaying(q: Req, s: nat, inst: Inst, lim: Limiter, lim': Limiter, state: nat, r: nat)
    requires ReqFits(q, s, inst, lim, state) && WaitersStay(r, lim, lim') && s != r
    ensures ReqFits(q, s, inst, lim', state)
  {
    hide Evolves, StateSpec.Verdict, Waits, HasPermission;
  }

  lemma KindDecides(a: Inst, b: Inst)
    requires a.Kind() == b.Kind()
    ensures a.ChecksConcurrency() <==> b.ChecksConcurrency()
    ensures a.OpenInst? <==> b.OpenInst?
    ensures a.ForcedOpenInst? <==> b.ForcedOpenInst?
    ensures a.ForcedClosedInst? <==> b.ForcedClosedInst?
    ensures a.ClosedInst? <==> b.ClosedInst?
    ensures a.SemiOpenInst? <==> b.SemiOpenInst?
  {
  }

  /** The trail outlives any change of the instances that lets them evolve. */
  lemma TrailKept(w: World, i: nat, inst': Inst, k: nat)
    requires Shape(w) && i < |w.insts| && k < |w.trail| && TrailOk(w, k)
    requires Evolves(w.insts[i], inst')
    ensures TrailOk(w.(insts := w.insts[i := inst']), k)
  {
    hide Evolves, StateSpec.Verdict;
    EvolvesKind(w.insts[i], inst');
    KindDecides(w.insts[i], inst');
    if i == k && w.trail[k].Judged? {
      EvolvesTransitive(w.trail[k].seen, w.insts[i], inst');
    }
  }

  lemma StillNotStuck(w: World, r: nat, q': Req, inst': Inst, lim': Limiter)
    requires Core(w) && Placed(w, r)
    requires InstStep(w.reqs[r], q', w.insts[w.reqs[r].inst], inst', w.time)
    ensures NotStuck(Moved(w, r, q', inst', lim'))
  {
    hide InstOk, LimOk, ReqOk, TrailOk, ProbesDone, Evolves, Belongs, Weigh, OnTime;
    var w' := Moved(w, r, q', inst', lim');
    if ProbesDone(w'.insts[w'.state]) {
      if q'.pc.Deciding? && q'.inst == w.state {
        assert IsDecider(w', r, w.state);
      } else {
        assert ProbesDone(w.insts[w.state]);
        var s: nat :| IsDecider(w, s, w.state);
        assert IsDecider(w', s, w.state);
      }
    }
  }

  /** A step of one request keeps the invariant if it is right about its own request, instance and
      limiter. */
  lemma MovedKeeps(w: World, r: nat, q': Req, inst': Inst, lim': Limiter)
    requires Core(w) && Placed(w, r)
    requires InstStep(w.reqs[r], q', w.insts[w.reqs[r].inst], inst', w.time)
    requires WaitersStay(r, w.limiters[w.reqs[r].lim], lim')
    requires LimOk(w.reqs[r := q'], q'.lim, lim', w.gens[q'.lim])
    requires ReqFits(q', r, inst', lim', w.state)
    ensures Core(Moved(w, r, q', inst', lim'))
  {
    InstsKept(w, r, q', inst', lim');
    LimsKept(w, r, q', inst', lim');
    ReqsKept(w, r, q', inst', lim');
    StillNotStuck(w, r, q', inst', lim');
    hide InstOk, LimOk, ReqOk, NotStuck, InstStep, WaitersStay, TrailOk, ReqFits;
    var w' := Moved(w, r, q', inst', lim');
    forall k | 0 <= k < |w'.trail|
      ensures TrailOk(w', k)
    {
      TrailKept(w, w.reqs[r].inst, inst', k);
      TrailIsLocal(w.(insts := w'.insts), w', k);
    }
  }

  /** The trail does not look at the requests, the reports or the limiters. */
  lemma TrailIsLocal(w: World, w': World, k: nat)
    requires Shape(w) && k < |w.trail| && TrailOk(w, k)
    requires w'.insts == w.insts && w'.origin == w.origin && w'.trail == w.trail && w'.gens == w.gens
    ensures TrailOk(w', k)
  {
    hide Evolves, StateSpec.Verdict;
  }
}
