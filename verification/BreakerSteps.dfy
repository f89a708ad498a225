/** The steps of the breaker itself keep the invariant: state changes, configuration updates, new
    requests, the timer and the passing of time. */
module BreakerSteps {
  import opened Outcomes
  import opened Config
  import opened LimiterSpec
  import opened StateSpec
  import opened Protocol
  import opened Accounting
  import opened Invariant
  import opened RequestSteps

  // ---- An instance changes without a request -----------------------------------------------

  /** The timer fires, or a window is read. */
  lemma InstEvolves(w: World, i: nat, inst': Inst)
    requires Core(w) && i < |w.insts| && Evolves(w.insts[i], inst')
    requires Belongs(w.insts[i], w.gens[w.origin[i]]) ==> Belongs(inst', w.gens[w.origin[i]])
    requires OnTime(inst', w.time) && inst'.Recorded() == w.insts[i].Recorded()
        && TickTaken(inst') == TickTaken(w.insts[i])
    requires inst'.SemiOpenInst? ==> inst' == w.insts[i]
    ensures Core(w.(insts := w.insts[i := inst']))
  {
    var w' := w.(insts := w.insts[i := inst']);
    EvolvesKind(w.insts[i], inst');
    KindDecides(w.insts[i], inst');
    InstsEvolved(w, i, inst');
    hide InstOk, LimOk, TrailOk, Evolves, Belongs, OnTime, TickTaken;
    forall r | 0 <= r < |w'.reqs|
      ensures ReqOk(w', r)
    {
      assert ReqOk(w, r);
      hide ReqFits;
      if w.reqs[r].inst == i {
        FitsEvolved(w.reqs[r], r, w.insts[i], inst', w.limiters[w.reqs[r].lim], w.state);
      }
    }
    forall k | 0 <= k < |w'.trail|
      ensures TrailOk(w', k)
    {
      TrailKept(w, i, inst', k);
    }
    hide ReqOk;
    if ProbesDone(w'.insts[w'.state]) {
      var r: nat :| IsDecider(w, r, w.state);
      assert IsDecider(w', r, w.state);
    }
  }

  lemma InstsEvolved(w: World, i: nat, inst': Inst)
    requires Core(w) && i < |w.insts| && Evolves(w.insts[i], inst')
    requires Belongs(w.insts[i], w.gens[w.origin[i]]) ==> Belongs(inst', w.gens[w.origin[i]])
    requires OnTime(inst', w.time) && inst'.Recorded() == w.insts[i].Recorded()
        && TickTaken(inst') == TickTaken(w.insts[i])
    requires inst'.SemiOpenInst? ==> inst' == w.insts[i]
    ensures var w' := w.(insts := w.insts[i := inst']);
            forall j :: 0 <= j < |w'.insts| ==> InstOk(w', j)
  {
    hide LimOk, ReqOk, TrailOk, NotStuck, Evolves, Belongs, OnTime, TickTaken, Total;
    var w' := w.(insts := w.insts[i := inst']);
    forall j | 0 <= j < |w'.insts|
      ensures InstOk(w', j)
    {
      assert InstOk(w, j);
    }
  }

  lemma FireKeeps(w: World, i: nat)
    requires Core(w) && MayFire(w, i)
    ensures Core(DoFire(w, i))
  {
    hide LimOk, ReqOk, TrailOk, NotStuck;
    assert InstOk(w, i);
    InstEvolves(w, i, w.insts[i].(timer := Buffered));
  }

  lemma GlanceKeeps(w: World, now: int)
    requires Core(w)
    ensures Core(w.(insts := w.insts[w.state := Glance(w.insts[w.state], now)]))
  {
    hide LimOk, ReqOk, TrailOk, NotStuck, Glance, Evolves, Belongs, OnTime, TickTaken;
    var inst := w.insts[w.state];
    assert InstOk(w, w.state);
    GlanceEvolves(inst, now);
    GlanceBelongs(inst, now, w.gens[w.origin[w.state]]);
    GlanceOnTime(inst, now, w.time);
    KindDecides(inst, Glance(inst, now));
    InstEvolves(w, w.state, Glance(inst, now));
  }

  // ---- A new instance takes over -----------------------------------------------------------

  /** A new instance has counted nothing. */
  ghost predicate Blank(inst: Inst) {
    && inst.Recorded() == 0
    && (inst.OpenInst? ==> inst.timer.Unfired?)
    && (inst.SemiOpenInst? ==> inst.callCount == 0 < inst.setting.config.numberOfCallsInSemiOpenState)
  }

  lemma NewInstIsBlank(to: State, setting: Setting, born: int, at: int)
    requires Usable(setting)
    ensures var inst := NewInst(to, setting, born, at);
            && Blank(inst) && Belongs(inst, setting) && inst.Kind() == to && !ProbesDone(inst)
  {
  }

  /** The world grows by an instance, and perhaps by a generation with its limiter. */
  ghost predicate Grows(w: World, w': World, inst: Inst, cause: Cause) {
    && w'.insts == w.insts + [inst] && |w'.origin| == |w.origin| + 1 && w'.origin[..|w.origin|] == w.origin
    && w'.trail == w.trail + [cause]
    && w.gens <= w'.gens && w.limiters <= w'.limiters
    && w'.reqs == w.reqs && w'.time == w.time
  }

  lemma GrownInsts(w: World, w': World, inst: Inst, cause: Cause)
    requires Core(w) && Shape(w') && Grows(w, w', inst, cause) && Blank(inst) && Belongs(inst, w'.setting)
    ensures forall i :: 0 <= i < |w'.insts| ==> InstOk(w', i)
  {
    hide LimOk, TrailOk, NotStuck, Belongs, Total, ReqFits;
    var n := |w.insts|;
    forall r | 0 <= r < |w.reqs|
      ensures Weigh(Records(n), w.reqs[r]) == 0 && Weigh(Ticks(n), w.reqs[r]) == 0 && Weigh(Permits(n), w.reqs[r]) == 0
    {
      assert ReqOk(w, r);
    }
    TotalZero(Records(n), w.reqs);
    TotalZero(Ticks(n), w.reqs);
    TotalZero(Permits(n), w.reqs);
    hide ReqOk, Weigh;
    forall i | 0 <= i < |w'.insts|
      ensures InstOk(w', i)
    {
      if i < n {
        assert InstOk(w, i);
        assert w'.origin[i] == w'.origin[..n][i];
      }
    }
  }

  lemma NewLimiterOk(reqs: seq<Req>, l: nat, setting: Setting)
    requires forall r :: 0 <= r < |reqs| ==> reqs[r].lim != l
    ensures LimOk(reqs, l, LimiterFor(setting), setting)
  {
    TotalZero(Held(l), reqs);
    TotalZero(Counted(l), reqs);
  }

  lemma GrownLimiters(w: World, w': World, inst: Inst, cause: Cause)
    requires Core(w) && Shape(w') && Grows(w, w', inst, cause)
    requires forall l :: |w.gens| <= l < |w'.gens| ==> w'.limiters[l] == LimiterFor(w'.gens[l])
    ensures forall l :: 0 <= l < |w'.limiters| ==> LimOk(w'.reqs, l, w'.limiters[l], w'.gens[l])
  {
    hide InstOk, TrailOk, NotStuck, ReqFits, LimiterFor;
    forall l | 0 <= l < |w'.limiters|
      ensures LimOk(w'.reqs, l, w'.limiters[l], w'.gens[l])
    {
      hide LimOk;
      if l < |w.limiters| {
        assert LimOk(w.reqs, l, w.limiters[l], w.gens[l]);
      } else {
        forall r | 0 <= r < |w.reqs|
          ensures w.reqs[r].lim != l
        {
          assert ReqOk(w, r);
        }
        NewLimiterOk(w.reqs, l, w'.gens[l]);
      }
    }
  }

  /** Nothing a request relies on changes when the breaker moves on to a later instance. */
  lemma FitsLater(q: Req, r: nat, inst: Inst, lim: Limiter, state: nat, later: nat)
    requires ReqFits(q, r, inst, lim, state) && state <= later
    ensures ReqFits(q, r, inst, lim, later)
  {
    hide Evolves, StateSpec.Verdict, Waits, HasPermission;
  }

  lemma GrownReqs(w: World, w': World, inst: Inst, cause: Cause)
    requires Core(w) && Shape(w') && Grows(w, w', inst, cause)
    ensures forall r :: 0 <= r < |w'.reqs| ==> ReqOk(w', r)
  {
    hide LimOk, InstOk, TrailOk, NotStuck, ReqFits;
    forall r | 0 <= r < |w'.reqs|
      ensures ReqOk(w', r)
    {
      assert ReqOk(w, r);
      var q := w.reqs[r];
      FitsLater(q, r, w.insts[q.inst], w.limiters[q.lim], w.state, w'.state);
      assert w'.origin[q.inst] == w'.origin[..|w.origin|][q.inst];
    }
  }

  lemma TrailGrows(w: World, w': World, inst: Inst, cause: Cause, k: nat)
    requires Shape(w) && Shape(w') && Grows(w, w', inst, cause) && k < |w.trail| && TrailOk(w, k)
    ensures TrailOk(w', k)
  {
    hide Evolves, StateSpec.Verdict;
    assert w'.origin[k] == w'.origin[..|w.origin|][k] && w'.origin[k + 1] == w'.origin[..|w.origin|][k + 1];
  }

  lemma GrowthKeeps(w: World, w': World, inst: Inst, cause: Cause)
    requires Core(w) && Shape(w') && Grows(w, w', inst, cause)
    requires Blank(inst) && !ProbesDone(inst) && Belongs(inst, w'.setting)
    requires forall l :: |w.gens| <= l < |w'.gens| ==> w'.limiters[l] == LimiterFor(w'.gens[l])
    requires TrailOk(w', |w.trail|)
    ensures Core(w')
  {
    hide InstOk, LimOk, ReqOk, Blank, Belongs, TrailOk, LimiterFor, ProbesDone;
    GrownInsts(w, w', inst, cause);
    GrownLimiters(w, w', inst, cause);
    GrownReqs(w, w', inst, cause);
    forall k | 0 <= k < |w'.trail|
      ensures TrailOk(w', k)
    {
      if k < |w.trail| {
        TrailGrows(w, w', inst, cause, k);
      }
    }
  }

  /** Whoever installs an instance must give a cause that the instance left behind bears out. */
  ghost predicate CauseOk(cause: Cause, left: Inst, to: State) {
    match cause
    case Won(_, at) => left.OpenInst? && left.timer.Taken? && to == SemiOpen && at >= left.since + left.wait
    case Judged(_, seen, reason) => JudgedOn(seen, left, Decision(to, reason))
    case Forced => to == ForcedOpen || to == ForcedClosed
    case WasReset => to == Closed
    case Reconfigured => false
  }

  lemma InstallKeeps(w: World, to: State, cause: Cause, now: int, born: int)
    requires Core(w) && CauseOk(cause, w.insts[w.state], to)
    ensures Core(Install(w, to, cause, now, born))
  {
    hide InstOk, LimOk, ReqOk, TrailOk, NotStuck, Glance, NewInst, Usable;
    var left := Glance(w.insts[w.state], now);
    var w1 := w.(insts := w.insts[w.state := left]);
    var inst := NewInst(to, w.setting, born, w.time);
    var w2 := Install(w, to, cause, now, born);
    GlanceKeeps(w, now);
    NewInstIsBlank(to, w.setting, born, w.time);
    CauseSurvives(cause, w.insts[w.state], to, now);
    InstalledTrail(w1, w2, inst, cause, to);
    hide Blank, Belongs, ProbesDone, CauseOk;
    GrowthKeeps(w1, w2, inst, cause);
  }

  lemma CauseSurvives(cause: Cause, left: Inst, to: State, now: int)
    ensures CauseOk(cause, left, to) ==> CauseOk(cause, Glance(left, now), to)
  {
    hide StateSpec.Verdict, Evolves;
    GlanceEvolves(left, now);
    KindDecides(left, Glance(left, now));
    EvolvesKind(left, Glance(left, now));
    if cause.Judged? && CauseOk(cause, left, to) {
      EvolvesTransitive(cause.seen, left, Glance(left, now));
    }
  }

  lemma InstalledTrail(w: World, w': World, inst: Inst, cause: Cause, to: State)
    requires Shape(w) && Shape(w') && Grows(w, w', inst, cause) && inst.Kind() == to
    requires w'.origin[|w.origin|] == w.limiter
    ensures CauseOk(cause, w.insts[w.state], to) ==> TrailOk(w', |w.trail|)
  {
    hide StateSpec.Verdict, Evolves;
    assert w'.origin[w.state] == w'.origin[..|w.origin|][w.state];
  }

  lemma UpdateKeeps(w: World, config: Option<Config>, born: int)
    requires Core(w)
    ensures Core(Reconfigure(w, config, born))
  {
    hide InstOk, LimOk, ReqOk, TrailOk, NotStuck, NewInst, Usable, FillConfig;
    var w' := Reconfigure(w, config, born);
    if w' != w {
      var s := Fill(config.value);
      FilledIsUsable(config.value);
      NewInstIsBlank(Closed, s, born, w.time);
      ReconfiguredTrail(w, w', s, born);
      hide Blank, Belongs, ProbesDone;
      GrowthKeeps(w, w', NewInst(Closed, s, born, w.time), Reconfigured);
    }
  }

  lemma ReconfiguredTrail(w: World, w': World, s: Setting, born: int)
    requires Shape(w) && Shape(w') && Usable(s) && Grows(w, w', NewInst(Closed, s, born, w.time), Reconfigured)
    requires w'.gens == w.gens + [s] && w'.origin[|w.origin|] == |w.gens| && s.config != w.setting.config
    ensures TrailOk(w', |w.trail|)
  {
    assert w'.origin[w.state] == w'.origin[..|w.origin|][w.state];
  }

  // ---- A request changes the state ---------------------------------------------------------

  /** Only the request itself changes, and nothing it is counted for. */
  lemma ReqAloneKeeps(w: World, r: nat, q': Req)
    requires Core(w) && r < |w.reqs|
    requires q'.lim == w.reqs[r].lim && q'.tick == w.reqs[r].tick && q'.unfunded == w.reqs[r].unfunded
        && !w.reqs[r].pc.Waiting?
    requires forall m: Measure :: m != Finished ==> Weigh(m, q') == Weigh(m, w.reqs[r])
    requires ReqOk(WithReq(w, r, q'), r)
    requires NotStuck(WithReq(w, r, q'))
    ensures Core(WithReq(w, r, q'))
  {
    var w' := WithReq(w, r, q');
    assert ReqOk(w, r);
    hide TrailOk, NotStuck, Weigh, Total, ReqFits, Belongs, OnTime, TickTaken, LimiterOk;
    forall i | 0 <= i < |w'.insts|
      ensures InstOk(w', i)
    {
      assert InstOk(w, i);
      TotalUpdate(Records(i), w.reqs, r, q');
      TotalUpdate(Ticks(i), w.reqs, r, q');
      TotalUpdate(Permits(i), w.reqs, r, q');
    }
    LimiterUntouched(w, r, q');
    StepsEvolve(w.insts[w.reqs[r].inst], Success, 0);
    assert Moved(w, r, q', w.insts[w.reqs[r].inst], w.limiters[q'.lim]).limiters == w.limiters;
    LimsKept(w, r, q', w.insts[w.reqs[r].inst], w.limiters[q'.lim]);
    forall s | 0 <= s < |w'.reqs|
      ensures ReqOk(w', s)
    {
      if s != r {
        assert ReqOk(w, s);
      }
    }
    forall k | 0 <= k < |w'.trail|
      ensures TrailOk(w', k)
    {
      TrailIsLocal(w, w', k);
    }
  }

  /** A decider that is no longer at the current instance is not missed there. */
  lemma NotMissed(w: World, r: nat, q': Req)
    requires w.state < |w.insts| && r < |w.reqs| && NotStuck(w)
    requires !w.reqs[r].pc.Deciding? || w.reqs[r].inst != w.state
    ensures NotStuck(WithReq(w, r, q'))
  {
    hide ProbesDone;
    var w' := WithReq(w, r, q');
    if ProbesDone(w.insts[w.state]) {
      var s: nat :| IsDecider(w, s, w.state);
      assert IsDecider(w', s, w.state);
    }
  }

  /** The holder of a tick holds it rightly: the timer has fired, and in time. */
  lemma WinnerHasTick(w: World, r: nat)
    requires Core(w) && At(w, r, Winning)
    ensures CauseOk(Won(r, w.time), w.insts[w.reqs[r].inst], SemiOpen)
  {
    hide LimOk, TrailOk, NotStuck, Belongs;
    assert ReqOk(w, r) && InstOk(w, w.reqs[r].inst);
    TotalContains(Ticks(w.reqs[r].inst), w.reqs, r);
  }

  lemma WinnerSettles(w: World, r: nat, inst: nat)
    requires Shape(w) && r < |w.reqs| && ReqOk(w, r) && w.reqs[r].pc.Winning? && w.reqs[r].inst < w.state
    requires inst < |w.insts| && w.origin[inst] == w.reqs[r].lim
    ensures var q' := w.reqs[r].(pc := Checked, inst := inst);
            && ReqOk(WithReq(w, r, q'), r)
            && forall m: Measure :: m != Finished ==> Weigh(m, q') == Weigh(m, w.reqs[r])
  {
  }

  lemma WinKeeps(w: World, r: nat, now: int, born: int)
    requires Core(w) && At(w, r, Winning)
    ensures Core(DoWin(w, r, now, born))
  {
    var q := w.reqs[r];
    assert ReqOk(w, r);
    WinnerHasTick(w, r);
    assert w.insts[q.inst].OpenInst?;
    hide InstOk, LimOk, TrailOk, NotStuck, StateSpec.Verdict, ReqFits, CauseOk;
    if q.inst == w.state {
      InstallKeeps(w, SemiOpen, Won(r, w.time), now, born);
    }
    var (w', inst) := Transition(w, q.inst, SemiOpen, WaitInOpenElapsed, Won(r, w.time), now, born);
    assert ReqOk(w', r);
    WinnerSettles(w', r, inst);
    NotMissed(w', r, q.(pc := Checked, inst := inst));
    hide ReqOk;
    ReqAloneKeeps(w', r, q.(pc := Checked, inst := inst));
  }

  lemma VerdictReasons(inst: Inst)
    ensures StateSpec.Verdict(inst).Some? ==>
              StateSpec.Verdict(inst).value.reason != ManualTransition && StateSpec.Verdict(inst).value.reason != Reset
  {
    hide NewSnapshot;
    if inst.ClosedInst? || inst.SemiOpenInst? {
      ExceededReasons(inst.setting.checkers, SnapshotOf(inst), inst.setting.config);
    }
  }

  lemma {:induction false} ExceededReasons(checkers: seq<HealthChecker>, s: Snapshot, c: Config)
    ensures FirstExceeded(checkers, s, c).1 != ManualTransition && FirstExceeded(checkers, s, c).1 != Reset
  {
    if checkers != [] {
      ExceededReasons(checkers[1..], s, c);
    }
  }

  /** A decision is acted upon exactly when its instance is still the current one. */
  lemma DecisionApplies(w: World, r: nat)
    requires Core(w) && Placed(w, r) && w.reqs[r].pc.Deciding?
    ensures var q := w.reqs[r];
            TransitionAllowed(q.inst == w.state, w.insts[q.inst].Kind(), q.pc.to, q.pc.reason) <==> q.inst == w.state
  {
    hide InstOk, LimOk, TrailOk, NotStuck, StateSpec.Verdict;
    var q := w.reqs[r];
    assert ReqOk(w, r);
    EvolvesKind(q.pc.seen, w.insts[q.inst]);
    DecisionsAreValid(q.pc.seen);
    VerdictReasons(q.pc.seen);
  }

  lemma DeciderSettles(w: World, r: nat)
    requires Core(w) && Placed(w, r) && w.reqs[r].pc.Deciding? && w.reqs[r].inst < w.state
    ensures var q' := w.reqs[r].(pc := Concluded(true, w.reqs[r].pc.outcome));
            && ReqOk(WithReq(w, r, q'), r)
            && forall m: Measure :: m != Finished ==> Weigh(m, q') == Weigh(m, w.reqs[r])
  {
    hide InstOk, LimOk, TrailOk, NotStuck, StateSpec.Verdict;
    assert ReqOk(w, r);
  }

  lemma DecideKeeps(w: World, r: nat, now: int, born: int)
    requires Core(w) && Placed(w, r) && w.reqs[r].pc.Deciding?
    ensures Core(DoDecide(w, r, now, born))
    ensures DoDecide(w, r, now, born).state > w.reqs[r].inst
  {
    var q := w.reqs[r];
    assert ReqOk(w, r);
    DecisionApplies(w, r);
    hide InstOk, LimOk, TrailOk, NotStuck, StateSpec.Verdict;
    var cause := Judged(r, q.pc.seen, q.pc.reason);
    if q.inst == w.state {
      InstallKeeps(w, q.pc.to, cause, now, born);
    }
    hide ReqFits, TransitionAllowed;
    var (w', _) := Transition(w, q.inst, q.pc.to, q.pc.reason, cause, now, born);
    assert ReqOk(w', r);
    DeciderSettles(w', r);
    NotMissed(w', r, q.(pc := Concluded(true, q.pc.outcome)));
    hide ReqOk;
    ReqAloneKeeps(w', r, q.(pc := Concluded(true, q.pc.outcome)));
  }

  // ---- New requests and the passing of time ------------------------------------------------

  lemma EnterKeeps(w: World, weight: nat)
    requires Core(w)
    ensures Core(DoEnter(w, weight))
  {
    var w' := DoEnter(w, weight);
    var q := w'.reqs[|w.reqs|];
    hide TrailOk, ReqFits, Total, Belongs, OnTime, TickTaken;
    forall i | 0 <= i < |w'.insts|
      ensures InstOk(w', i)
    {
      assert InstOk(w, i);
      TotalSnoc(Records(i), w.reqs, q);
      TotalSnoc(Ticks(i), w.reqs, q);
      TotalSnoc(Permits(i), w.reqs, q);
    }
    EnterLimiters(w, weight);
    EnterReqs(w, weight);
    forall k | 0 <= k < |w'.trail|
      ensures TrailOk(w', k)
    {
      TrailIsLocal(w, w', k);
    }
    hide InstOk, LimOk, ReqOk;
    if ProbesDone(w'.insts[w'.state]) {
      var r: nat :| IsDecider(w, r, w.state);
      assert IsDecider(w', r, w.state);
    }
  }

  lemma EnterReqs(w: World, weight: nat)
    requires Core(w)
    ensures forall r :: 0 <= r < |DoEnter(w, weight).reqs| ==> ReqOk(DoEnter(w, weight), r)
  {
    var w' := DoEnter(w, weight);
    assert ReqFits(w'.reqs[|w.reqs|], |w.reqs|, w.insts[w.state], w.limiters[w.limiter], w.state);
    hide LimOk, InstOk, TrailOk, NotStuck, ReqFits;
    forall r | 0 <= r < |w'.reqs|
      ensures ReqOk(w', r)
    {
      if r < |w.reqs| {
        assert ReqOk(w, r);
      }
    }
  }

  lemma EnterLimiters(w: World, weight: nat)
    requires Core(w)
    ensures var w' := DoEnter(w, weight);
            forall l :: 0 <= l < |w'.limiters| ==> LimOk(w'.reqs, l, w'.limiters[l], w'.gens[l])
  {
    hide InstOk, ReqOk, TrailOk, NotStuck, LimiterOk, LimiterSpec.Weight, Total;
    var w' := DoEnter(w, weight);
    var q := w'.reqs[|w.reqs|];
    forall l | 0 <= l < |w'.limiters|
      ensures LimOk(w'.reqs, l, w'.limiters[l], w'.gens[l])
    {
      assert LimOk(w.reqs, l, w.limiters[l], w.gens[l]);
      TotalSnoc(Held(l), w.reqs, q);
      TotalSnoc(Counted(l), w.reqs, q);
      assert Funded(w'.reqs, l) ==> Funded(w.reqs, l) by {
        assert forall r :: 0 <= r < |w.reqs| ==> w'.reqs[r] == w.reqs[r];
      }
    }
  }

  lemma PassKeeps(w: World, duration: nat)
    requires Core(w)
    ensures Core(w.(time := w.time + duration))
  {
    hide LimOk, ReqFits, Belongs, Tallies, ProbesDone;
    var w' := w.(time := w.time + duration);
    assert forall i :: 0 <= i < |w'.insts| ==> InstOk(w, i) && InstOk(w', i);
    assert forall r :: 0 <= r < |w'.reqs| ==> ReqOk(w, r) && ReqOk(w', r);
    forall k | 0 <= k < |w'.trail|
      ensures TrailOk(w', k)
    {
      TrailIsLocal(w, w', k);
    }
    hide TrailOk, InstOk, ReqOk;
    if ProbesDone(w'.insts[w'.state]) {
      var r: nat :| IsDecider(w, r, w.state);
      assert IsDecider(w', r, w.state);
    }
  }

  // ---- Reports -----------------------------------------------------------------------------

  /** No report is due: the request that moves is not finished, before or after. */
  lemma NoReport(reqs: seq<Req>, r: nat, q': Req, reports: seq<Report>)
    requires r < |reqs| && ReportsOk(reqs, reports) && !reqs[r].pc.Done? && !q'.pc.Done?
    ensures ReportsOk(reqs[r := q'], reports)
  {
    hide Total;
    TotalUpdate(Finished, reqs, r, q');
  }

  /** A request that finishes is reported, once. */
  lemma OneReport(reqs: seq<Req>, r: nat, q': Req, reports: seq<Report>, count: int)
    requires r < |reqs| && ReportsOk(reqs, reports) && !reqs[r].pc.Done? && q'.pc.Done?
    ensures ReportsOk(reqs[r := q'], reports + [Report(r, q'.pc.outcome, count)])
  {
    hide Total;
    TotalUpdate(Finished, reqs, r, q');
  }

  lemma NewcomerReport(reqs: seq<Req>, q: Req, reports: seq<Report>)
    requires ReportsOk(reqs, reports) && !q.pc.Done?
    ensures ReportsOk(reqs + [q], reports)
  {
    hide Total;
    TotalSnoc(Finished, reqs, q);
  }

  function Mover(a: Action): Option<nat> {
    match a
    case CheckStart(r) => Some(r)
    case Win(r, _, _) => Some(r)
    case AskPermission(r) => Some(r)
    case CountAttempt(r) => Some(r)
    case TakeTokens(r) => Some(r)
    case Wake(r) => Some(r)
    case GiveUp(r) => Some(r)
    case ReturnPermission(r) => Some(r)
    case ReportRejected(r, _) => Some(r)
    case BeginExit(r) => Some(r)
    case ReturnTokens(r) => Some(r)
    case RecordOutcome(r, _, _, _) => Some(r)
    case Decide(r, _, _) => Some(r)
    case ReportDone(r) => Some(r)
    case _ => None
  }

  /** The number of concurrent calls that request r would report. */
  function CountSeenBy(w: World, r: nat): int
    requires Placed(w, r)
  {
    ConcurrentCalls(w.insts[w.reqs[r].inst], w.limiters[w.reqs[r].lim])
  }

  /** Every step changes at most one request, and reports only one that finishes. */
  lemma StepIsLocal(w: World, a: Action)
    requires Enabled(w, a)
    ensures var w' := Step(w, a);
            match Mover(a)
            case Some(r) =>
              && r < |w.reqs| && !w.reqs[r].pc.Done? && |w'.reqs| == |w.reqs| && w'.reqs == w.reqs[r := w'.reqs[r]]
              && Placed(w, r)
              && (if w'.reqs[r].pc.Done? then
                    w'.reports == w.reports + [Report(r, w'.reqs[r].pc.outcome, CountSeenBy(w, r))]
                  else w'.reports == w.reports)
            case None =>
              && w'.reports == w.reports
              && (w'.reqs == w.reqs || (a.Enter?
              && w'.reqs == w.reqs + [Req(Snapped, w.state, w.limiter, w.setting, a.weight, None, false, None)]))
  {
    hide StartDecision, AcquirePermission, TryAcquire, Expire, Resume, Release, Record, Glance, StateSpec.Verdict,
         Classify, NewInst, Find;
  }

  // ---- Every step, every run ---------------------------------------------------------------

  lemma StepKeepsCore(w: World, a: Action)
    requires Core(w) && Enabled(w, a)
    ensures Core(Step(w, a))
  {
    hide InstOk, LimOk, ReqOk, TrailOk, NotStuck;
    match a {
      case Enter(weight) => EnterKeeps(w, weight);
      case CheckStart(r) => CheckStartKeeps(w, r);
      case Win(r, now, born) => WinKeeps(w, r, now, born);
      case AskPermission(r) => AskPermissionKeeps(w, r);
      case CountAttempt(r) => CountAttemptKeeps(w, r);
      case TakeTokens(r) => TakeTokensKeeps(w, r);
      case Wake(r) => WakeKeeps(w, r);
      case GiveUp(r) => GiveUpKeeps(w, r);
      case ReturnPermission(r) => ReturnPermissionKeeps(w, r);
      case ReportRejected(r, now) => ReportRejectedKeeps(w, r, now);
      case BeginExit(r) => BeginExitKeeps(w, r);
      case ReturnTokens(r) => ReturnTokensKeeps(w, r);
      case RecordOutcome(r, runError, elapsed, now) => RecordOutcomeKeeps(w, r, runError, elapsed, now);
      case Decide(r, now, born) => DecideKeeps(w, r, now, born);
      case ReportDone(r) => ReportDoneKeeps(w, r);
      case Fire(i) => FireKeeps(w, i);
      case Pass(duration) => PassKeeps(w, duration);
      case Force(to, now, born) => InstallKeeps(w, to, Forced, now, born);
      case ResetBreaker(now, born) => InstallKeeps(w, Closed, WasReset, now, born);
      case Update(config, born) => UpdateKeeps(w, config, born);
    }
  }

  /** Every step keeps the invariant. */
  lemma StepKeepsInvariant(w: World, a: Action)
    requires Inv(w)
    ensures Inv(Step(w, a))
  {
    if Enabled(w, a) {
      StepKeepsCore(w, a);
      StepIsLocal(w, a);
      hide Core, ReportsOk, Step;
      var w' := Step(w, a);
      if Mover(a).Some? {
        var r := Mover(a).value;
        if w'.reqs[r].pc.Done? {
          OneReport(w.reqs, r, w'.reqs[r], w.reports, CountSeenBy(w, r));
        } else {
          NoReport(w.reqs, r, w'.reqs[r], w.reports);
        }
      } else if w'.reqs != w.reqs {
        NewcomerReport(w.reqs, w'.reqs[|w.reqs|], w.reports);
      }
    }
  }

  /** A new breaker satisfies the invariant. */
  lemma StartSatisfiesInvariant(config: Config, born: int, time: int)
    requires ValidConfig(config)
    ensures Inv(Start(config, born, time))
  {
    FilledIsUsable(config);
    NewInstIsBlank(Closed, Fill(config), born, time);
    NewLimiterOk([], 0, Fill(config));
    hide NewInst, LimiterFor, FillConfig, Checkers, Usable;
  }

  /** Every reachable world satisfies it. */
  lemma {:induction false} RunKeepsInvariant(w: World, actions: seq<Action>)
    requires Inv(w)
    ensures Inv(Run(w, actions))
  {
    hide Inv, Step;
    if actions != [] {
      RunKeepsInvariant(w, actions[..|actions| - 1]);
      StepKeepsInvariant(Run(w, actions[..|actions| - 1]), actions[|actions| - 1]);
    }
  }

  lemma ReachableSatisfiesInvariant(w: World)
    requires Reachable(w)
    ensures Inv(w)
  {
    hide Inv;
    var config: Config, born: int, time: int, actions: seq<Action> :|
      ValidConfig(config) && w == Run(Start(config, born, time), actions);
    StartSatisfiesInvariant(config, born, time);
    RunKeepsInvariant(Start(config, born, time), actions);
  }
}
