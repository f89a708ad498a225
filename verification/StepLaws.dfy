/** What each step of the protocol does to the request that takes it, in the fields of its instance and its
    limiter: who is let in, who is turned away and with which error, and who changes the state. */
module StepLaws {
  import opened Outcomes
  import opened WindowSpec
  import opened Config
  import opened LimiterSpec
  import opened StateSpec
  import opened Protocol
  import opened Accounting
  import opened Invariant
  import opened BreakerSteps
  import opened Runs
  import Safety

  // ---- Instances ---------------------------------------------------------------------------

  /** An instance that has seen nothing yet. */
  ghost predicate Fresh(inst: Inst, to: State, setting: Setting, born: int, at: int) {
    && inst.Kind() == to && inst.Counts() == ZERO
    && (inst.SemiOpenInst? ==>
          && inst.probes.log == [] && inst.probes.capacity == setting.config.numberOfCallsInSemiOpenState
          && inst.callCount == 0)
    && (!inst.SemiOpenInst? ==>
          && inst.window.log == [] && inst.window.clock == born
          && inst.window.capacity == setting.config.slidingWindowSize)
    && (inst.OpenInst? ==>
          && inst.timer.Unfired? && inst.since == at && inst.wait == setting.config.waitDurationInOpenState)
    && (!inst.OpenInst? ==> inst.setting == setting)
  }

  lemma NewInstIsFresh(to: State, setting: Setting, born: int, at: int)
    requires Usable(setting)
    ensures Fresh(NewInst(to, setting, born, at), to, setting, born, at)
  {
  }

  /** Looking at a window moves its ring, to the present or, if that lies behind it, by one second; it takes
      nothing off the log. */
  lemma GlanceMovesTheRing(inst: Inst, now: int)
    ensures var seen := Glance(inst, now);
            && seen.Kind() == inst.Kind()
            && (inst.SemiOpenInst? ==> seen == inst)
            && (!inst.SemiOpenInst? ==>
                  && seen.window.log == inst.window.log && seen.window.capacity == inst.window.capacity
                  && seen.window.clock == (if now < inst.window.clock then inst.window.clock + 1 else now)
                  && seen == inst.(window := seen.window))
  {
  }

  /** The automatic transitions. */
  lemma AutomaticTransitions(from: State, to: State)
    ensures ValidAutomatic(from, to) <==>
            (from, to) in {(Closed, Open), (Open, SemiOpen), (SemiOpen, Closed), (SemiOpen, Open)}
  {
  }

  /** A new breaker is closed and has nothing behind it. */
  lemma StartsClosed(config: Config, born: int, time: int)
    requires ValidConfig(config)
    ensures var w := Start(config, born, time);
            && w.setting == Fill(config) && w.time == time
            && |w.insts| == |w.limiters| == 1 && w.state == w.limiter == 0
            && Fresh(w.insts[0], Closed, w.setting, born, time)
            && w.limiters[0].size == w.setting.config.maxConcurrentCalls
            && w.limiters[0].maxWait == w.setting.config.maxWaitDurationMillis
            && w.limiters[0].cur == w.limiters[0].uncapped == 0 && Pending(w.limiters[0]) == []
            && w.reqs == [] && w.reports == [] && w.trail == []
  {
    hide NewInst, FillConfig, Checkers;
    FilledIsUsable(config);
    NewInstIsFresh(Closed, Fill(config), born, time);
  }

  // ---- On the way in -----------------------------------------------------------------------

  /** A request captures the newest instance, limiter and setting; nothing else changes. */
  lemma EnterTakesTheNewest(w: World, weight: nat)
    requires Inv(w)
    ensures var w' := Step(w, Enter(weight));
            && w' == w.(reqs := w'.reqs) && |w'.reqs| == |w.reqs| + 1 && w'.reqs[..|w.reqs|] == w.reqs
            && var q := w'.reqs[|w.reqs|];
               && q.pc.Snapped? && q.inst == |w.insts| - 1 && q.lim == |w.limiters| - 1
               && q.setting == w.gens[|w.gens| - 1] && q.weight == weight
               && q.tick.None? && !q.unfunded && q.call.None?
  {
    hide InstOk, LimOk, ReqOk, TrailOk, NotStuck, ReportsOk;
  }

  /** Nothing but one request and its own instance and limiter. */
  predicate OnlyOwn(w: World, w': World, r: nat)
    requires Placed(w, r)
  {
    var i, l := w.reqs[r].inst, w.reqs[r].lim;
    && |w'.reqs| == |w.reqs| && |w'.insts| == |w.insts| && |w'.limiters| == |w.limiters|
    && w' == w.(reqs := w.reqs[r := w'.reqs[r]], insts := w.insts[i := w'.insts[i]],
                limiters := w.limiters[l := w'.limiters[l]])
  }

  /** A request starts with a transition if and only if it captured an Open instance whose tick lies in the
      channel, and then it takes the tick. */
  lemma StartTakesTickIff(w: World, r: nat)
    requires At(w, r, Snapped)
    ensures var w' := Step(w, CheckStart(r));
            OnlyOwn(w, w', r)
            && var inst, inst', pc := w.insts[w.reqs[r].inst], w'.insts[w.reqs[r].inst], w'.reqs[r].pc;
               && w'.limiters == w.limiters && w'.reqs[r] == w.reqs[r].(pc := pc, tick := w'.reqs[r].tick)
               && (pc.Winning? <==> inst.OpenInst? && inst.timer.Buffered?)
               && (pc.Winning? ==>
                     inst' == inst.(timer := Taken) && w'.reqs[r].tick == Some(w.reqs[r].inst))
               && (!pc.Winning? ==> pc.Checked? && w'.insts == w.insts && w'.reqs[r].tick == w.reqs[r].tick)
  {
  }

  /** The tick of an Open instance can come once, as soon as its waiting time is over. */
  lemma TickComesIff(w: World, i: nat)
    requires Inv(w) && i < |w.insts|
    ensures Enabled(w, Fire(i)) <==>
            && w.insts[i].OpenInst? && w.insts[i].timer.Unfired?
            && w.time >= w.insts[i].since + w.gens[w.origin[i]].config.waitDurationInOpenState
    ensures Enabled(w, Fire(i)) ==>
              Step(w, Fire(i)) == w.(insts := w.insts[i := w.insts[i].(timer := Buffered)])
  {
    hide LimOk, ReqOk, TrailOk, NotStuck, ReportsOk, Tallies;
    assert InstOk(w, i);
  }

  /** The request that took a tick changes the state if its instance is still current, and goes on with the
      SemiOpen instance it has installed; else it keeps the instance it has and the breaker is left alone. */
  lemma WinnerGoesOn(w: World, r: nat, now: int, born: int)
    requires Inv(w) && At(w, r, Winning)
    ensures var q, w' := w.reqs[r], Step(w, Win(r, now, born));
            |w'.reqs| == |w.reqs|
            && var q' := w'.reqs[r];
               && q'.pc.Checked? && q' == q.(pc := Checked, inst := q'.inst)
               && (if q.inst == w.state then
                     && q'.inst == w'.state == |w.insts| && |w'.insts| == |w.insts| + 1
                     && Fresh(w'.insts[w'.state], SemiOpen, w.setting, born, w.time)
                   else q'.inst == q.inst && w' == w.(reqs := w'.reqs))
  {
    hide InstOk, LimOk, TrailOk, NotStuck, ReportsOk, NewInst, Glance;
    assert ReqOk(w, r);
    assert w.insts[w.reqs[r].inst].OpenInst?;
    hide ReqOk;
    NewInstIsFresh(SemiOpen, w.setting, born, w.time);
    hide Fresh;
  }

  /** The way back from Open: when the waiting time is over and the tick has come, the next request moves
      the breaker to SEMI_OPEN and is the first to get its permission there. */
  lemma OpenRecovers(w: World, duration: nat, weight: nat, now: int, born: int)
    requires Inv(w) && w.insts[w.state].OpenInst? && w.insts[w.state].timer.Unfired?
    requires w.time + duration >= w.insts[w.state].since + w.setting.config.waitDurationInOpenState
    ensures var r := |w.reqs|;
            var w' := Run(w, [Pass(duration), Fire(w.state), Enter(weight), CheckStart(r), Win(r, now, born),
                              AskPermission(r)]);
            && At(w', r, Permitted) && w'.reqs[r].inst == w'.state == |w.insts|
            && w'.insts[w'.state].SemiOpenInst? && w'.insts[w'.state].callCount == 1
  {
    hide Step, Run, LimOk, ReqOk, TrailOk, NotStuck, ReportsOk, InstOk;
    var r, i := |w.reqs|, w.state;
    var w1 := Step(w, Pass(duration));
    StepKeepsInvariant(w, Pass(duration));
    TimePasses(w, duration);
    TickComesIff(w1, i);
    StepKeepsInvariant(w1, Fire(i));
    var actions := [Enter(weight), CheckStart(r), Win(r, now, born), AskPermission(r)];
    TickedEnter(Step(w1, Fire(i)), weight, now, born);
    RunCons(w1, Fire(i), actions);
    RunCons(w, Pass(duration), [Fire(i)] + actions);
    assert [Pass(duration)] + ([Fire(i)] + actions) ==
           [Pass(duration), Fire(i), Enter(weight), CheckStart(r), Win(r, now, born), AskPermission(r)];
  }

  lemma TimePasses(w: World, duration: nat)
    ensures Step(w, Pass(duration)) == w.(time := w.time + duration)
  {
  }

  lemma TickedEnter(w: World, weight: nat, now: int, born: int)
    requires Inv(w) && w.insts[w.state].OpenInst? && w.insts[w.state].timer.Buffered?
    ensures var r := |w.reqs|;
            var w' := Run(w, [Enter(weight), CheckStart(r), Win(r, now, born), AskPermission(r)]);
            && At(w', r, Permitted) && w'.reqs[r].inst == w'.state == |w.insts|
            && w'.insts[w'.state].SemiOpenInst? && w'.insts[w'.state].callCount == 1
  {
    hide Step, Run, LimOk, ReqOk, TrailOk, NotStuck, ReportsOk, InstOk;
    var r := |w.reqs|;
    EnterTakesTheNewest(w, weight);
    StepKeepsInvariant(w, Enter(weight));
    TickedStart(Step(w, Enter(weight)), r, now, born);
    var actions := [CheckStart(r), Win(r, now, born), AskPermission(r)];
    RunCons(w, Enter(weight), actions);
    assert [Enter(weight)] + actions == [Enter(weight), CheckStart(r), Win(r, now, born), AskPermission(r)];
  }

  lemma TickedStart(w: World, r: nat, now: int, born: int)
    requires Inv(w) && At(w, r, Snapped) && w.reqs[r].inst == w.state
    requires w.insts[w.state].OpenInst? && w.insts[w.state].timer.Buffered?
    ensures var w' := Run(w, [CheckStart(r), Win(r, now, born), AskPermission(r)]);
            && At(w', r, Permitted) && w'.reqs[r].inst == w'.state == |w.insts|
            && w'.insts[w'.state].SemiOpenInst? && w'.insts[w'.state].callCount == 1
  {
    hide Step, Run, LimOk, ReqOk, TrailOk, NotStuck, ReportsOk, InstOk;
    var a, b, c := CheckStart(r), Win(r, now, born), AskPermission(r);
    var w1 := Step(w, a);
    StartTakesTickIff(w, r);
    StepKeepsInvariant(w, a);
    var w2 := Step(w1, b);
    WinnerGoesOn(w1, r, now, born);
    StepKeepsInvariant(w1, b);
    Safety.CapturesOneGeneration(w2, r);
    FirstProbe(w2, r);
    RunCons(w1, b, [c]);
    RunCons(w, a, [b, c]);
    assert [a] + [b, c] == [a, b, c] && [b] + [c] == [b, c];
  }

  lemma FirstProbe(w: World, r: nat)
    requires At(w, r, Checked) && w.insts[w.reqs[r].inst].SemiOpenInst?
    requires var inst := w.insts[w.reqs[r].inst];
             inst.callCount == 0 < inst.setting.config.numberOfCallsInSemiOpenState
    ensures var i, w' := w.reqs[r].inst, Run(w, [AskPermission(r)]);
            && At(w', r, Permitted) && w'.reqs[r].inst == i && w'.state == w.state
            && w'.insts[i].SemiOpenInst? && w'.insts[i].callCount == 1
  {
    assert [AskPermission(r)][..0] == [];
    assert Run(w, [AskPermission(r)]) == Step(w, AskPermission(r));
  }

  // ---- Permission --------------------------------------------------------------------------

  /** Who gets a permission. A SemiOpen instance gives one if and only if the probes under way and those it
      has recorded are fewer than it allows; Closed and ForcedClosed give it to everybody, Open and ForcedOpen
      to nobody. */
  lemma PermissionGrantedIff(w: World, r: nat)
    requires Inv(w) && At(w, r, Checked)
    ensures var i := w.reqs[r].inst;
            var inst, w' := w.insts[i], Step(w, AskPermission(r));
            OnlyOwn(w, w', r) && w'.limiters == w.limiters && w'.reqs[r] == w.reqs[r].(pc := w'.reqs[r].pc)
            && (w'.reqs[r].pc == Permitted <==>
                  || inst.ClosedInst? || inst.ForcedClosedInst?
                  || (inst.SemiOpenInst? &&
                      Total(Probing(i), w.reqs) + |inst.probes.log| < inst.setting.config.numberOfCallsInSemiOpenState))
            && (w'.reqs[r].pc != Permitted ==>
                  && w'.insts == w.insts
                  && w'.reqs[r].pc == Rejected(if inst.OpenInst? then ErrCircuitOpen
                                               else if inst.SemiOpenInst? then ErrMaxPermittedCalls
                                               else ErrCircuitForcedOpen))
  {
    hide Inv, Total;
    if w.insts[w.reqs[r].inst].SemiOpenInst? {
      Safety.ProbesAreExact(w, w.reqs[r].inst);
    }
  }

  // ---- Tokens ------------------------------------------------------------------------------

  /** Who gets tokens at once, who waits for them, and who is refused. The weight is free if it is no more than
      what is left and nobody waits. A call that gets none goes on without, where concurrency is not
      checked. */
  lemma TokensTakenIff(w: World, r: nat)
    requires Inv(w) && At(w, r, Attempted)
    ensures var q := w.reqs[r];
            var inst, lim, w' := w.insts[q.inst], w.limiters[q.lim], Step(w, TakeTokens(r));
            OnlyOwn(w, w', r) && w'.insts == w.insts
            && var q' := w'.reqs[r];
               var free := lim.NoOp() || (q.weight <= lim.size - lim.cur && lim.queue == []);
               var patient := q.weight <= lim.size && lim.maxWait > 0;
               && q' == q.(pc := q'.pc, unfunded := q'.unfunded)
               && (q'.pc.Running? && !q'.unfunded <==> free)
               && (q'.pc.Waiting? <==> !free && patient)
               && (q'.pc.Refused? <==> !free && !patient && inst.ChecksConcurrency())
               && (q'.pc.Running? && q'.unfunded <==> !free && !patient && inst.ForcedClosedInst?)
  {
    hide InstOk, LimOk, TrailOk, NotStuck, ReportsOk;
    assert ReqOk(w, r);
  }

  /** A wait ends with tokens if and only if the waiter has been let through, whether or not its time is up. */
  lemma WaitEndsWithTokensIff(w: World, r: nat)
    requires Inv(w) && At(w, r, Waiting)
    ensures var q := w.reqs[r];
            var letThrough := exists k :: 0 <= k < |w.limiters[q.lim].ready| && w.limiters[q.lim].ready[k].id == r;
            && (Enabled(w, Wake(r)) <==> letThrough) && Enabled(w, GiveUp(r))
            && (letThrough ==> Step(w, Wake(r)) == Step(w, GiveUp(r)))
            && var w' := Step(w, GiveUp(r));
               OnlyOwn(w, w', r) && w'.insts == w.insts
               && var q' := w'.reqs[r];
                  && q' == q.(pc := q'.pc, unfunded := q'.unfunded)
                  && (q'.pc.Running? && !q'.unfunded <==> letThrough)
                  && (q'.pc.Refused? <==> !letThrough && w.insts[q.inst].ChecksConcurrency())
                  && (q'.pc.Running? && q'.unfunded <==> !letThrough && w.insts[q.inst].ForcedClosedInst?)
  {
    hide InstOk, LimOk, TrailOk, NotStuck, ReportsOk;
    assert ReqOk(w, r);
  }

  // ---- State changes -----------------------------------------------------------------------

  /** The breaker goes on with a fresh instance of the given kind. */
  ghost predicate MovesTo(w: World, w': World, to: State, cause: Cause, now: int, born: int)
    requires w.state < |w.insts|
  {
    && w'.state == |w.insts| && |w'.insts| == |w.insts| + 1
    && Fresh(w'.insts[w'.state], to, w.setting, born, w.time)
    && w'.insts[..|w.insts|] == w.insts[w.state := Glance(w.insts[w.state], now)]
    && w'.trail == w.trail + [cause]
    && w' == w.(insts := w'.insts, origin := w'.origin, state := w'.state, trail := w'.trail, reqs := w'.reqs)
  }

  /** An operator gets the state asked for, whatever the state is. */
  lemma OperatorsMove(w: World, now: int, born: int)
    requires Inv(w)
    ensures MovesTo(w, Step(w, Force(ForcedOpen, now, born)), ForcedOpen, Forced, now, born)
    ensures MovesTo(w, Step(w, Force(ForcedClosed, now, born)), ForcedClosed, Forced, now, born)
    ensures MovesTo(w, Step(w, ResetBreaker(now, born)), Closed, WasReset, now, born)
    ensures Step(w, Force(ForcedOpen, now, born)).reqs == Step(w, Force(ForcedClosed, now, born)).reqs
         == Step(w, ResetBreaker(now, born)).reqs == w.reqs
  {
    hide InstOk, LimOk, ReqOk, TrailOk, NotStuck, ReportsOk, NewInst, Glance, Fresh;
    NewInstIsFresh(ForcedOpen, w.setting, born, w.time);
    NewInstIsFresh(ForcedClosed, w.setting, born, w.time);
    NewInstIsFresh(Closed, w.setting, born, w.time);
  }

  /** A decision moves the breaker to the state decided upon if and only if its instance is current. */
  lemma DeciderMovesIff(w: World, r: nat, now: int, born: int)
    requires Inv(w) && Placed(w, r) && w.reqs[r].pc.Deciding?
    ensures var q, w' := w.reqs[r], Step(w, Decide(r, now, born));
            && w'.reqs == w.reqs[r := q.(pc := Concluded(true, q.pc.outcome))]
            && (if q.inst == w.state then
                  MovesTo(w, w', q.pc.to, Judged(r, q.pc.seen, q.pc.reason), now, born)
                else w' == w.(reqs := w'.reqs))
  {
    hide InstOk, LimOk, ReqOk, TrailOk, NotStuck, ReportsOk, NewInst, Glance, Fresh, TransitionAllowed;
    DecisionApplies(w, r);
    NewInstIsFresh(w.reqs[r].pc.to, w.setting, born, w.time);
  }

  // ---- Reports -----------------------------------------------------------------------------

  /** What each outcome that can be reported stands for. */
  lemma OutcomeNames(runError: Option<CallError>, timedOut: bool)
    ensures var outcome := Classify(runError, timedOut);
            && (outcome.SuccessOutcome? <==> runError.None? && !timedOut)
            && (outcome.SuccessTimeoutOutcome? <==> runError.None? && timedOut)
            && (outcome.ErrorOutcome? <==> runError.Some? && runError.value.OtherError? && !timedOut)
            && (outcome.ErrorTimeoutOutcome? <==> runError.Some? && runError.value.OtherError? && timedOut)
            && (outcome.OpenRejected? <==> runError == Some(ErrCircuitOpen))
            && (outcome.ForcedOpenRejected? <==> runError == Some(ErrCircuitForcedOpen))
            && (outcome.MaxPermittedRejected? <==> runError == Some(ErrMaxPermittedCalls))
            && (outcome.MaxConcurrencyRejected? <==> runError == Some(ErrMaxConcurrency))
  {
  }

  /** Reporting a request that was turned away moves the ring of its instance, and nothing else of the breaker. */
  lemma RejectedReportLooks(w: World, r: nat, now: int)
    requires Placed(w, r) && w.reqs[r].pc.Rejected?
    ensures var w' := Step(w, ReportRejected(r, now));
            && w'.insts == w.insts[w.reqs[r].inst := Glance(w.insts[w.reqs[r].inst], now)]
            && w'.limiters == w.limiters && w'.state == w.state
            && |w'.reports| == |w.reports| + 1
            && w'.reports[|w.reports|] ==
               Report(r, Classify(Some(w.reqs[r].pc.why), false), CountSeenBy(w, r))
  {
    hide Glance, Classify, ConcurrentCalls;
  }
}
