/** Which calls a window holds: an instance counts a call as failed if and only if it ended with an error, and
    as timed out if and only if it took too long. */
module Recorded {
  import opened Outcomes
  import opened WindowSpec
  import opened Config
  import opened LimiterSpec
  import opened StateSpec
  import opened Protocol
  import opened Accounting
  import opened Invariant
  import opened BreakerSteps
  import Safety

  // ---- One call ----------------------------------------------------------------------------

  /** What recording a call adds to the window, slid to the present: a Closed, ForcedClosed or SemiOpen
      instance counts the call, its error and its timeout, an Open or ForcedOpen one counts nothing. */
  lemma RecordInNumbers(inst: Inst, failed: bool, timedOut: bool, now: int)
    requires inst.SemiOpenInst? ==> |inst.probes.log| < inst.probes.capacity
    requires !inst.SemiOpenInst? ==> inst.window.Valid()
    ensures var (c, c') := (Glance(inst, now).Counts(), Record(inst, OutcomeOf(failed, timedOut), now).Counts());
            if inst.OpenInst? || inst.ForcedOpenInst? then c' == c
            else c' == Counter(c.total + 1, c.error + if failed then 1 else 0, c.timeout + if timedOut then 1 else 0)
  {
    hide Tally, InSpan, OutcomeOf, Counter.Add;
    var outcome := OutcomeOf(failed, timedOut);
    OutcomeInNumbers(Glance(inst, now).Counts(), failed, timedOut);
    if inst.SemiOpenInst? {
      TallySnoc(inst.probes.log, outcome);
    } else if inst.ClosedInst? || inst.ForcedClosedInst? {
      UpdateAdds(inst.window, outcome, now);
    }
  }

  lemma TallySnoc(log: seq<WindowOutcome>, outcome: WindowOutcome)
    ensures Tally(log + [outcome]) == Tally(log).Add(outcome)
  {
    assert (log + [outcome])[..|log|] == log;
  }

  // ---- All calls ---------------------------------------------------------------------------

  /** Everything an instance has recorded, also what its window has dropped since. */
  function LogOf(inst: Inst): seq<WindowOutcome> {
    if inst.SemiOpenInst? then inst.probes.log else Unstamped(inst.window.log)
  }

  /** The calls that ended on instance i, and those of them that failed or timed out. */
  function CallsOn(i: nat, reqs: seq<Req>): Counter {
    Counter(Total(Records(i), reqs), Total(Failures(i), reqs), Total(Timeouts(i), reqs))
  }

  /** A request has a call behind it from the moment it has recorded it, and will be reported with the
      outcome of that call. */
  ghost predicate CallFits(q: Req) {
    && (HasRecorded(q) <==> q.call.Some?)
    && (q.pc.Deciding? || q.pc.Concluded? || (q.pc.Done? && q.pc.admitted) ==>
          q.pc.outcome == Classify(q.call.value.runError, q.call.value.timedOut))
  }

  ghost predicate Told(w: World) {
    && (forall r :: 0 <= r < |w.reqs| ==> CallFits(w.reqs[r]))
    && (forall i :: 0 <= i < |w.insts| ==> Tally(LogOf(w.insts[i])) == CallsOn(i, w.reqs))
  }

  /** The step records an outcome with instance i. */
  predicate RecordsWith(w: World, a: Action, i: nat) {
    a.RecordOutcome? && Enabled(w, a) && w.reqs[a.r].inst == i
  }

  /** The outcome that is recorded in the step. */
  function OutcomeMade(w: World, a: Action): WindowOutcome
    requires a.RecordOutcome? && Enabled(w, a)
  {
    OutcomeOf(a.runError.Some?, IsTimeout(w.reqs[a.r].setting.config, a.elapsed))
  }

  lemma SameLog(inst: Inst, now: int)
    ensures LogOf(Glance(inst, now)) == LogOf(inst)
    ensures LogOf(StartDecision(inst).0) == LogOf(inst)
    ensures LogOf(AcquirePermission(inst).0) == LogOf(inst)
    ensures LogOf(ReleasePermission(inst)) == LogOf(inst)
    ensures inst.OpenInst? ==> LogOf(inst.(timer := Buffered)) == LogOf(inst)
  {
    hide Unstamped;
  }

  lemma LongerLog(inst: Inst, outcome: WindowOutcome, now: int)
    requires !inst.OpenInst? && !inst.ForcedOpenInst?
    ensures LogOf(Record(inst, outcome, now)) == LogOf(inst) + [outcome]
  {
    if !inst.SemiOpenInst? {
      var log := inst.window.Update(outcome, now).log;
      assert log[..|log| - 1] == inst.window.log;
    }
  }

  lemma EmptyLog(to: State, setting: Setting, born: int, at: int)
    requires Usable(setting)
    ensures Tally(LogOf(NewInst(to, setting, born, at))) == ZERO
  {
  }

  lemma MadeEmpty(w: World, a: Action)
    requires Inv(w) && Enabled(w, a)
    ensures |w.insts| <= |Step(w, a).insts| <= |w.insts| + 1
    ensures |Step(w, a).insts| > |w.insts| ==> Tally(LogOf(Step(w, a).insts[|w.insts|])) == ZERO
  {
    hide InstOk, LimOk, ReqOk, TrailOk, NotStuck, ReportsOk, LogOf, NewInst, Tally, Glance, StartDecision,
         AcquirePermission, ReleasePermission, Record, Judge, Classify, TryAcquire, Expire, Resume, Release, Find,
         FillConfig, Checkers, ValidConfig;
    match a {
      case Win(_, _, born) => EmptyLog(SemiOpen, w.setting, born, w.time);
      case Decide(r, _, born) => EmptyLog(w.reqs[r].pc.to, w.setting, born, w.time);
      case Force(to, _, born) => EmptyLog(to, w.setting, born, w.time);
      case ResetBreaker(_, born) => EmptyLog(Closed, w.setting, born, w.time);
      case Update(config, born) =>
        if config.Some? && ValidConfig(config.value) {
          FilledIsUsable(config.value);
          EmptyLog(Closed, Fill(config.value), born, w.time);
        }
      case _ =>
    }
  }

  lemma RecorderIsLetIn(w: World, r: nat)
    requires Inv(w) && At(w, r, Released)
    ensures var inst := w.insts[w.reqs[r].inst]; !inst.OpenInst? && !inst.ForcedOpenInst?
  {
    hide InstOk, LimOk, TrailOk, NotStuck, ReportsOk;
    assert ReqOk(w, r);
  }

  lemma OtherLogs(w: World, a: Action, i: nat)
    requires Enabled(w, a) && !a.RecordOutcome? && i < |w.insts|
    ensures i < |Step(w, a).insts| && LogOf(Step(w, a).insts[i]) == LogOf(w.insts[i])
  {
    hide Step, Enabled;
    if Mover(a).Some? && !a.Win? && !a.Decide? {
      LogsOfMovers(w, a, i);
    } else {
      LogsElsewhere(w, a, i);
    }
  }

  lemma LogsOfMovers(w: World, a: Action, i: nat)
    requires Enabled(w, a) && Mover(a).Some? && !a.Win? && !a.Decide? && !a.RecordOutcome? && i < |w.insts|
    ensures i < |Step(w, a).insts| && LogOf(Step(w, a).insts[i]) == LogOf(w.insts[i])
  {
    hide LogOf, Tally, Glance, StartDecision, AcquirePermission, ReleasePermission, Classify, TryAcquire, Expire,
         Resume, Release, Find, Admit, ConcurrentCalls;
    SameLog(w.insts[i], if a.ReportRejected? then a.now else 0);
  }

  lemma LogsElsewhere(w: World, a: Action, i: nat)
    requires Enabled(w, a) && (Mover(a).None? || a.Win? || a.Decide?) && i < |w.insts|
    ensures i < |Step(w, a).insts| && LogOf(Step(w, a).insts[i]) == LogOf(w.insts[i])
  {
    hide LogOf, NewInst, Tally, Glance, Record, Classify, FillConfig, Checkers, ValidConfig, TransitionAllowed;
    SameLog(w.insts[i], match a case Win(_, now, _) => now case Decide(_, now, _) => now case Force(_, now, _) => now
                        case ResetBreaker(now, _) => now case _ => 0);
  }

  /** Nothing but the end of a request writes to a log, and it writes to the one of its own instance. */
  lemma LogsAfter(w: World, a: Action, i: nat)
    requires Inv(w) && Enabled(w, a) && i < |Step(w, a).insts|
    ensures |w.insts| <= |Step(w, a).insts|
    ensures Tally(LogOf(Step(w, a).insts[i])) ==
            if i >= |w.insts| then ZERO
            else if RecordsWith(w, a, i) then Tally(LogOf(w.insts[i])).Add(OutcomeMade(w, a))
            else Tally(LogOf(w.insts[i]))
  {
    hide Inv, LogOf, NewInst, Tally, Glance, StartDecision, AcquirePermission, ReleasePermission, Record, OutcomeOf,
         IsTimeout, Judge, Classify, TryAcquire, Expire, Resume, Release, Find;
    if i >= |w.insts| {
      MadeEmpty(w, a);
    } else if a.RecordOutcome? {
      var inst := w.insts[w.reqs[a.r].inst];
      RecorderIsLetIn(w, a.r);
      LongerLog(inst, OutcomeMade(w, a), a.now);
      TallySnoc(LogOf(inst), OutcomeMade(w, a));
    } else {
      OtherLogs(w, a, i);
    }
  }

  /** Only the end of a request changes how its call ended, and no request records twice. */
  lemma CallAfter(w: World, a: Action, r: nat)
    requires Enabled(w, a) && Mover(a) == Some(r) && r < |w.reqs| && CallFits(w.reqs[r])
    ensures r < |Step(w, a).reqs| && CallFits(Step(w, a).reqs[r])
    ensures var q, q' := w.reqs[r], Step(w, a).reqs[r];
            if a.RecordOutcome? then
              && q'.inst == q.inst && !HasRecorded(q) && HasRecorded(q')
              && q'.call == Some(Call(a.runError, IsTimeout(q.setting.config, a.elapsed)))
            else q'.call == q.call && (HasRecorded(q') <==> HasRecorded(q)) && (HasRecorded(q) ==> q'.inst == q.inst)
  {
    hide StartDecision, AcquirePermission, TryAcquire, Expire, Resume, Release, Record, Glance, StateSpec.Verdict,
         Classify, NewInst, Find, IsTimeout;
    if a.GiveUp? {
      ExpireIsFinal(w.limiters[w.reqs[r].lim], r);
    }
  }

  lemma CallsAfter(w: World, a: Action, i: nat)
    requires Inv(w) && Told(w) && Enabled(w, a)
    ensures CallsOn(i, Step(w, a).reqs) ==
            if RecordsWith(w, a, i) then CallsOn(i, w.reqs).Add(OutcomeMade(w, a)) else CallsOn(i, w.reqs)
    ensures forall r :: 0 <= r < |Step(w, a).reqs| ==> CallFits(Step(w, a).reqs[r])
  {
    hide Inv, Step, Enabled, Total, CallFits, OutcomeOf, IsTimeout, Counter.Add, HasRecorded;
    StepIsLocal(w, a);
    var w' := Step(w, a);
    if Mover(a).Some? {
      var r := Mover(a).value;
      CallAfter(w, a, r);
      TotalUpdate(Records(i), w.reqs, r, w'.reqs[r]);
      TotalUpdate(Failures(i), w.reqs, r, w'.reqs[r]);
      TotalUpdate(Timeouts(i), w.reqs, r, w'.reqs[r]);
      if a.RecordOutcome? {
        OutcomeInNumbers(CallsOn(i, w.reqs), a.runError.Some?, IsTimeout(w.reqs[r].setting.config, a.elapsed));
      }
    } else if w'.reqs != w.reqs {
      NewcomerIsSilent(w.reqs, w'.reqs[|w.reqs|], i);
    }
  }

  lemma NewcomerIsSilent(reqs: seq<Req>, q: Req, i: nat)
    requires q.pc.Snapped? && q.call.None?
    ensures CallsOn(i, reqs + [q]) == CallsOn(i, reqs) && CallFits(q)
  {
    hide Total;
    TotalSnoc(Records(i), reqs, q);
    TotalSnoc(Failures(i), reqs, q);
    TotalSnoc(Timeouts(i), reqs, q);
  }

  lemma NobodyYet(w: World, i: nat)
    requires Inv(w) && i >= |w.insts|
    ensures CallsOn(i, w.reqs) == ZERO
  {
    hide InstOk, LimOk, TrailOk, NotStuck, ReportsOk, Total, ReqFits;
    forall r | 0 <= r < |w.reqs|
      ensures w.reqs[r].inst != i
    {
      assert ReqOk(w, r);
    }
    TotalZero(Records(i), w.reqs);
    TotalZero(Failures(i), w.reqs);
    TotalZero(Timeouts(i), w.reqs);
  }

  lemma StepTells(w: World, a: Action)
    requires Inv(w) && Told(w)
    ensures Told(Step(w, a))
  {
    hide Inv, LogOf, Tally, CallsOn, CallFits, RecordsWith, OutcomeMade, Counter.Add;
    if Enabled(w, a) {
      hide Step, Enabled;
      CallsAfter(w, a, 0);
      forall i | 0 <= i < |Step(w, a).insts|
        ensures Tally(LogOf(Step(w, a).insts[i])) == CallsOn(i, Step(w, a).reqs)
      {
        LogsAfter(w, a, i);
        CallsAfter(w, a, i);
        if i >= |w.insts| {
          NobodyYet(w, i);
          NotThere(w, a, i);
        }
      }
    }
  }

  lemma NotThere(w: World, a: Action, i: nat)
    requires i >= |w.insts|
    ensures !RecordsWith(w, a, i)
  {
  }

  lemma {:induction false} RunTells(w: World, actions: seq<Action>)
    requires Inv(w) && Told(w)
    ensures Told(Run(w, actions))
  {
    hide Inv, Told, Step;
    if actions != [] {
      var before := actions[..|actions| - 1];
      RunTells(w, before);
      RunKeepsInvariant(w, before);
      StepTells(Run(w, before), actions[|actions| - 1]);
    }
  }

  /** In every reachable world, what an instance has recorded is exactly the calls that ended on it: as many,
      as many with an error, and as many that took too long. And each request that has recorded reports
      the outcome of its own call. */
  lemma LogsAreTheCalls(w: World)
    requires Reachable(w)
    ensures forall i :: 0 <= i < |w.insts| ==> Tally(LogOf(w.insts[i])) == CallsOn(i, w.reqs)
    ensures forall r :: 0 <= r < |w.reqs| ==> CallFits(w.reqs[r])
  {
    hide Inv, Run, CallFits, LogOf, CallsOn, NewInst, FillConfig, Checkers;
    var config: Config, born: int, time: int, actions: seq<Action> :|
      ValidConfig(config) && w == Run(Start(config, born, time), actions);
    StartSatisfiesInvariant(config, born, time);
    FilledIsUsable(config);
    EmptyLog(Closed, Fill(config), born, time);
    NobodyCalled();
    RunTells(Start(config, born, time), actions);
  }

  lemma NobodyCalled()
    ensures CallsOn(0, []) == ZERO
  {
  }

  /** So a SemiOpen instance decides on the calls that ended on it. */
  lemma ProbesAreTheCalls(w: World, i: nat)
    requires Reachable(w) && i < |w.insts|
    ensures w.insts[i].SemiOpenInst? ==> w.insts[i].Counts() == CallsOn(i, w.reqs)
  {
    hide Inv, Told, Tally, CallsOn, CallFits;
    LogsAreTheCalls(w);
    ReachableSatisfiesInvariant(w);
    if w.insts[i].SemiOpenInst? {
      Safety.ProbesAreExact(w, i);
    }
  }
}
