/** What holds along every run of a breaker, from any world that satisfies the invariant. */
module Runs {
  import Binary64
  import opened Outcomes
  import opened WindowSpec
  import opened Config
  import opened LimiterSpec
  import opened StateSpec
  import opened Protocol
  import opened Invariant
  import opened BreakerSteps

  // ---- History only grows ------------------------------------------------------------------

  /** The instances of the earlier world are still there, further evolved, and what has been
      written down about them has not changed. */
  ghost predicate Extends(w: World, w': World) {
    && |w.insts| <= |w'.insts| && |w.limiters| <= |w'.limiters|
    && w.state <= w'.state && w.time <= w'.time
    && w.trail <= w'.trail && w.gens <= w'.gens && w.origin <= w'.origin && w.reports <= w'.reports
    && (forall i :: 0 <= i < |w.insts| ==> Evolves(w.insts[i], w'.insts[i]))
    && (forall l :: 0 <= l < |w.limiters| ==> w.limiters[l].grants <= w'.limiters[l].grants)
  }

  lemma ExtendsTransitive(a: World, b: World, c: World)
    requires Extends(a, b) && Extends(b, c)
    ensures Extends(a, c)
  {
    hide Evolves;
    forall i | 0 <= i < |a.insts|
      ensures Evolves(a.insts[i], c.insts[i])
    {
      EvolvesTransitive(a.insts[i], b.insts[i], c.insts[i]);
    }
  }

  lemma GrantsGrow(l: Limiter, id: nat, n: nat)
    ensures l.grants <= Attempt(l, n).grants
    ensures l.grants <= TryAcquire(l, id, n).0.grants
    ensures l.grants <= Uncount(l, n).grants
    ensures l.grants <= Release(l, n).grants
  {
    hide LimiterSpec.Weight, Fits, Tickets;
  }

  lemma GrantsGrowWaiting(l: Limiter, id: nat)
    requires Find(l.ready, id) < |l.ready| || Find(l.queue, id) < |l.queue|
    ensures Find(l.ready, id) < |l.ready| ==> l.grants <= Resume(l, id).grants
    ensures l.grants <= Expire(l, id).0.grants
  {
    hide LimiterSpec.Weight, Fits, Tickets;
  }

  lemma MovedExtends(w: World, r: nat, q: Req, inst: Inst, lim: Limiter)
    requires Placed(w, r) && Evolves(w.insts[w.reqs[r].inst], inst) && w.limiters[w.reqs[r].lim].grants <= lim.grants
    ensures Extends(w, Moved(w, r, q, inst, lim))
  {
    hide Evolves;
    forall i | 0 <= i < |w.insts|
      ensures Evolves(w.insts[i], Moved(w, r, q, inst, lim).insts[i])
    {
      StepsEvolve(w.insts[i], Success, 0);
    }
  }

  lemma InstallExtends(w: World, to: State, cause: Cause, now: int, born: int)
    requires Shape(w)
    ensures Extends(w, Install(w, to, cause, now, born))
  {
    hide Evolves, Glance, NewInst;
    forall i | 0 <= i < |w.insts|
      ensures Evolves(w.insts[i], Install(w, to, cause, now, born).insts[i])
    {
      StepsEvolve(w.insts[i], Success, now);
    }
  }

  lemma UpdateExtends(w: World, config: Option<Config>, born: int)
    requires Shape(w)
    ensures Extends(w, Reconfigure(w, config, born))
  {
    hide Evolves, NewInst, FillConfig, ValidConfig;
    forall i | 0 <= i < |w.insts|
      ensures Evolves(w.insts[i], Reconfigure(w, config, born).insts[i])
    {
      StepsEvolve(w.insts[i], Success, 0);
    }
  }

  lemma SameExtends(w: World, w': World)
    requires w'.insts == w.insts && w'.limiters == w.limiters && w'.state == w.state && w'.time >= w.time
    requires w'.trail == w.trail && w'.gens == w.gens && w'.origin == w.origin && w.reports <= w'.reports
    ensures Extends(w, w')
  {
    hide Evolves;
    forall i | 0 <= i < |w.insts|
      ensures Evolves(w.insts[i], w'.insts[i])
    {
      StepsEvolve(w.insts[i], Success, 0);
    }
  }

  lemma RequestStepExtends(w: World, a: Action)
    requires Shape(w) && Enabled(w, a) && Mover(a).Some?
    ensures Extends(w, Step(w, a))
  {
    var r := Mover(a).value;
    var q := w.reqs[r];
    var inst, lim, w' := w.insts[q.inst], w.limiters[q.lim], Step(w, a);
    match a {
      case Win(_, now, born) =>
        hide Install, Evolves;
        InstallExtends(w, SemiOpen, Won(r, w.time), now, born);
        SameExtends(w, w);
      case Decide(_, now, born) =>
        hide Install, Evolves, TransitionAllowed;
        InstallExtends(w, q.pc.to, Judged(r, q.pc.seen, q.pc.reason), now, born);
        SameExtends(w, w);
      case RecordOutcome(_, runError, elapsed, now) =>
        hide Record, Evolves, Judge, OutcomeOf, Classify;
        StepsEvolve(inst, OutcomeOf(runError.Some?, IsTimeout(q.setting.config, elapsed)), now);
        MovedExtends(w, r, w'.reqs[r], w'.insts[q.inst], lim);
      case ReportRejected(_, now) =>
        hide Glance, Evolves, Classify;
        StepsEvolve(inst, Success, now);
        MovedExtends(w, r, w'.reqs[r], w'.insts[q.inst], lim);
      case CheckStart(_) =>
        hide StartDecision, Evolves;
        StepsEvolve(inst, Success, 0);
        MovedExtends(w, r, w'.reqs[r], w'.insts[q.inst], lim);
      case AskPermission(_) =>
        hide AcquirePermission, Evolves;
        StepsEvolve(inst, Success, 0);
        MovedExtends(w, r, w'.reqs[r], w'.insts[q.inst], lim);
      case ReturnPermission(_) =>
        hide ReleasePermission, Evolves;
        StepsEvolve(inst, Success, 0);
        MovedExtends(w, r, w'.reqs[r], w'.insts[q.inst], lim);
      case _ =>
        LimiterActionExtends(w, a);
    }
  }

  lemma LimiterActionExtends(w: World, a: Action)
    requires Shape(w) && Enabled(w, a)
    requires || a.CountAttempt? || a.TakeTokens? || a.Wake? || a.GiveUp?
             || a.BeginExit? || a.ReturnTokens? || a.ReportDone?
    ensures Extends(w, Step(w, a))
  {
    hide Evolves, TryAcquire, Resume, Expire, Release, Find, Admit;
    var r := Mover(a).value;
    var q := w.reqs[r];
    StepsEvolve(w.insts[q.inst], Success, 0);
    GrantsGrow(w.limiters[q.lim], r, q.weight);
    if a.Wake? || a.GiveUp? {
      GrantsGrowWaiting(w.limiters[q.lim], r);
    }
    MovedExtends(w, r, Step(w, a).reqs[r], w.insts[q.inst], Step(w, a).limiters[q.lim]);
  }

  lemma StepExtends(w: World, a: Action)
    requires Inv(w)
    ensures Extends(w, Step(w, a))
  {
    hide InstOk, LimOk, ReqOk, TrailOk, NotStuck, ReportsOk;
    if !Enabled(w, a) {
      SameExtends(w, w);
    } else if Mover(a).Some? {
      RequestStepExtends(w, a);
    } else {
      hide Evolves, Install, Reconfigure;
      match a {
        case Fire(i) =>
          forall j | 0 <= j < |w.insts|
            ensures Evolves(w.insts[j], DoFire(w, i).insts[j])
          {
            FireEvolves(w.insts[i]);
            StepsEvolve(w.insts[j], Success, 0);
          }
        case Force(to, now, born) => InstallExtends(w, to, Forced, now, born);
        case ResetBreaker(now, born) => InstallExtends(w, Closed, WasReset, now, born);
        case Update(config, born) => UpdateExtends(w, config, born);
        case _ => SameExtends(w, Step(w, a));
      }
    }
  }

  lemma FireEvolves(inst: Inst)
    requires inst.OpenInst? && inst.timer.Unfired?
    ensures Evolves(inst, inst.(timer := Buffered))
  {
  }

  /** Along a run nothing that has happened is undone: the current instance only moves forward to
      instances that did not exist before, so an instance is left at most once and never becomes
      current again. */
  lemma {:induction false} HistoryOnlyGrows(w: World, actions: seq<Action>)
    requires Inv(w)
    ensures Inv(Run(w, actions)) && Extends(w, Run(w, actions))
    ensures Run(w, actions).state != w.state ==> Run(w, actions).state >= |w.insts|
  {
    hide Evolves, InstOk, LimOk, ReqOk, TrailOk, NotStuck, Step, ReportsOk;
    RunKeepsInvariant(w, actions);
    if actions == [] {
      SameExtends(w, w);
    } else {
      var before := actions[..|actions| - 1];
      HistoryOnlyGrows(w, before);
      StepExtends(Run(w, before), actions[|actions| - 1]);
      ExtendsTransitive(w, Run(w, before), Run(w, actions));
    }
  }

  // ---- The life of a request ---------------------------------------------------------------

  /** The steps a request can take. */
  predicate Edge(from: Pc, to: Pc) {
    match from
    case Snapped => to.Winning? || to.Checked?
    case Winning => to.Checked?
    case Checked => to.Permitted? || to.Rejected?
    case Permitted => to.Attempted?
    case Attempted => to.Running? || to.Waiting? || to.Refused?
    case Waiting => to.Running? || to.Refused?
    case Refused => to == Rejected(ErrMaxConcurrency)
    case Running => to.Uncounted?
    case Uncounted => to.Released?
    case Released => to.Deciding? || (to.Concluded? && !to.moved)
    case Deciding(_, _, _, outcome) => to == Concluded(true, outcome)
    case Concluded(moved, outcome) => to == Done(true, moved, outcome)
    case Rejected(why) => to == Done(false, false, Classify(Some(why), false))
    case Done(_, _, _) => false
  }

  /** A step leaves a request alone or takes it one edge further, on the limiter and the setting it
      captured, and off its instance only when it wins a tick. */
  lemma StepTakesAnEdge(w: World, a: Action, r: nat)
    requires Inv(w) && r < |w.reqs|
    ensures r < |Step(w, a).reqs|
    ensures var q, q' := w.reqs[r], Step(w, a).reqs[r];
            || q' == q
            || (Mover(a) == Some(r) && Edge(q.pc, q'.pc) && q'.lim == q.lim && q'.setting == q.setting
                && q'.weight == q.weight && (q.pc.Winning? || q'.inst == q.inst)
                && (q.pc.Released? || q'.call == q.call))
  {
    if Enabled(w, a) {
      hide Inv;
      StepIsLocal(w, a);
      if Mover(a) == Some(r) {
        MoverTakesAnEdge(w, a, r);
      }
    }
  }

  lemma MoverTakesAnEdge(w: World, a: Action, r: nat)
    requires Enabled(w, a) && Mover(a) == Some(r)
    ensures r < |w.reqs| == |Step(w, a).reqs|
    ensures var q, q' := w.reqs[r], Step(w, a).reqs[r];
            Edge(q.pc, q'.pc) && q'.lim == q.lim && q'.setting == q.setting && q'.weight == q.weight
              && (q.pc.Winning? || q'.inst == q.inst) && (q.pc.Released? || q'.call == q.call)
  {
    hide StartDecision, AcquirePermission, TryAcquire, Expire, Resume, Release, Record, Glance, StateSpec.Verdict,
         Classify, NewInst, Find;
    if a.GiveUp? {
      ExpireIsFinal(w.limiters[w.reqs[r].lim], r);
    }
  }

  /** On the way in, turned away, or admitted. */
  predicate TurnedAway(pc: Pc) {
    pc.Rejected? || (pc.Done? && !pc.admitted)
  }

  predicate Admitted(pc: Pc) {
    pc.Running? || pc.Uncounted? || pc.Released? || pc.Deciding? || pc.Concluded? || (pc.Done? && pc.admitted)
  }

  /** A request that was turned away stays turned away, so its run function never runs; one that was
      admitted stays admitted. */
  lemma {:induction false} FateIsSealed(w: World, actions: seq<Action>, r: nat)
    requires Inv(w) && r < |w.reqs|
    ensures r < |Run(w, actions).reqs|
    ensures TurnedAway(w.reqs[r].pc) ==> TurnedAway(Run(w, actions).reqs[r].pc)
    ensures Admitted(w.reqs[r].pc) ==> Admitted(Run(w, actions).reqs[r].pc)
  {
    hide Inv, Step;
    if actions != [] {
      var before := actions[..|actions| - 1];
      FateIsSealed(w, before, r);
      RunKeepsInvariant(w, before);
      StepTakesAnEdge(Run(w, before), actions[|actions| - 1], r);
    }
  }

  /** The decision of request r to leave instance i has been taken, and perhaps carried out. */
  predicate Decided(q: Req, i: nat) {
    q.inst == i && (q.pc.Deciding? || (q.pc.Concluded? && q.pc.moved) || (q.pc.Done? && q.pc.moved))
  }

  lemma {:induction false} DecisionsStand(w: World, actions: seq<Action>, r: nat)
    requires Inv(w) && r < |w.reqs| && w.reqs[r].pc.Deciding?
    ensures r < |Run(w, actions).reqs| && Decided(Run(w, actions).reqs[r], w.reqs[r].inst)
  {
    hide Inv, Step;
    if actions != [] {
      var before := actions[..|actions| - 1];
      DecisionsStand(w, before, r);
      RunKeepsInvariant(w, before);
      StepTakesAnEdge(Run(w, before), actions[|actions| - 1], r);
    }
  }

  /** A Closed instance whose window has enough calls and a bad share. */
  predicate MustTrip(inst: Inst) {
    && inst.ClosedInst? && inst.Counts().total <= Binary64.COUNT_LIMIT
    && inst.Counts().total >= inst.setting.config.minimumNumberOfCalls && Unhealthy(inst.setting, inst.Counts())
  }

  /** An outcome recorded with a Closed instance that makes its window unhealthy: from then on, in
      every run, the request either still has to act or the breaker has left the instance. */
  lemma UnhealthyWindowTrips(w: World, r: nat, runError: Option<CallError>, elapsed: int, now: int,
                             actions: seq<Action>)
    requires Inv(w) && At(w, r, Released)
    ensures var (q, outcome) := (w.reqs[r], OutcomeOf(runError.Some?, IsTimeout(w.reqs[r].setting.config, elapsed)));
            MustTrip(Record(w.insts[q.inst], outcome, now)) ==>
              var w2 := Run(w, [RecordOutcome(r, runError, elapsed, now)] + actions);
              r < |w2.reqs| && (w2.reqs[r].pc.Deciding? || w2.state > q.inst)
  {
    var q, a := w.reqs[r], RecordOutcome(r, runError, elapsed, now);
    var timedOut := IsTimeout(q.setting.config, elapsed);
    var inst := Record(w.insts[q.inst], OutcomeOf(runError.Some?, timedOut), now);
    hide MustTrip, Record, StateSpec.Verdict, Judge, Classify, OutcomeOf, IsTimeout;
    if MustTrip(inst) {
      StepsEvolve(w.insts[q.inst], OutcomeOf(runError.Some?, timedOut), now);
      assert inst.ClosedInst? by { TripsAreClosed(inst); }
      RecordedSettingUsable(w, r, inst);
      TripDecides(inst, Classify(runError, timedOut));
      JudgedNext(w, r, runError, elapsed, now);
      hide Inv, Step;
      StepKeepsInvariant(w, a);
      DeciderLeaves(Step(w, a), r, actions);
      RunCons(w, a, actions);
    }
  }

  lemma JudgedNext(w: World, r: nat, runError: Option<CallError>, elapsed: int, now: int)
    requires At(w, r, Released)
    ensures r < |Step(w, RecordOutcome(r, runError, elapsed, now)).reqs|
    ensures var q, timedOut := w.reqs[r], IsTimeout(w.reqs[r].setting.config, elapsed);
            Step(w, RecordOutcome(r, runError, elapsed, now)).reqs[r] ==
            q.(pc := Judge(Record(w.insts[q.inst], OutcomeOf(runError.Some?, timedOut), now),
                           Classify(runError, timedOut)),
               call := Some(Call(runError, timedOut)))
  {
    hide Record, StateSpec.Verdict, Judge, Classify, OutcomeOf, IsTimeout;
  }

  lemma TripsAreClosed(inst: Inst)
    requires MustTrip(inst)
    ensures inst.ClosedInst?
  {
  }

  lemma RecordedSettingUsable(w: World, r: nat, inst: Inst)
    requires Inv(w) && At(w, r, Released) && inst.ClosedInst?
    requires Evolves(w.insts[w.reqs[r].inst], inst)
    ensures Usable(inst.setting)
  {
    hide LimOk, ReqOk, TrailOk, NotStuck, ReportsOk, Tallies;
    assert InstOk(w, w.reqs[r].inst);
  }

  /** Such an instance decides to open. */
  lemma TripDecides(inst: Inst, report: Outcome)
    requires MustTrip(inst) && Usable(inst.setting)
    ensures Judge(inst, report).Deciding? && Judge(inst, report).to == Open
  {
    hide StateSpec.Verdict, Unhealthy, InSpan;
    ClosedTripsIff(inst);
  }

  /** A request that has decided still has to act, or its instance has been left. */
  lemma DeciderLeaves(w: World, r: nat, actions: seq<Action>)
    requires Inv(w) && r < |w.reqs| && w.reqs[r].pc.Deciding?
    ensures var w2 := Run(w, actions);
            r < |w2.reqs| && (w2.reqs[r].pc.Deciding? || w2.state > w.reqs[r].inst)
  {
    DecisionsStand(w, actions, r);
    RunKeepsInvariant(w, actions);
    hide InstOk, LimOk, TrailOk, NotStuck, Run, ReportsOk, StateSpec.Verdict;
    assert ReqOk(Run(w, actions), r);
  }

  // ---- Configuration updates ---------------------------------------------------------------

  /** The configuration is valid, and its filled form is not the one in force. */
  predicate Changes(w: World, config: Option<Config>) {
    config.Some? && ValidConfig(config.value) && FillConfig(config.value) != w.setting.config
  }

  /** After an update with a valid configuration the breaker's Config is the filled form. A changed one
      means a fresh Closed instance and a fresh limiter; an update that changes nothing in the filled
      form, or with an invalid configuration, changes nothing at all. */
  lemma UpdateTakesEffect(w: World, config: Option<Config>, born: int)
    requires Inv(w)
    ensures var w' := Step(w, Update(config, born));
            && (w' == w <==> !Changes(w, config))
            && (w'.state != w.state <==> Changes(w, config))
            && (config.Some? && ValidConfig(config.value) ==> w'.setting.config == FillConfig(config.value))
            && (w'.setting.config != w.setting.config ==>
                  w'.state == |w.insts| && w'.insts[w'.state] == NewInst(Closed, w'.setting, born, w.time)
                  && w'.limiter == |w.limiters| && w'.limiters[w'.limiter] == LimiterFor(w'.setting))
  {
    hide InstOk, LimOk, ReqOk, TrailOk, NotStuck, NewInst;
  }

  /** The checks of the new configuration come into force exactly when its filled form differs from
      the one in force or asks for the same checks anyway. */
  lemma UpdateChecksIff(w: World, config: Config, born: int)
    requires Inv(w) && ValidConfig(config)
    ensures Step(w, Update(Some(config), born)).setting == Fill(config)
       <==> FillConfig(config) != w.setting.config || Checkers(config) == w.setting.checkers
  {
    hide InstOk, LimOk, ReqOk, TrailOk, NotStuck, NewInst, FillConfig, Checkers;
  }

  /** A forced state is left in a step if and only if an operator forces or resets the breaker, or an
      update changes its filled configuration. */
  lemma ForcedStateLeftIff(w: World, a: Action)
    requires Inv(w) && Enabled(w, a)
    requires w.insts[w.state].ForcedOpenInst? || w.insts[w.state].ForcedClosedInst?
    ensures Step(w, a).state != w.state
       <==> a.Force? || a.ResetBreaker? || (a.Update? && Changes(w, a.config))
  {
    hide InstOk, LimOk, ReqOk, TrailOk, NotStuck, ReportsOk, NewInst, FillConfig, Checkers, Glance, Record, Release,
         TryAcquire, Expire, Resume, StartDecision, AcquirePermission, StateSpec.Verdict, Classify, Find, ValidConfig;
    if a.Decide? {
      DecisionApplies(w, a.r);
      ForcedNeverDecides(w, a.r);
    }
  }

  lemma ForcedNeverDecides(w: World, r: nat)
    requires Inv(w) && Placed(w, r) && w.reqs[r].pc.Deciding?
    ensures var inst := w.insts[w.reqs[r].inst]; !inst.ForcedOpenInst? && !inst.ForcedClosedInst?
  {
    hide InstOk, LimOk, TrailOk, NotStuck, ReportsOk, StateSpec.Verdict;
    assert ReqOk(w, r);
    EvolvesKind(w.reqs[r].pc.seen, w.insts[w.reqs[r].inst]);
    DecisionsAreValid(w.reqs[r].pc.seen);
  }

  // ---- Progress --------------------------------------------------------------------------------

  /** A bound on the steps a request has before it. */
  function StepsLeft(pc: Pc): nat {
    match pc
    case Snapped => 11
    case Winning => 10
    case Checked => 9
    case Permitted => 8
    case Attempted => 7
    case Waiting => 6
    case Running => 5
    case Uncounted => 4
    case Released => 3
    case Refused => 2
    case Deciding(_, _, _, _) => 2
    case Rejected(_) => 1
    case Concluded(_, _) => 1
    case Done(_, _, _) => 0
  }

  /** A step that the request can take now. A waiter whose channel is not closed is let go when its
      context is done. */
  function NextStep(w: World, r: nat): Action
    requires Placed(w, r) && !w.reqs[r].pc.Done?
  {
    match w.reqs[r].pc
    case Snapped => CheckStart(r)
    case Winning => Win(r, 0, 0)
    case Checked => AskPermission(r)
    case Permitted => CountAttempt(r)
    case Attempted => TakeTokens(r)
    case Waiting => GiveUp(r)
    case Running => BeginExit(r)
    case Uncounted => ReturnTokens(r)
    case Released => RecordOutcome(r, None, 0, 0)
    case Refused => ReturnPermission(r)
    case Deciding(_, _, _, _) => Decide(r, 0, 0)
    case Rejected(_) => ReportRejected(r, 0)
    case Concluded(_, _) => ReportDone(r)
  }

  /** A waiter is always either let through or still in the queue. */
  lemma StillWaiting(w: World, r: nat)
    requires Inv(w) && At(w, r, Waiting)
    ensures IsReady(w, r) || IsQueued(w, r)
  {
    hide InstOk, LimOk, TrailOk, NotStuck, ReportsOk;
    assert ReqOk(w, r);
    var l := w.limiters[w.reqs[r].lim];
    if Find(l.ready, r) == |l.ready| {
      WaitsInQueue(l.queue, l.ready, r);
    }
  }

  /** Nobody is blocked: a request that is not done always has a step of its own that it can take,
      whatever the others do or wait for, ... */
  lemma AlwaysAStep(w: World, r: nat)
    requires Inv(w) && r < |w.reqs| && !w.reqs[r].pc.Done?
    ensures Placed(w, r) && Enabled(w, NextStep(w, r)) && Mover(NextStep(w, r)) == Some(r)
  {
    hide InstOk, LimOk, TrailOk, NotStuck, ReportsOk, IsReady, IsQueued, ReqFits;
    assert ReqOk(w, r);
    if w.reqs[r].pc.Waiting? {
      StillWaiting(w, r);
    }
  }

  /** The steps that request r takes in a run. */
  function OwnSteps(w: World, actions: seq<Action>, r: nat): nat {
    if actions == [] then 0
    else
      var before, a := actions[..|actions| - 1], actions[|actions| - 1];
      OwnSteps(w, before, r) + if Mover(a) == Some(r) && Enabled(Run(w, before), a) then 1 else 0
  }

  /** ... and however the steps of all requests are mixed, at most eleven of its own finish it. */
  lemma {:induction false} OwnStepsAreBounded(w: World, actions: seq<Action>, r: nat)
    requires Inv(w) && r < |w.reqs|
    ensures r < |Run(w, actions).reqs|
    ensures OwnSteps(w, actions, r) + StepsLeft(Run(w, actions).reqs[r].pc) <= StepsLeft(w.reqs[r].pc) <= 11
    ensures StepsLeft(Run(w, actions).reqs[r].pc) == 0 <==> Run(w, actions).reqs[r].pc.Done?
  {
    hide Inv, Step, Enabled, Mover;
    if actions != [] {
      var before, a := actions[..|actions| - 1], actions[|actions| - 1];
      OwnStepsAreBounded(w, before, r);
      RunKeepsInvariant(w, before);
      StepsLeftDrop(Run(w, before), a, r);
    }
  }

  lemma StepsLeftDrop(w: World, a: Action, r: nat)
    requires Inv(w) && r < |w.reqs|
    ensures r < |Step(w, a).reqs|
    ensures StepsLeft(Step(w, a).reqs[r].pc) <= StepsLeft(w.reqs[r].pc)
    ensures Mover(a) == Some(r) && Enabled(w, a) ==> StepsLeft(Step(w, a).reqs[r].pc) < StepsLeft(w.reqs[r].pc)
  {
    hide Inv, Step, Enabled, Mover;
    StepTakesAnEdge(w, a, r);
    if Mover(a) == Some(r) && Enabled(w, a) {
      MoverTakesAnEdge(w, a, r);
    }
  }

  /** So from every reachable world each request can be finished by steps of its own alone. */
  lemma {:induction false} CanAlwaysFinish(w: World, r: nat) returns (actions: seq<Action>)
    requires Inv(w) && r < |w.reqs|
    ensures |actions| <= StepsLeft(w.reqs[r].pc) <= 11
    ensures forall k :: 0 <= k < |actions| ==> Mover(actions[k]) == Some(r)
    ensures Inv(Run(w, actions)) && r < |Run(w, actions).reqs| && Run(w, actions).reqs[r].pc.Done?
    decreases StepsLeft(w.reqs[r].pc)
  {
    hide Inv, Step, Enabled, Mover;
    if w.reqs[r].pc.Done? {
      actions := [];
    } else {
      AlwaysAStep(w, r);
      var a := NextStep(w, r);
      StepsLeftDrop(w, a, r);
      StepKeepsInvariant(w, a);
      var rest := CanAlwaysFinish(Step(w, a), r);
      RunCons(w, a, rest);
      actions := [a] + rest;
    }
  }

  lemma {:induction false} RunCons(w: World, a: Action, actions: seq<Action>)
    ensures Run(w, [a] + actions) == Run(Step(w, a), actions)
  {
    hide Step;
    var all := [a] + actions;
    if actions == [] {
      assert all[..|all| - 1] == [];
    } else {
      RunCons(w, a, actions[..|actions| - 1]);
      assert all[..|all| - 1] == [a] + actions[..|actions| - 1];
    }
  }
}
