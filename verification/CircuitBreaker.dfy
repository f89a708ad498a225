/** The breaker object of cb.go over the state and limiter objects it creates, shared by any number
    of requests. Each method is one atomic section of the source; the ghost field `world` follows
    it through the protocol, and `Valid` ties every object to its value there. */
module CircuitBreaker {
  import opened Outcomes
  import opened Config
  import opened LimiterSpec
  import opened StateSpec
  import opened Protocol
  import opened StateInstance
  import opened ConcurrencyLimiter

  class CircuitBreaker {
    const name: string
    var setting: Setting
    var state: StateInstance
    var limiter: WeightedSemaphore
    var reports: seq<Report>                // what the listener has been told
    var entered: nat                        // numbers the requests

    ghost var world: World
    ghost var instances: seq<StateInstance>      // every state object ever made
    ghost var limiters: seq<WeightedSemaphore>   // every limiter ever made
    ghost var owned: set<object>                 // the footprints of the state objects
    ghost var Repr: set<object>

    /** Every object has the value the protocol gives it. */
    ghost predicate Valid()
      reads this, Repr
    {
      && Apart(this, owned, limiters, Repr)
      && InstancesShow(instances, world.insts, owned) && LimitersShow(limiters, world.limiters)
      && |instances| == |world.insts| && |limiters| == |world.limiters|
      && Ready(world) && state == instances[world.state]
      && world.limiter < |limiters| && limiter == limiters[world.limiter]
      && setting == world.setting && reports == world.reports && entered == |world.reqs|
    }

    /** Objects are only ever added. */
    twostate predicate Grown()
      reads this
    {
      fresh(Repr - old(Repr)) && old(instances) <= instances && old(limiters) <= limiters
    }

    /** The request is there, with this state object and this limiter. */
    ghost predicate Captured(r: nat, st: StateInstance, lim: WeightedSemaphore)
      reads this
    {
      && r < |world.reqs|
      && world.reqs[r].inst < |instances| && instances[world.reqs[r].inst] == st
      && world.reqs[r].lim < |limiters| && limiters[world.reqs[r].lim] == lim
    }

    constructor (name: string, config: Config, born: int, ghost time: int)
      requires ValidConfig(config)
      ensures Valid() && fresh(Repr) && world == Start(config, born, time) && this.name == name
    {
      hide Start, Ready, Fill, Usable, LimiterFor, NewInst, StateInstance.Footprint, StateInstance.Abs,
           StateInstance.Valid,
           InstancesShow, LimitersShow;
      FilledIsUsable(config);
      StartShape(config, born, time);
      var s := FillDefaultsAndGetSetting(config);
      var lim := new WeightedSemaphore(s.config.maxConcurrentCalls, s.config.maxWaitDurationMillis);
      var st := new StateInstance(Closed, s, born, time);
      this.name := name;
      setting, state, limiter, reports, entered := s, st, lim, [], 0;
      world, instances, limiters := Start(config, born, time), [st], [lim];
      owned := st.Footprint();
      Repr := {this, lim} + st.Footprint();
      new;
      Unrelated(this, lim, st);
      SingleObjects(st, world.insts[0], lim, world.limiters[0]);
    }

    // ---- State transitions ---------------------------------------------------------------------

    /** The body of StateTransition once it goes ahead: reads the old instance's window, which slides
        it, and puts a fresh instance in its place. */
    method TakeOver(to: State, ghost cause: Cause, now: int, born: int)
      requires Valid()
      modifies this`world, this`state, this`instances, this`owned, this`Repr, state.Footprint()
      ensures Valid() && Grown() && world == Install(old(world), to, cause, now, born)
      ensures limiters == old(limiters) && instances == old(instances) + [state] && fresh(state)
    {
      hide InstancesShow, OthersShow, LimitersShow, StateInstance.Footprint, StateInstance.Abs,
           StateInstance.Valid, NewInst, Glance, Usable;
      ghost var w := world;
      SetAside(instances, w.insts, owned, w.state);
      var _ := state.WindowSnapshot(now);
      PutBack(instances, w.insts, owned, w.state, Glance(w.insts[w.state], now));
      var newState := new StateInstance(to, setting, born, w.time);
      Extend(instances, w.insts[w.state := Glance(w.insts[w.state], now)], owned, newState,
             NewInst(to, setting, born, w.time));
      instances, owned, Repr := instances + [newState], owned + newState.Footprint(), Repr + newState.Footprint();
      state, world := newState, Install(w, to, cause, now, born);
    }

    /** StateTransition. The caller's instance is compared with the breaker's as an object. */
    method StateTransition(ghost k: nat, from: StateInstance, to: State, reason: Reason, ghost cause: Cause,
                           now: int, born: int)
      returns (result: StateInstance)
      requires Valid() && k < |instances| && from == instances[k]
      modifies this`world, this`state, this`instances, this`owned, this`Repr, state.Footprint()
      ensures Valid() && Grown() && limiters == old(limiters)
      ensures (world, |instances|) == (Transition(old(world), k, to, reason, cause, now, born).0, |world.insts|)
      ensures var i := Transition(old(world), k, to, reason, cause, now, born).1;
              i < |instances| && result == instances[i]
      ensures if reason == ManualTransition || reason == Reset || (from == old(state) && ValidAutomatic(from.kind, to))
              then result == state && fresh(state) && state.kind == to
              else result == from && state == old(state)
    {
      hide InstancesShow, LimitersShow, Install, StateInstance.Footprint;
      SameKind(instances, world.insts, owned, k);
      SameObjectSamePlace(instances, world.insts, owned, k, world.state);
      if reason != ManualTransition && reason != Reset {
        if from != state {
          return from;
        }
        if !ValidAutomatic(from.kind, to) {
          return from;
        }
      }
      InstalledKind(world, to, cause, now, born);
      TakeOver(to, cause, now, born);
      SameKind(instances, world.insts, owned, world.state);
      result := state;
    }

    // ---- Entering ----------------------------------------------------------------------------

    /** The first section of enterWithFallback reads the three fields together. */
    method EnterSection(weight: nat) returns (r: nat, st: StateInstance, lim: WeightedSemaphore, s: Setting)
      requires Valid()
      modifies this`world, this`entered
      ensures Valid() && world == Step(old(world), Enter(weight))
      ensures r == |old(world).reqs| && Captured(r, st, lim) && At(world, r, Snapped)
      ensures s == world.reqs[r].setting && weight == world.reqs[r].weight
    {
      hide Shows, StateInstance.Footprint;
      r, st, lim, s := entered, state, limiter, setting;
      entered := entered + 1;
      world := Step(world, Enter(weight));
    }

    /** shouldStateTransition at the start of a request. */
    method CheckStartSection(r: nat, st: StateInstance, ghost lim: WeightedSemaphore)
      returns (decision: Option<Decision>)
      requires Valid() && Captured(r, st, lim) && At(world, r, Snapped)
      modifies this`world, st.Footprint()
      ensures Valid() && world == Step(old(world), CheckStart(r)) && Captured(r, st, lim)
      ensures decision.Some? ==> decision.value == Decision(SemiOpen, WaitInOpenElapsed)
      ensures At(world, r, if decision.Some? then Winning else Checked)
    {
      hide InstancesShow, LimitersShow, OthersShow, StateInstance.Footprint, StateInstance.Abs,
           StateInstance.Valid, Transition, Reconfigure, Glance, Record;
      ghost var w, k := world, world.reqs[r].inst;
      SetAside(instances, w.insts, owned, k);
      SameLimiter(w, r);
      decision := st.DecisionAtStart();
      PutBack(instances, w.insts, owned, k, StartDecision(w.insts[k]).0);
      world := Step(w, CheckStart(r));
    }

    /** The transition of a request that received the tick; it goes on with the instance returned. */
    method WinSection(r: nat, st: StateInstance, ghost lim: WeightedSemaphore, now: int, born: int)
      returns (current: StateInstance)
      requires Valid() && Captured(r, st, lim) && At(world, r, Winning)
      modifies this`world, this`state, this`instances, this`owned, this`Repr, state.Footprint()
      ensures Valid() && Grown() && world == Step(old(world), Win(r, now, born))
      ensures Captured(r, current, lim) && At(world, r, Checked)
      ensures if st == old(state) && st.kind == Open then current == state && fresh(state) && state.kind == SemiOpen
              else current == st && state == old(state)
    {
      hide InstancesShow, LimitersShow, StateInstance.Footprint, Transition;
      TransitionShape(world, world.reqs[r].inst, SemiOpen, WaitInOpenElapsed, Won(r, world.time), now, born);
      ghost var before, k := world, world.reqs[r].inst;
      current := StateTransition(k, st, SemiOpen, WaitInOpenElapsed, Won(r, world.time), now, born);
      world := Step(before, Win(r, now, born));
    }

    method AskPermissionSection(r: nat, st: StateInstance, ghost lim: WeightedSemaphore)
      returns (denial: Option<CallError>)
      requires Valid() && Captured(r, st, lim) && At(world, r, Checked)
      modifies this`world, st.Footprint()
      ensures Valid() && world == Step(old(world), Action.AskPermission(r)) && Captured(r, st, lim)
      ensures At(world, r, if denial.Some? then Rejected(denial.value) else Permitted)
    {
      hide InstancesShow, LimitersShow, OthersShow, StateInstance.Footprint, StateInstance.Abs,
           StateInstance.Valid, AcquirePermission;
      ghost var w, k := world, world.reqs[r].inst;
      SetAside(instances, w.insts, owned, k);
      SameLimiter(w, r);
      denial := st.AcquirePermission();
      PutBack(instances, w.insts, owned, k, AcquirePermission(w.insts[k]).0);
      world := Step(w, Action.AskPermission(r));
    }

    method CountAttemptSection(r: nat, ghost st: StateInstance, lim: WeightedSemaphore, weight: nat)
      requires Valid() && Captured(r, st, lim) && At(world, r, Permitted) && weight == world.reqs[r].weight
      modifies this`world, lim
      ensures Valid() && world == Step(old(world), CountAttempt(r)) && Captured(r, st, lim)
      ensures At(world, r, Attempted)
    {
      hide InstancesShow, LimitersShow, OtherLimitersShow, WeightedSemaphore.Abs, Attempt;
      ghost var w, l := world, world.reqs[r].lim;
      SetLimiterAside(limiters, w.limiters, l);
      SameInstance(w, r);
      lim.CountAttempt(weight);
      PutLimiterBack(limiters, w.limiters, l);
      world := Step(w, CountAttempt(r));
    }

    /** Where `acquire` leaves a request. */
    ghost function After(st: StateInstance, verdict: LimiterSpec.Verdict): Pc {
      match verdict
      case Queued => Waiting
      case Granted => Running
      case Denied => if st.ShouldCheckForMaxConcurrency() then Refused else Running
    }

    method TakeTokensSection(r: nat, st: StateInstance, lim: WeightedSemaphore, weight: nat)
      returns (verdict: LimiterSpec.Verdict)
      requires Valid() && Captured(r, st, lim) && At(world, r, Attempted) && weight == world.reqs[r].weight
      modifies this`world, lim
      ensures Valid() && world == Step(old(world), TakeTokens(r)) && Captured(r, st, lim)
      ensures At(world, r, After(st, verdict))
    {
      hide InstancesShow, LimitersShow, OtherLimitersShow, WeightedSemaphore.Abs, TryAcquire;
      ghost var w, l := world, world.reqs[r].lim;
      SetLimiterAside(limiters, w.limiters, l);
      SameKind(instances, w.insts, owned, w.reqs[r].inst);
      SameInstance(w, r);
      verdict := lim.AcquireSection(r, weight);
      PutLimiterBack(limiters, w.limiters, l);
      world := Step(w, TakeTokens(r));
    }

    method WakeSection(r: nat, ghost st: StateInstance, lim: WeightedSemaphore)
      requires Valid() && Captured(r, st, lim) && At(world, r, Waiting) && IsReady(world, r)
      modifies this`world, lim
      ensures Valid() && world == Step(old(world), Wake(r)) && Captured(r, st, lim)
      ensures At(world, r, Running)
    {
      hide InstancesShow, LimitersShow, OtherLimitersShow, Resume, Find;
      ghost var w, l := world, world.reqs[r].lim;
      SetLimiterAside(limiters, w.limiters, l);
      SameInstance(w, r);
      lim.ReadySection(r);
      PutLimiterBack(limiters, w.limiters, l);
      world := Step(w, Wake(r));
    }

    method GiveUpSection(r: nat, st: StateInstance, lim: WeightedSemaphore) returns (verdict: LimiterSpec.Verdict)
      requires Valid() && Captured(r, st, lim) && At(world, r, Waiting) && (IsReady(world, r) || IsQueued(world, r))
      modifies this`world, lim
      ensures Valid() && world == Step(old(world), GiveUp(r)) && Captured(r, st, lim)
      ensures verdict != Queued && At(world, r, After(st, verdict))
    {
      hide InstancesShow, LimitersShow, OtherLimitersShow, Expire, Find;
      ghost var w, l := world, world.reqs[r].lim;
      SetLimiterAside(limiters, w.limiters, l);
      SameKind(instances, w.insts, owned, w.reqs[r].inst);
      QueuedWaits(lim.waiters, lim.ready, r);
      ExpireIsFinal(w.limiters[l], r);
      SameInstance(w, r);
      verdict := lim.ExpireSection(r);
      PutLimiterBack(limiters, w.limiters, l);
      world := Step(w, GiveUp(r));
    }

    method ReturnPermissionSection(r: nat, st: StateInstance, ghost lim: WeightedSemaphore)
      requires Valid() && Captured(r, st, lim) && At(world, r, Refused)
      modifies this`world, st.Footprint()
      ensures Valid() && world == Step(old(world), Action.ReturnPermission(r)) && Captured(r, st, lim)
      ensures At(world, r, Rejected(ErrMaxConcurrency))
    {
      hide InstancesShow, LimitersShow, OthersShow, StateInstance.Footprint, StateInstance.Abs,
           StateInstance.Valid, StateSpec.ReleasePermission;
      ghost var w, k := world, world.reqs[r].inst;
      SetAside(instances, w.insts, owned, k);
      SameLimiter(w, r);
      st.ReleasePermission();
      PutBack(instances, w.insts, owned, k, StateSpec.ReleasePermission(w.insts[k]));
      world := Step(w, Action.ReturnPermission(r));
    }

    // ---- Leaving -----------------------------------------------------------------------------

    method BeginExitSection(r: nat, ghost st: StateInstance, lim: WeightedSemaphore, weight: nat)
      requires Valid() && Captured(r, st, lim) && At(world, r, Running) && weight == world.reqs[r].weight
      modifies this`world, lim
      ensures Valid() && world == Step(old(world), BeginExit(r)) && Captured(r, st, lim)
      ensures At(world, r, Uncounted)
    {
      hide InstancesShow, LimitersShow, OtherLimitersShow, WeightedSemaphore.Abs, Uncount;
      ghost var w, l := world, world.reqs[r].lim;
      SetLimiterAside(limiters, w.limiters, l);
      SameInstance(w, r);
      lim.UncountSection(weight);
      PutLimiterBack(limiters, w.limiters, l);
      world := Step(w, BeginExit(r));
    }

    method ReturnTokensSection(r: nat, ghost st: StateInstance, lim: WeightedSemaphore, weight: nat)
      requires Valid() && Captured(r, st, lim) && At(world, r, Uncounted) && weight == world.reqs[r].weight
      modifies this`world, lim
      ensures Valid() && world == Step(old(world), ReturnTokens(r)) && Captured(r, st, lim)
      ensures At(world, r, Released)
    {
      hide InstancesShow, LimitersShow, OtherLimitersShow, WeightedSemaphore.Abs, Release;
      ghost var w, l := world, world.reqs[r].lim;
      SetLimiterAside(limiters, w.limiters, l);
      SameInstance(w, r);
      lim.ReleaseSection(weight);
      PutLimiterBack(limiters, w.limiters, l);
      world := Step(w, ReturnTokens(r));
    }

    /** onError or onSuccess, and shouldStateTransition on the snapshot they return. */
    method RecordOutcomeSection(r: nat, st: StateInstance, ghost lim: WeightedSemaphore, s: Setting,
                                runError: Option<CallError>, elapsed: int, now: int)
      returns (timedOut: bool, decision: Option<Decision>)
      requires Valid() && Captured(r, st, lim) && At(world, r, Released) && s == world.reqs[r].setting
      modifies this`world, st.Footprint()
      ensures Valid() && world == Step(old(world), RecordOutcome(r, runError, elapsed, now)) && Captured(r, st, lim)
      ensures timedOut == IsTimeout(s.config, elapsed) && world.reqs[r].call == Some(Call(runError, timedOut))
      ensures world.reqs[r].pc == Judge(world.insts[world.reqs[r].inst], Classify(runError, timedOut))
      ensures decision.Some? <==> world.reqs[r].pc.Deciding?
      ensures decision.Some? ==> decision.value == Decision(world.reqs[r].pc.to, world.reqs[r].pc.reason)
      ensures decision.None? ==> At(world, r, Concluded(false, Classify(runError, timedOut)))
      ensures decision.Some? ==> world.reqs[r].pc.outcome == Classify(runError, timedOut)
    {
      hide InstancesShow, LimitersShow, OthersShow, StateInstance.Footprint, StateInstance.Abs,
           StateInstance.Valid, EndDecision, SnapshotOf, Record;
      ghost var w, k := world, world.reqs[r].inst;
      SetAside(instances, w.insts, owned, k);
      SameLimiter(w, r);
      timedOut := IsTimeout(s.config, elapsed);
      var snapshot := st.OnResult(runError.Some?, timedOut, now);
      decision := st.DecisionAtEnd(snapshot);
      PutBack(instances, w.insts, owned, k, Record(w.insts[k], OutcomeOf(runError.Some?, timedOut), now));
      world := Step(w, RecordOutcome(r, runError, elapsed, now));
    }

    method DecideSection(r: nat, st: StateInstance, ghost lim: WeightedSemaphore, decision: Decision, now: int,
                         born: int)
      requires Valid() && Captured(r, st, lim) && world.reqs[r].pc.Deciding?
      requires decision == Decision(world.reqs[r].pc.to, world.reqs[r].pc.reason)
      modifies this`world, this`state, this`instances, this`owned, this`Repr, state.Footprint()
      ensures Valid() && Grown() && limiters == old(limiters) && world == Step(old(world), Decide(r, now, born))
      ensures Captured(r, st, lim) && At(world, r, Concluded(true, old(world).reqs[r].pc.outcome))
    {
      hide InstancesShow, LimitersShow, StateInstance.Footprint, Transition;
      ghost var w, q := world, world.reqs[r];
      TransitionShape(w, q.inst, decision.to, decision.reason, Judged(r, q.pc.seen, q.pc.reason), now, born);
      var _ := StateTransition(q.inst, st, decision.to, decision.reason, Judged(r, q.pc.seen, q.pc.reason), now, born);
      world := Step(w, Decide(r, now, born));
    }

    // ---- Reports -----------------------------------------------------------------------------

    /** OnRequestComplete: names the outcome and tells the listener. */
    method OnRequestComplete(r: nat, timedOut: bool, runError: Option<CallError>, concurrent: int)
      modifies this`reports
      ensures reports == old(reports) + [Report(r, Classify(runError, timedOut), concurrent)]
    {
      var outcome: Outcome;
      match runError {
        case Some(ErrCircuitForcedOpen) => outcome := ForcedOpenRejected;
        case Some(ErrMaxPermittedCalls) => outcome := MaxPermittedRejected;
        case Some(ErrCircuitOpen) => outcome := OpenRejected;
        case Some(ErrMaxConcurrency) => outcome := MaxConcurrencyRejected;
        case None => outcome := if timedOut then SuccessTimeoutOutcome else SuccessOutcome;
        case Some(OtherError(_)) => outcome := if timedOut then ErrorTimeoutOutcome else ErrorOutcome;
      }
      reports := reports + [Report(r, outcome, concurrent)];
    }

    /** The report of a request that was turned away; its snapshot slides the window. */
    method ReportRejectedSection(r: nat, st: StateInstance, lim: WeightedSemaphore, why: CallError, now: int)
      requires Valid() && Captured(r, st, lim) && At(world, r, Rejected(why))
      modifies this`world, this`reports, st.Footprint()
      ensures Valid() && world == Step(old(world), Action.ReportRejected(r, now)) && Captured(r, st, lim)
      ensures At(world, r, Done(false, false, Classify(Some(why), false)))
    {
      hide InstancesShow, LimitersShow, OthersShow, StateInstance.Footprint, StateInstance.Abs,
           StateInstance.Valid, OtherLimitersShow, WeightedSemaphore.Abs, Classify, Glance;
      ghost var w, k := world, world.reqs[r].inst;
      SetAside(instances, w.insts, owned, k);
      SameLimiter(w, r);
      SetLimiterAside(limiters, w.limiters, w.reqs[r].lim);
      SameKind(instances, w.insts, owned, k);
      var _ := st.WindowSnapshot(now);
      var concurrent := lim.GetCount(st.ShouldCheckForMaxConcurrency());
      PutBack(instances, w.insts, owned, k, Glance(w.insts[k], now));
      OnRequestComplete(r, false, Some(why), concurrent);
      world := Step(w, Action.ReportRejected(r, now));
    }

    method ReportDoneSection(r: nat, st: StateInstance, lim: WeightedSemaphore,
                             timedOut: bool, runError: Option<CallError>)
      requires Valid() && Captured(r, st, lim) && world.reqs[r].pc.Concluded?
      requires world.reqs[r].pc.outcome == Classify(runError, timedOut)
      modifies this`world, this`reports
      ensures Valid() && world == Step(old(world), ReportDone(r)) && Captured(r, st, lim)
      ensures At(world, r, Done(true, old(world).reqs[r].pc.moved, Classify(runError, timedOut)))
    {
      hide InstancesShow, LimitersShow, Classify, WeightedSemaphore.Abs;
      SameInstance(world, r);
      SameLimiter(world, r);
      SetLimiterAside(limiters, world.limiters, world.reqs[r].lim);
      SameKind(instances, world.insts, owned, world.reqs[r].inst);
      var concurrent := lim.GetCount(st.ShouldCheckForMaxConcurrency());
      OnRequestComplete(r, timedOut, runError, concurrent);
      world := Step(world, ReportDone(r));
    }

    // ---- Operators and the clock ---------------------------------------------------------------

    method ForceClose(now: int, born: int)
      requires Valid()
      modifies this`world, this`state, this`instances, this`owned, this`Repr, state.Footprint()
      ensures Valid() && Grown() && world == Step(old(world), Force(ForcedClosed, now, born))
    {
      hide InstancesShow, LimitersShow, Install;
      SameObjectSamePlace(instances, world.insts, owned, world.state, world.state);
      var _ := StateTransition(world.state, state, ForcedClosed, ManualTransition, Forced, now, born);
    }

    method ForceOpen(now: int, born: int)
      requires Valid()
      modifies this`world, this`state, this`instances, this`owned, this`Repr, state.Footprint()
      ensures Valid() && Grown() && world == Step(old(world), Force(ForcedOpen, now, born))
    {
      hide InstancesShow, LimitersShow, Install;
      var _ := StateTransition(world.state, state, ForcedOpen, ManualTransition, Forced, now, born);
    }

    method ResetBreaker(now: int, born: int)
      requires Valid()
      modifies this`world, this`state, this`instances, this`owned, this`Repr, state.Footprint()
      ensures Valid() && Grown() && world == Step(old(world), Action.ResetBreaker(now, born))
    {
      hide InstancesShow, LimitersShow, Install;
      var _ := StateTransition(world.state, state, Closed, Reset, WasReset, now, born);
    }

    /** The limiter and the state that a new setting calls for. */
    static method NewParts(s: Setting, born: int, ghost at: int) returns (st: StateInstance, lim: WeightedSemaphore)
      requires Usable(s)
      ensures fresh({lim} + st.Footprint()) && Shows(st, NewInst(Closed, s, born, at))
      ensures lim.Abs() == NewLimiter(s.config.maxConcurrentCalls, s.config.maxWaitDurationMillis)
    {
      hide StateInstance.Footprint, StateInstance.Abs, StateInstance.Valid, NewInst, Usable;
      lim := new WeightedSemaphore(s.config.maxConcurrentCalls, s.config.maxWaitDurationMillis);
      st := new StateInstance(Closed, s, born, at);
    }

    /** Puts a new setting in force, with a limiter and a Closed state of its own. */
    method Renew(newSetting: Setting, born: int, ghost next: World)
      requires Valid() && Usable(newSetting)
      requires Ready(next) && Renewed(world, next, newSetting, born)
      modifies this`world, this`setting, this`limiter, this`state, this`instances, this`limiters, this`owned, this`Repr
      ensures Valid() && Grown() && world == next && setting == newSetting
    {
      hide Shows, InstancesShow, LimitersShow, StateInstance.Footprint, NewInst, Usable, WeightedSemaphore.Abs,
           Ready, Apart;
      ghost var w := world;
      var st, lim := NewParts(newSetting, born, w.time);
      Unrelated(this, lim, st);
      ApartGrows(this, owned, limiters, Repr, lim, st.Footprint());
      Extend(instances, w.insts, owned, st, NewInst(Closed, newSetting, born, w.time));
      ExtendLimiters(limiters, w.limiters, lim);
      instances, limiters := instances + [st], limiters + [lim];
      owned, Repr := owned + st.Footprint(), Repr + {lim} + st.Footprint();
      setting, limiter, state, world := newSetting, lim, st, next;
      assert Repr - old(Repr) <= {lim} + st.Footprint();
    }

    /** updateSetting: nothing changes when the filled configuration is the one in force. */
    method UpdateSetting(config: Config, born: int)
      requires Valid() && ValidConfig(config)
      modifies this`world, this`setting, this`limiter, this`state, this`instances, this`limiters, this`owned, this`Repr
      ensures Valid() && Grown() && world == Step(old(world), Update(Some(config), born))
      ensures setting.config == FillConfig(config)
    {
      hide InstancesShow, LimitersShow, Step, FillConfig, Checkers, Ready, Usable, Apart;
      FilledIsUsable(config);
      ReconfigureShape(world, config, born);
      var newSetting := FillDefaultsAndGetSetting(config);
      if newSetting.config == setting.config {
        return;
      }
      Renew(newSetting, born, Step(world, Update(Some(config), born)));
    }

    method UpdateConfig(config: Option<Config>, born: int) returns (errors: seq<ConfigError>)
      requires Valid()
      modifies this`world, this`setting, this`limiter, this`state, this`instances, this`limiters, this`owned, this`Repr
      ensures Valid() && Grown() && world == Step(old(world), Update(config, born))
      ensures errors == [] <==> config.Some? && ValidConfig(config.value)
      ensures errors == [] ==> setting.config == FillConfig(config.value)
    {
      hide InstancesShow, LimitersShow, NewInst, FillConfig;
      errors := IsValidConfig(config);
      if errors == [] {
        UpdateSetting(config.value, born);
      }
    }

    /** The timer of an Open instance sends its tick. */
    method FireSection(ghost i: nat, st: StateInstance)
      requires Valid() && i < |instances| && st == instances[i] && MayFire(world, i)
      modifies this`world, st.Footprint()
      ensures Valid() && world == Step(old(world), Fire(i))
    {
      hide InstancesShow, LimitersShow, OthersShow, StateInstance.Footprint, StateInstance.Abs,
           StateInstance.Valid;
      ghost var w := world;
      SetAside(instances, w.insts, owned, i);
      TimerOf(st, w.insts[i]);
      st.Fire();
      PutBack(instances, w.insts, owned, i, w.insts[i].(timer := Buffered));
      world := Step(w, Fire(i));
    }

    ghost method PassTime(duration: nat)
      requires Valid()
      modifies this`world
      ensures Valid() && world == Step(old(world), Pass(duration))
    {
      hide InstancesShow, LimitersShow;
      world := Step(world, Pass(duration));
    }
  }

  lemma QueuedWaits(queue: seq<Waiter>, ready: seq<Waiter>, id: nat)
    ensures Find(ready, id) < |ready| || Find(queue, id) < |queue| ==> Waits(queue + ready, id)
  {
    if Find(queue, id) < |queue| {
      assert (queue + ready)[Find(queue, id)].id == id;
    } else if Find(ready, id) < |ready| {
      assert (queue + ready)[|queue| + Find(ready, id)].id == id;
    }
  }

  lemma Unrelated(breaker: CircuitBreaker, lim: WeightedSemaphore, st: StateInstance)
    ensures breaker !in st.Footprint() && lim !in st.Footprint()
  {
  }

  lemma StartShape(config: Config, born: int, time: int)
    requires ValidConfig(config)
    ensures var (w, s) := (Start(config, born, time), Fill(config));
            && w.setting == s && w.insts == [NewInst(Closed, s, born, time)] && w.state == 0
            && w.limiters == [NewLimiter(s.config.maxConcurrentCalls, s.config.maxWaitDurationMillis)] && w.limiter == 0
            && w.reqs == [] && w.reports == [] && Ready(w)
  {
    hide Fill, Usable, NewInst;
    FilledIsUsable(config);
  }

  lemma TransitionShape(w: World, from: nat, to: State, reason: Reason, cause: Cause, now: int, born: int)
    requires Ready(w) && from < |w.insts|
    ensures var w' := Transition(w, from, to, reason, cause, now, born).0;
            w'.reqs == w.reqs && |w'.insts| >= |w.insts| && w'.limiters == w.limiters
  {
    hide NewInst, Glance;
  }

  /** What a new setting brings. */
  ghost predicate Renewed(w: World, w': World, s: Setting, born: int)
    requires Usable(s)
  {
    && w'.setting == s && w'.reqs == w.reqs && w'.reports == w.reports
    && w'.insts == w.insts + [NewInst(Closed, s, born, w.time)] && w'.state == |w.insts|
    && w'.limiters == w.limiters + [NewLimiter(s.config.maxConcurrentCalls, s.config.maxWaitDurationMillis)]
    && w'.limiter == |w.limiters|
  }

  lemma ReconfigureShape(w: World, config: Config, born: int)
    requires Ready(w) && ValidConfig(config)
    ensures var (w', s) := (Step(w, Update(Some(config), born)), Fill(config));
            && Ready(w') && Usable(s)
            && if s.config == w.setting.config then w' == w else Renewed(w, w', s, born)
  {
    hide NewInst, FillConfig, Checkers;
    FilledIsUsable(config);
  }

  lemma TimerOf(st: StateInstance, inst: Inst)
    requires Shows(st, inst) && inst.OpenInst?
    ensures st.kind == Open && st.timer == inst.timer
  {
  }

  lemma SingleObjects(st: StateInstance, inst: Inst, lim: WeightedSemaphore, value: Limiter)
    requires Shows(st, inst) && lim.Abs() == value
    ensures InstancesShow([st], [inst], st.Footprint()) && LimitersShow([lim], [value])
  {
    hide Shows;
  }

  /** The breaker, its state objects and its limiters are different objects. */
  ghost predicate Apart(owner: object, owned: set<object>, limiters: seq<WeightedSemaphore>, repr: set<object>) {
    && owner in repr && owned <= repr && owner !in owned
    && (forall lim :: lim in limiters ==> lim in repr && lim !in owned && lim != owner)
  }

  lemma ApartGrows(owner: object, owned: set<object>, limiters: seq<WeightedSemaphore>, repr: set<object>,
                   lim: WeightedSemaphore, footprint: set<object>)
    requires Apart(owner, owned, limiters, repr) && lim !in repr && lim !in footprint && owner !in footprint
    requires footprint !! repr
    ensures owner !in owned && lim !in limiters
    ensures Apart(owner, owned + footprint, limiters + [lim], repr + {lim} + footprint)
  {
  }

  ghost predicate Shows(st: StateInstance, inst: Inst)
    reads st.Footprint()
  {
    st.Valid() && st.Abs() == inst
  }

  /** The state objects have the given values and share nothing. */
  ghost predicate InstancesShow(instances: seq<StateInstance>, insts: seq<Inst>, owned: set<object>)
    reads owned
  {
    && |instances| == |insts|
    && (forall i :: 0 <= i < |instances| ==> instances[i].Footprint() <= owned)
    && (forall i, j :: 0 <= i < j < |instances| ==> instances[i].Footprint() !! instances[j].Footprint())
    && (forall i :: 0 <= i < |instances| ==> Shows(instances[i], insts[i]))
  }

  ghost predicate LimitersShow(limiters: seq<WeightedSemaphore>, values: seq<Limiter>)
    reads limiters
  {
    && |limiters| == |values|
    && (forall l, m :: 0 <= l < m < |limiters| ==> limiters[l] != limiters[m])
    && (forall l :: 0 <= l < |limiters| ==> limiters[l].Abs() == values[l])
  }

  /** The same for all state objects but one. */
  ghost predicate OthersShow(instances: seq<StateInstance>, insts: seq<Inst>, owned: set<object>, k: nat)
    requires k < |instances|
    reads owned - instances[k].Footprint()
  {
    && |instances| == |insts|
    && (forall i :: 0 <= i < |instances| ==> instances[i].Footprint() <= owned)
    && (forall i, j :: 0 <= i < j < |instances| ==> instances[i].Footprint() !! instances[j].Footprint())
    && (forall i :: 0 <= i < |instances| && i != k ==>
          instances[i].Footprint() <= owned - instances[k].Footprint() && Shows(instances[i], insts[i]))
  }

  ghost predicate OtherLimitersShow(limiters: seq<WeightedSemaphore>, values: seq<Limiter>, l: nat)
    requires l < |limiters|
    reads set lim | lim in limiters && lim != limiters[l]
  {
    && |limiters| == |values|
    && (forall l, m :: 0 <= l < m < |limiters| ==> limiters[l] != limiters[m])
    && (forall m :: 0 <= m < |limiters| && m != l ==> limiters[m] != limiters[l] && limiters[m].Abs() == values[m])
  }

  lemma SetAside(instances: seq<StateInstance>, insts: seq<Inst>, owned: set<object>, k: nat)
    requires InstancesShow(instances, insts, owned) && k < |insts|
    ensures |instances| == |insts| && OthersShow(instances, insts, owned, k)
    ensures instances[k].Footprint() <= owned && Shows(instances[k], insts[k])
  {
    hide Shows, StateInstance.Footprint;
  }

  lemma PutBack(instances: seq<StateInstance>, insts: seq<Inst>, owned: set<object>, k: nat, inst: Inst)
    requires k < |instances| && OthersShow(instances, insts, owned, k) && Shows(instances[k], inst)
    ensures k < |insts| && InstancesShow(instances, insts[k := inst], owned)
  {
    hide Shows, StateInstance.Footprint;
  }

  lemma SetLimiterAside(limiters: seq<WeightedSemaphore>, values: seq<Limiter>, l: nat)
    requires LimitersShow(limiters, values) && l < |values|
    ensures |limiters| == |values| && limiters[l].Abs() == values[l] && OtherLimitersShow(limiters, values, l)
  {
    hide WeightedSemaphore.Abs;
  }

  lemma PutLimiterBack(limiters: seq<WeightedSemaphore>, values: seq<Limiter>, l: nat)
    requires l < |limiters| && OtherLimitersShow(limiters, values, l)
    ensures l < |values| && LimitersShow(limiters, values[l := limiters[l].Abs()])
  {
    hide WeightedSemaphore.Abs;
  }

  /** A request that leaves its limiter, or its instance, as it is. */
  lemma SameLimiter(w: World, r: nat)
    requires Placed(w, r)
    ensures w.limiters[w.reqs[r].lim := w.limiters[w.reqs[r].lim]] == w.limiters
  {
  }

  lemma SameInstance(w: World, r: nat)
    requires Placed(w, r)
    ensures w.insts[w.reqs[r].inst := w.insts[w.reqs[r].inst]] == w.insts
  {
  }

  lemma InstalledKind(w: World, to: State, cause: Cause, now: int, born: int)
    requires w.state < |w.insts| && Usable(w.setting) && |w.gens| > 0
    ensures var w' := Install(w, to, cause, now, born);
            w'.state == |w.insts| < |w'.insts| && w'.insts[w'.state].Kind() == to
  {
  }

  lemma SameKind(instances: seq<StateInstance>, insts: seq<Inst>, owned: set<object>, k: nat)
    requires InstancesShow(instances, insts, owned) && k < |insts|
    ensures |instances| == |insts| && instances[k].kind == insts[k].Kind()
  {
  }

  lemma Extend(instances: seq<StateInstance>, insts: seq<Inst>, owned: set<object>, st: StateInstance, inst: Inst)
    requires InstancesShow(instances, insts, owned) && Shows(st, inst) && st.Footprint() !! owned
    ensures InstancesShow(instances + [st], insts + [inst], owned + st.Footprint())
  {
    hide Shows, StateInstance.Footprint;
  }

  lemma ExtendLimiters(limiters: seq<WeightedSemaphore>, values: seq<Limiter>, lim: WeightedSemaphore)
    requires LimitersShow(limiters, values) && lim !in limiters
    ensures LimitersShow(limiters + [lim], values + [lim.Abs()])
  {
    hide WeightedSemaphore.Abs;
  }

  /** Identity of objects is identity of positions. */
  lemma SameObjectSamePlace(instances: seq<StateInstance>, insts: seq<Inst>, owned: set<object>, k: nat, n: nat)
    requires InstancesShow(instances, insts, owned) && k < |insts| && n < |insts|
    ensures |instances| == |insts| && (instances[k] == instances[n] <==> k == n)
  {
    hide Shows;
    assert instances[k] in instances[k].Footprint();
  }
}
