/** Whole calls through a breaker: enterWithFallback and ProtectWithContext of cb.go and the Entry of
    entry.go. Between any two sections of a call other requests, operators and updates may run; that
    is what Interleave stands for. */
module Calls {
  import opened Outcomes
  import opened Config
  import opened LimiterSpec
  import opened StateSpec
  import opened Protocol
  import opened Invariant
  import opened BreakerSteps
  import opened Runs
  import opened StateInstance
  import opened ConcurrencyLimiter
  import opened CircuitBreaker

  type Fallback = Option<CallError -> Option<CallError>>

  /** The breaker is in order and so is the protocol behind it. */
  ghost predicate Coherent(cb: CircuitBreaker)
    reads cb, cb.Repr
  {
    cb.Valid() && Inv(cb.world)
  }

  /** What a call keeps in its local variables agrees with the protocol's request. */
  ghost predicate Carries(cb: CircuitBreaker, r: nat, st: StateInstance, lim: WeightedSemaphore, s: Setting,
                          weight: nat)
    reads cb
  {
    cb.Captured(r, st, lim) && cb.world.reqs[r].setting == s && cb.world.reqs[r].weight == weight
  }

  /** What the rest of the program may do between two sections of request r. */
  method Interleave(cb: CircuitBreaker, ghost r: nat, ghost st: StateInstance, ghost lim: WeightedSemaphore,
                    ghost s: Setting, ghost weight: nat)
    requires Coherent(cb) && Carries(cb, r, st, lim, s, weight)
    modifies cb, cb.Repr
    ensures Coherent(cb) && fresh(cb.Repr - old(cb.Repr))
    ensures Carries(cb, r, st, lim, s, weight) && Placed(cb.world, r) && cb.world.reqs[r] == old(cb.world).reqs[r]
  {
  }

  /** That is no more than the protocol allows: steps of others leave a request as it is. */
  lemma {:induction false} OthersLeaveItAlone(w: World, actions: seq<Action>, r: nat)
    requires Inv(w) && r < |w.reqs|
    requires forall k :: 0 <= k < |actions| ==> Mover(actions[k]) != Some(r)
    ensures Inv(Run(w, actions)) && r < |Run(w, actions).reqs| && Run(w, actions).reqs[r] == w.reqs[r]
  {
    hide Inv, Step, Mover;
    if actions != [] {
      var before, a := actions[..|actions| - 1], actions[|actions| - 1];
      OthersLeaveItAlone(w, before, r);
      StepKeepsInvariant(Run(w, before), a);
      StepTakesAnEdge(Run(w, before), a, r);
    }
  }

  /** A step keeps the invariant and what a request carries. */
  lemma Onward(w: World, a: Action, r: nat)
    requires Inv(w) && r < |w.reqs|
    ensures Inv(Step(w, a)) && r < |Step(w, a).reqs|
    ensures Step(w, a).reqs[r].setting == w.reqs[r].setting && Step(w, a).reqs[r].weight == w.reqs[r].weight
    ensures w.reqs[r].pc.Released? || Step(w, a).reqs[r].call == w.reqs[r].call
  {
    hide Inv, Step;
    StepKeepsInvariant(w, a);
    StepTakesAnEdge(w, a, r);
  }

  lemma Owned(cb: CircuitBreaker, r: nat, st: StateInstance, lim: WeightedSemaphore)
    requires cb.Valid() && cb.Captured(r, st, lim)
    ensures cb !in st.Footprint() && cb !in cb.state.Footprint()
    ensures cb in cb.Repr && lim in cb.Repr && st.Footprint() <= cb.Repr && cb.state.Footprint() <= cb.Repr
  {
    hide Shows, WeightedSemaphore.Abs, StateInstance.Footprint;
  }

  /** enterWithFallback up to and including the transition a waiting tick calls for. */
  method BeginRequest(cb: CircuitBreaker, weight: nat)
    returns (r: nat, st: StateInstance, lim: WeightedSemaphore, s: Setting)
    requires Coherent(cb)
    modifies cb, cb.Repr
    ensures Coherent(cb) && fresh(cb.Repr - old(cb.Repr)) && r == |old(cb.world).reqs|
    ensures Carries(cb, r, st, lim, s, weight) && At(cb.world, r, Checked)
  {
    hide Inv, Step, CircuitBreaker.Valid, StateInstance.Footprint;
    StepKeepsInvariant(cb.world, Enter(weight));
    r, st, lim, s := cb.EnterSection(weight);
    Interleave(cb, r, st, lim, s, weight);
    Owned(cb, r, st, lim);
    Onward(cb.world, CheckStart(r), r);
    var decision := cb.CheckStartSection(r, st, lim);
    Interleave(cb, r, st, lim, s, weight);
    if decision.Some? {
      Owned(cb, r, st, lim);
      var now: int, born: int := *, *;
      Onward(cb.world, Win(r, now, born), r);
      st := cb.WinSection(r, st, lim, now, born);
      Interleave(cb, r, st, lim, s, weight);
    }
  }

  lemma ReadyAsShown(cb: CircuitBreaker, r: nat, st: StateInstance, lim: WeightedSemaphore)
    requires cb.Valid() && cb.Captured(r, st, lim) && Placed(cb.world, r)
    ensures IsReady(cb.world, r) <==> Find(lim.ready, r) < |lim.ready|
  {
    hide InstancesShow, Apart, Find;
  }

  /** `acquire`, in the sections its locks make. */
  method AcquireTokens(cb: CircuitBreaker, r: nat, st: StateInstance, lim: WeightedSemaphore, ghost s: Setting,
                       weight: nat)
    returns (failed: bool)
    requires Coherent(cb) && Carries(cb, r, st, lim, s, weight) && At(cb.world, r, Permitted)
    modifies cb, cb.Repr
    ensures Coherent(cb) && fresh(cb.Repr - old(cb.Repr)) && Carries(cb, r, st, lim, s, weight)
    ensures At(cb.world, r, if failed && st.ShouldCheckForMaxConcurrency() then Refused else Running)
  {
    hide Inv, Step, CircuitBreaker.Valid, StateInstance.Footprint, IsReady, IsQueued, Find;
    Owned(cb, r, st, lim);
    Onward(cb.world, CountAttempt(r), r);
    cb.CountAttemptSection(r, st, lim, weight);
    Interleave(cb, r, st, lim, s, weight);
    Owned(cb, r, st, lim);
    Onward(cb.world, TakeTokens(r), r);
    var verdict := cb.TakeTokensSection(r, st, lim, weight);
    Interleave(cb, r, st, lim, s, weight);
    if verdict == Queued {
      verdict := Await(cb, r, st, lim, s, weight);
    }
    failed := verdict == Denied;
  }

  /** The select of `acquire`: the waiter's channel is closed, or its context is done. */
  method Await(cb: CircuitBreaker, r: nat, st: StateInstance, lim: WeightedSemaphore, ghost s: Setting,
               ghost weight: nat)
    returns (verdict: LimiterSpec.Verdict)
    requires Coherent(cb) && Carries(cb, r, st, lim, s, weight) && At(cb.world, r, Waiting)
    modifies cb, cb.Repr
    ensures Coherent(cb) && fresh(cb.Repr - old(cb.Repr)) && Carries(cb, r, st, lim, s, weight)
    ensures verdict != Queued && At(cb.world, r, cb.After(st, verdict))
  {
    hide Inv, Step, CircuitBreaker.Valid, StateInstance.Footprint, IsReady, IsQueued, Find;
    Owned(cb, r, st, lim);
    StillWaiting(cb.world, r);
    ReadyAsShown(cb, r, st, lim);
    var expired: bool := *;
    if Find(lim.ready, r) < |lim.ready| && !expired {
      Onward(cb.world, Wake(r), r);
      cb.WakeSection(r, st, lim);
      verdict := Granted;
    } else {
      Onward(cb.world, GiveUp(r), r);
      verdict := cb.GiveUpSection(r, st, lim);
    }
    Interleave(cb, r, st, lim, s, weight);
  }

  /** ErrorAndFallback. The fallback takes its time, during which others run and the request keeps what
      it has. */
  method RunFallback(cb: CircuitBreaker, ghost r: nat, ghost st: StateInstance, ghost lim: WeightedSemaphore,
                     ghost s: Setting, ghost weight: nat, err: CallError, fallback: Fallback)
    returns (fbErr: Option<CallError>)
    requires Coherent(cb) && Carries(cb, r, st, lim, s, weight)
    modifies cb, cb.Repr
    ensures Coherent(cb) && fresh(cb.Repr - old(cb.Repr))
    ensures Carries(cb, r, st, lim, s, weight) && Placed(cb.world, r) && cb.world.reqs[r] == old(cb.world).reqs[r]
    ensures fbErr == ErrorAndFallback(fallback, err)
  {
    fbErr := match fallback case None => Some(err) case Some(f) => f(err);
    Interleave(cb, r, st, lim, s, weight);
  }

  /** Reports a request that was turned away. */
  method ReportTurnedAway(cb: CircuitBreaker, r: nat, st: StateInstance, lim: WeightedSemaphore,
                          ghost s: Setting, ghost weight: nat, why: CallError)
    requires Coherent(cb) && Carries(cb, r, st, lim, s, weight) && At(cb.world, r, Rejected(why))
    modifies cb, cb.Repr
    ensures Coherent(cb) && fresh(cb.Repr - old(cb.Repr)) && Carries(cb, r, st, lim, s, weight)
    ensures At(cb.world, r, Done(false, false, Classify(Some(why), false)))
  {
    hide Inv, Step, CircuitBreaker.Valid, StateInstance.Footprint;
    Owned(cb, r, st, lim);
    var now: int := *;
    Onward(cb.world, Action.ReportRejected(r, now), r);
    cb.ReportRejectedSection(r, st, lim, why, now);
  }

  class Entry {
    const cb: CircuitBreaker
    const r: nat
    const st: StateInstance
    const lim: WeightedSemaphore
    const setting: Setting
    const weight: nat
    var exited: bool

    constructor (cb: CircuitBreaker, r: nat, st: StateInstance, lim: WeightedSemaphore, s: Setting, weight: nat)
      ensures this.cb == cb && this.r == r && this.st == st && this.lim == lim
      ensures setting == s && this.weight == weight && !exited
    {
      this.cb, this.r, this.st, this.lim, setting, this.weight, exited := cb, r, st, lim, s, weight, false;
    }

    /** The entry belongs to a request that runs, or has exited. */
    ghost predicate Holds()
      reads this, cb, cb.Repr
    {
      && Coherent(cb) && Carries(cb, r, st, lim, setting, weight) && this !in cb.Repr
      && (!exited ==> At(cb.world, r, Running))
    }

    /** Exit: what the entry stands for is undone once, however often it is called. */
    method Exit(runError: Option<CallError>, elapsed: int)
      requires Holds()
      modifies this, cb, cb.Repr
      ensures Holds() && exited && fresh(cb.Repr - old(cb.Repr))
      ensures old(exited) ==> cb.world == old(cb.world)
      ensures !old(exited) ==> Finished(cb.world, r, runError, IsTimeout(setting.config, elapsed))
    {
      hide Inv, CircuitBreaker.Valid;
      if !exited {
        exited := true;
        var _ := ExitWithFallback(runError, elapsed, None);
      }
    }

    method ExitWithFallback(runError: Option<CallError>, elapsed: int, fallback: Fallback)
      returns (err: Option<CallError>)
      requires Coherent(cb) && Carries(cb, r, st, lim, setting, weight) && At(cb.world, r, Running) && this !in cb.Repr
      modifies cb, cb.Repr
      ensures Coherent(cb) && fresh(cb.Repr - old(cb.Repr)) && Carries(cb, r, st, lim, setting, weight)
      ensures Finished(cb.world, r, runError, IsTimeout(setting.config, elapsed))
      ensures err == if runError.Some? then ErrorAndFallback(fallback, runError.value) else None
    {
      hide Inv, Step, CircuitBreaker.Valid, StateInstance.Footprint, Classify, ErrorAndFallback;
      ReleaseTokens();
      Owned(cb, r, st, lim);
      var now: int := *;
      Onward(cb.world, RecordOutcome(r, runError, elapsed, now), r);
      var timedOut, decision := cb.RecordOutcomeSection(r, st, lim, setting, runError, elapsed, now);
      Interleave(cb, r, st, lim, setting, weight);
      err := None;
      if runError.Some? {
        err := RunFallback(cb, r, st, lim, setting, weight, runError.value, fallback);
      }
      Conclude(timedOut, decision, runError);
    }

    /** The transition an outcome called for, if any, and the report. */
    method Conclude(timedOut: bool, decision: Option<Decision>, runError: Option<CallError>)
      requires Coherent(cb) && Carries(cb, r, st, lim, setting, weight) && this !in cb.Repr && Placed(cb.world, r)
      requires cb.world.reqs[r].call == Some(Call(runError, timedOut))
      requires decision.None? ==> At(cb.world, r, Concluded(false, Classify(runError, timedOut)))
      requires decision.Some? ==>
                 var pc := cb.world.reqs[r].pc;
                 && pc.Deciding? && decision.value == Decision(pc.to, pc.reason)
                 && pc.outcome == Classify(runError, timedOut)
      modifies cb, cb.Repr
      ensures Coherent(cb) && fresh(cb.Repr - old(cb.Repr)) && Carries(cb, r, st, lim, setting, weight)
      ensures Finished(cb.world, r, runError, timedOut)
    {
      hide Inv, Step, CircuitBreaker.Valid, StateInstance.Footprint, Classify;
      if decision.Some? {
        FollowDecision(decision.value);
      }
      Owned(cb, r, st, lim);
      Onward(cb.world, ReportDone(r), r);
      cb.ReportDoneSection(r, st, lim, timedOut, runError);
    }

    /** The transition an outcome called for. */
    method FollowDecision(decision: Decision)
      requires Coherent(cb) && Carries(cb, r, st, lim, setting, weight) && this !in cb.Repr
      requires cb.world.reqs[r].pc.Deciding? && decision == Decision(cb.world.reqs[r].pc.to, cb.world.reqs[r].pc.reason)
      modifies cb, cb.Repr
      ensures Coherent(cb) && fresh(cb.Repr - old(cb.Repr)) && Carries(cb, r, st, lim, setting, weight)
      ensures At(cb.world, r, Concluded(true, old(cb.world).reqs[r].pc.outcome))
      ensures cb.world.reqs[r].call == old(cb.world).reqs[r].call
    {
      hide Inv, Step, CircuitBreaker.Valid, StateInstance.Footprint;
      Owned(cb, r, st, lim);
      var now: int, born: int := *, *;
      Onward(cb.world, Decide(r, now, born), r);
      cb.DecideSection(r, st, lim, decision, now, born);
      Interleave(cb, r, st, lim, setting, weight);
    }

    /** `release`, in its two sections. */
    method ReleaseTokens()
      requires Coherent(cb) && Carries(cb, r, st, lim, setting, weight) && At(cb.world, r, Running) && this !in cb.Repr
      modifies cb, cb.Repr
      ensures Coherent(cb) && fresh(cb.Repr - old(cb.Repr)) && Carries(cb, r, st, lim, setting, weight)
      ensures At(cb.world, r, Released)
    {
      hide Inv, Step, CircuitBreaker.Valid, StateInstance.Footprint;
      Owned(cb, r, st, lim);
      Onward(cb.world, BeginExit(r), r);
      cb.BeginExitSection(r, st, lim, weight);
      Interleave(cb, r, st, lim, setting, weight);
      Owned(cb, r, st, lim);
      Onward(cb.world, ReturnTokens(r), r);
      cb.ReturnTokensSection(r, st, lim, weight);
      Interleave(cb, r, st, lim, setting, weight);
    }
  }

  /** The request ran, and its outcome is the one reported. */
  ghost predicate Finished(w: World, r: nat, runError: Option<CallError>, timedOut: bool) {
    && Placed(w, r) && w.reqs[r].pc.Done? && w.reqs[r].pc.admitted
    && w.reqs[r].call == Some(Call(runError, timedOut)) && w.reqs[r].pc.outcome == Classify(runError, timedOut)
  }

  method AskForPermission(cb: CircuitBreaker, r: nat, st: StateInstance, lim: WeightedSemaphore,
                          ghost s: Setting, ghost weight: nat)
    returns (denial: Option<CallError>)
    requires Coherent(cb) && Carries(cb, r, st, lim, s, weight) && At(cb.world, r, Checked)
    modifies cb, cb.Repr
    ensures Coherent(cb) && fresh(cb.Repr - old(cb.Repr)) && Carries(cb, r, st, lim, s, weight)
    ensures At(cb.world, r, if denial.Some? then Rejected(denial.value) else Permitted)
  {
    hide Inv, Step, CircuitBreaker.Valid, StateInstance.Footprint;
    Owned(cb, r, st, lim);
    Onward(cb.world, Action.AskPermission(r), r);
    denial := cb.AskPermissionSection(r, st, lim);
    Interleave(cb, r, st, lim, s, weight);
  }

  method EnterWithFallback(cb: CircuitBreaker, weight: nat, fallback: Fallback)
    returns (entry: Entry?, fbErr: Option<CallError>, enterErr: Option<CallError>, ghost r: nat)
    requires Coherent(cb)
    modifies cb, cb.Repr
    ensures Coherent(cb) && fresh(cb.Repr - old(cb.Repr)) && r == |old(cb.world).reqs|
    ensures entry != null <==> enterErr.None?
    ensures entry != null ==> fresh(entry) && entry.cb == cb && entry.r == r && entry.weight == weight
    ensures entry != null ==> entry.Holds() && !entry.exited
    ensures enterErr.Some? ==> fbErr == ErrorAndFallback(fallback, enterErr.value)
    ensures enterErr.Some? ==> At(cb.world, r, Done(false, false, Classify(enterErr, false)))
  {
    hide Inv, Step, CircuitBreaker.Valid, StateInstance.Footprint, Classify, ErrorAndFallback;
    var n, st, lim, s := BeginRequest(cb, weight);
    r, entry, fbErr, enterErr := n, null, None, None;
    var stateError := AskForPermission(cb, n, st, lim, s, weight);
    if stateError.Some? {
      enterErr := stateError;
      fbErr := RunFallback(cb, n, st, lim, s, weight, stateError.value, fallback);
      ReportTurnedAway(cb, n, st, lim, s, weight, stateError.value);
      return;
    }
    var failed := AcquireTokens(cb, n, st, lim, s, weight);
    if st.ShouldCheckForMaxConcurrency() && failed {
      enterErr := Some(ErrMaxConcurrency);
      fbErr := HandBack(cb, n, st, lim, s, weight, fallback);
      return;
    }
    entry := new Entry(cb, n, st, lim, s, weight);
  }

  /** The way out of a request that got no tokens: the fallback runs while the request still has its
      permission, which is handed back after it. */
  method HandBack(cb: CircuitBreaker, r: nat, st: StateInstance, lim: WeightedSemaphore,
                  ghost s: Setting, ghost weight: nat, fallback: Fallback)
    returns (err: Option<CallError>)
    requires Coherent(cb) && Carries(cb, r, st, lim, s, weight) && At(cb.world, r, Refused)
    modifies cb, cb.Repr
    ensures Coherent(cb) && fresh(cb.Repr - old(cb.Repr)) && Carries(cb, r, st, lim, s, weight)
    ensures At(cb.world, r, Done(false, false, Classify(Some(ErrMaxConcurrency), false)))
    ensures err == ErrorAndFallback(fallback, ErrMaxConcurrency)
  {
    hide Inv, Step, CircuitBreaker.Valid, StateInstance.Footprint, Classify, ErrorAndFallback;
    err := RunFallback(cb, r, st, lim, s, weight, ErrMaxConcurrency, fallback);
    Owned(cb, r, st, lim);
    Onward(cb.world, Action.ReturnPermission(r), r);
    cb.ReturnPermissionSection(r, st, lim);
    Interleave(cb, r, st, lim, s, weight);
    ReportTurnedAway(cb, r, st, lim, s, weight, ErrMaxConcurrency);
  }

  /** The protected function of a caller: it counts its calls and remembers how the last one ended. */
  class RunFunction {
    var calls: nat
    var lastError: Option<CallError>
    var lastElapsed: int

    constructor ()
      ensures calls == 0
    {
      calls, lastError, lastElapsed := 0, None, 0;
    }

    /** It is called only on behalf of a request that runs, and it may end in any way. */
    method Call(ghost w: World, ghost r: nat)
      requires At(w, r, Running)
      modifies this
      ensures calls == old(calls) + 1
    {
      calls := calls + 1;
      lastError, lastElapsed := *, *;
    }
  }

  /** ProtectWithContext. The protected function is called exactly once if the request is admitted, at
      a time when the request runs, and never if it is turned away; the caller gets its error, the
      breaker's, or that of the fallback. */
  method Protect(cb: CircuitBreaker, weight: nat, run: RunFunction, fallback: Fallback)
    returns (err: Option<CallError>, ghost r: nat, ghost why: Option<CallError>)
    requires Coherent(cb) && run !in cb.Repr
    modifies cb, cb.Repr, run
    ensures Coherent(cb) && fresh(cb.Repr - old(cb.Repr)) && r == |old(cb.world).reqs| < |cb.world.reqs|
    ensures cb.world.reqs[r].pc.Done? && (cb.world.reqs[r].pc.admitted <==> why.None?)
    ensures run.calls == old(run.calls) + if why.None? then 1 else 0
    ensures why.None? ==>
              var timedOut := IsTimeout(cb.world.reqs[r].setting.config, run.lastElapsed);
              && cb.world.reqs[r].call == Some(Call(run.lastError, timedOut))
              && cb.world.reqs[r].pc.outcome == Classify(run.lastError, timedOut)
    ensures why.Some? ==> cb.world.reqs[r].pc.outcome == Classify(why, false)
    ensures var error := if why.Some? then why else run.lastError;
            err == if error.None? || fallback.None? then error else fallback.value(error.value)
  {
    hide Inv, Step, CircuitBreaker.Valid, StateInstance.Footprint, Classify;
    var entry: Entry?, fbErr, enterErr;
    entry, fbErr, enterErr, r := EnterWithFallback(cb, weight, fallback);
    why := enterErr;
    if enterErr.Some? {
      return fbErr, r, why;
    }
    run.Call(cb.world, r);
    Interleave(cb, r, entry.st, entry.lim, entry.setting, weight);
    err := entry.ExitWithFallback(run.lastError, run.lastElapsed, fallback);
  }
}
