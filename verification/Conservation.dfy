/** When the count of a limiter is exactly the weight of the calls that hold its tokens: which steps
    keep the books exact, and what follows while they are. */
module Conservation {
  import opened Outcomes
  import opened Config
  import opened LimiterSpec
  import opened StateSpec
  import opened Protocol
  import opened Accounting
  import opened Invariant
  import opened RequestSteps
  import opened BreakerSteps
  import opened Runs
  import opened Safety

  // ---- The law of one step -------------------------------------------------------------------

  /** What the calls that hold tokens of limiter l weigh beyond what the limiter counts for them. */
  ghost function Gap(w: World, l: nat): int
    requires l < |w.limiters|
  {
    Total(Held(l), w.reqs) - w.limiters[l].Out()
  }

  /** The books of limiter l are exact. */
  ghost predicate Exact(w: World, l: nat)
    requires l < |w.limiters|
  {
    w.limiters[l].Out() == Total(Held(l), w.reqs)
  }

  /** What a step takes off the count of limiter l beyond what its request held. A call that was admitted
      without tokens takes its weight, or the whole count if that is less; the release of a call that
      holds tokens takes less than its weight when the count is clamped. */
  function Lost(w: World, a: Action, l: nat): int {
    if a.ReturnTokens? && Enabled(w, a) && w.reqs[a.r].lim == l then
      var q := w.reqs[a.r];
      Min(q.weight, w.limiters[l].cur) - (if q.unfunded then 0 else q.weight)
    else 0
  }

  /** Every step, from any books, changes the gap by exactly that. */
  lemma GapMovesByLoss(w: World, a: Action, l: nat)
    requires Inv(w) && Enabled(w, a) && l < |w.limiters| && !w.limiters[l].NoOp()
    ensures l < |Step(w, a).limiters|
    ensures Gap(Step(w, a), l) == Gap(w, l) + Lost(w, a, l)
  {
    hide Inv, Step, Weigh, Total, Limiter.Out, Lost;
    StepIsLocal(w, a);
    if Mover(a).Some? {
      var r := Mover(a).value;
      OutFollows(w, a, r, l);
      TotalUpdate(Held(l), w.reqs, r, Step(w, a).reqs[r]);
    } else {
      NobodyMoves(w, a, l);
    }
  }

  /** A call that was admitted without tokens returns its weight, at the expense of others. */
  predicate TakesFromOthers(w: World, a: Action, l: nat)
    requires l < |w.limiters|
  {
    && a.ReturnTokens? && a.r < |w.reqs|
    && w.reqs[a.r].lim == l && w.reqs[a.r].unfunded && w.reqs[a.r].weight > 0 && w.limiters[l].cur > 0
  }

  /** So exact books stay exact in every step but one kind: the release of a call that holds no tokens,
      when its weight and the count are not zero. */
  lemma StaysExactIff(w: World, a: Action, l: nat)
    requires Inv(w) && Enabled(w, a) && l < |w.limiters| && !w.limiters[l].NoOp() && Exact(w, l)
    ensures l < |Step(w, a).limiters|
    ensures Exact(Step(w, a), l) <==> !TakesFromOthers(w, a, l)
  {
    hide Inv, Step, Total, Limiter.Out;
    GapMovesByLoss(w, a, l);
    if a.ReturnTokens? && w.reqs[a.r].lim == l {
      TokensAreConserved(w, l);
      if !w.reqs[a.r].unfunded {
        ClampIsUnreachable(w, a.r);
      }
    }
  }

  lemma NobodyMoves(w: World, a: Action, l: nat)
    requires Enabled(w, a) && Mover(a).None? && l < |w.limiters|
    ensures l < |Step(w, a).limiters| && Step(w, a).limiters[l] == w.limiters[l]
    ensures Total(Held(l), Step(w, a).reqs) == Total(Held(l), w.reqs)
    ensures Lost(w, a, l) == 0
  {
    hide Total, NewInst, Glance;
    if a.Enter? {
      TotalSnoc(Held(l), w.reqs, Req(Snapped, w.state, w.limiter, w.setting, a.weight, None, false, None));
    }
  }

  /** The tokens out change with the share of the request that moves, but for what is lost. */
  lemma OutFollows(w: World, a: Action, r: nat, l: nat)
    requires Inv(w) && Enabled(w, a) && Mover(a) == Some(r) && l < |w.limiters| && !w.limiters[l].NoOp()
    ensures r < |w.reqs| && r < |Step(w, a).reqs| && l < |Step(w, a).limiters|
    ensures Step(w, a).limiters[l].Out() - w.limiters[l].Out() ==
            Weigh(Held(l), Step(w, a).reqs[r]) - Weigh(Held(l), w.reqs[r]) - Lost(w, a, l)
  {
    hide Inv, Step, Weigh, Total, Limiter.Out;
    StepIsLocal(w, a);
    if w.reqs[r].lim != l || !(a.TakeTokens? || a.Wake? || a.GiveUp? || a.ReturnTokens?) {
      OutStays(w, a, r, l);
    } else if a.TakeTokens? {
      OutTaken(w, r);
    } else if a.ReturnTokens? {
      OutReturned(w, r);
    } else {
      OutAwaited(w, a, r);
    }
  }

  lemma OutStays(w: World, a: Action, r: nat, l: nat)
    requires Enabled(w, a) && Mover(a) == Some(r) && l < |w.limiters| && r < |w.reqs|
    requires w.reqs[r].lim != l || !(a.TakeTokens? || a.Wake? || a.GiveUp? || a.ReturnTokens?)
    ensures l < |Step(w, a).limiters| && Step(w, a).limiters[l].Out() == w.limiters[l].Out()
    ensures r < |Step(w, a).reqs| && Weigh(Held(l), Step(w, a).reqs[r]) == Weigh(Held(l), w.reqs[r])
    ensures Lost(w, a, l) == 0
  {
    hide StartDecision, AcquirePermission, TryAcquire, Expire, Resume, Release, Record, Glance, StateSpec.Verdict,
         Classify, NewInst, Find, LimiterSpec.Weight;
  }

  lemma OutTaken(w: World, r: nat)
    requires Inv(w) && At(w, r, Attempted) && !w.limiters[w.reqs[r].lim].NoOp()
    ensures var (l, w') := (w.reqs[r].lim, Step(w, TakeTokens(r)));
            && r < |w'.reqs| && l < |w'.limiters|
            && w'.limiters[l].Out() - w.limiters[l].Out() == Weigh(Held(l), w'.reqs[r]) - Weigh(Held(l), w.reqs[r])
  {
    var q := w.reqs[r];
    var l, lim := q.lim, w.limiters[q.lim];
    hide Inv, Weigh, TryAcquire, Waits, Admit, Limiter.Out, LimiterOk;
    ReadyToTake(w, r);
    TryAcquireKeeps(lim, r, q.weight);
    AdmitStates(q, w.insts[q.inst], TryAcquire(lim, r, q.weight).1);
  }

  lemma ReadyToTake(w: World, r: nat)
    requires Inv(w) && At(w, r, Attempted)
    ensures LimiterOk(w.limiters[w.reqs[r].lim]) && !w.reqs[r].unfunded
    ensures !Waits(Pending(w.limiters[w.reqs[r].lim]), r)
  {
    NotPending(w, r);
    hide InstOk, TrailOk, NotStuck, ReportsOk, LimiterOk, Waits, Balanced, OneGeneration;
    assert ReqOk(w, r) && LimOk(w.reqs, w.reqs[r].lim, w.limiters[w.reqs[r].lim], w.gens[w.reqs[r].lim]);
  }

  lemma OutAwaited(w: World, a: Action, r: nat)
    requires Inv(w) && At(w, r, Waiting) && Enabled(w, a) && (a == Wake(r) || a == GiveUp(r))
    ensures var (l, w') := (w.reqs[r].lim, Step(w, a));
            && r < |w'.reqs| && l < |w'.limiters|
            && w'.limiters[l].Out() - w.limiters[l].Out() == Weigh(Held(l), w'.reqs[r]) - Weigh(Held(l), w.reqs[r])
  {
    var q := w.reqs[r];
    var l, lim := q.lim, w.limiters[q.lim];
    WaitingIsListed(w, r);
    assert ReqOk(w, r) && LimOk(w.reqs, l, lim, w.gens[l]);
    hide Inv, ReqOk, Weigh, Resume, Expire, Waits, Admit, Limiter.Out, LimiterOk, Find;
    AwaitedOut(lim, r);
    if Find(lim.ready, r) < |lim.ready| {
      assert lim.ready[Find(lim.ready, r)] in Pending(lim);
    }
    AdmitStates(q, w.insts[q.inst], Granted);
    AdmitStates(q, w.insts[q.inst], Denied);
  }

  lemma AwaitedOut(lim: Limiter, r: nat)
    requires LimiterOk(lim) && !lim.NoOp() && Waits(Pending(lim), r)
    ensures Find(lim.ready, r) == |lim.ready| ==> Find(lim.queue, r) < |lim.queue|
    ensures Find(lim.ready, r) < |lim.ready| ==>
              && Resume(lim, r).Out() == lim.Out() + lim.ready[Find(lim.ready, r)].n
              && Expire(lim, r) == (Resume(lim, r), Granted)
    ensures Find(lim.ready, r) == |lim.ready| ==> Expire(lim, r).0.Out() == lim.Out() && Expire(lim, r).1 == Denied
  {
    ExpireKeeps(lim, r);
    hide LimiterOk, LimiterSpec.Weight, Find, Waits, Notify;
  }

  lemma OutReturned(w: World, r: nat)
    requires Inv(w) && At(w, r, Uncounted) && !w.limiters[w.reqs[r].lim].NoOp()
    ensures var (l, w') := (w.reqs[r].lim, Step(w, ReturnTokens(r)));
            && r < |w'.reqs| && l < |w'.limiters|
            && w'.limiters[l].Out() - w.limiters[l].Out() ==
               Weigh(Held(l), w'.reqs[r]) - Weigh(Held(l), w.reqs[r]) - Lost(w, ReturnTokens(r), l)
  {
    var q := w.reqs[r];
    var l, lim := q.lim, w.limiters[q.lim];
    assert LimOk(w.reqs, l, lim, w.gens[l]);
    hide Inv, LimiterOk, Release, Limiter.Out, Total;
    ReleasedOut(lim, q.weight);
  }

  lemma ReleasedOut(lim: Limiter, n: nat)
    requires LimiterOk(lim) && !lim.NoOp()
    ensures Release(lim, n).Out() == lim.Out() - Min(n, lim.cur)
  {
    ReleaseKeeps(lim, n);
    hide LimiterSpec.Weight, Release, Awake, InOrder, Distinct;
  }

  /** While the books are exact, a call that holds tokens never releases more than is counted: it does
      not reach the branch that clamps the count at zero. */
  lemma ClampIsUnreachable(w: World, r: nat)
    requires Inv(w) && At(w, r, Uncounted) && !w.reqs[r].unfunded
    requires !w.limiters[w.reqs[r].lim].NoOp() && Exact(w, w.reqs[r].lim)
    ensures w.limiters[w.reqs[r].lim].cur - w.reqs[r].weight >= 0
  {
    hide Inv, LimiterSpec.Weight, Total;
    TotalContains(Held(w.reqs[r].lim), w.reqs, r);
    WeightIsNatural(w.limiters[w.reqs[r].lim].ready);
  }

  // ---- The law of a run ----------------------------------------------------------------------

  /** What all steps of a run together take off limiter l beyond what was held. */
  function LostAlong(w: World, actions: seq<Action>, l: nat): int {
    if actions == [] then 0
    else
      var before := actions[..|actions| - 1];
      LostAlong(w, before, l) + Lost(Run(w, before), actions[|actions| - 1], l)
  }

  lemma {:induction false} GapMovesByLossAlong(w: World, actions: seq<Action>, l: nat)
    requires Inv(w) && l < |w.limiters| && !w.limiters[l].NoOp()
    ensures Inv(Run(w, actions)) && l < |Run(w, actions).limiters|
    ensures Run(w, actions).limiters[l].size == w.limiters[l].size
    ensures Gap(Run(w, actions), l) == Gap(w, l) + LostAlong(w, actions, l)
  {
    hide Inv, Step, Gap, Lost;
    SizeStays(w, actions, l);
    if actions != [] {
      var before, a := actions[..|actions| - 1], actions[|actions| - 1];
      GapMovesByLossAlong(w, before, l);
      if Enabled(Run(w, before), a) {
        GapMovesByLoss(Run(w, before), a, l);
      } else {
        NothingHappens(Run(w, before), a);
        NothingLost(Run(w, before), a, l);
      }
    }
  }

  lemma NothingLost(w: World, a: Action, l: nat)
    requires !Enabled(w, a)
    ensures Lost(w, a, l) == 0
  {
  }

  /** After any run from exact books, the calls that hold tokens or have been granted theirs exceed the
      limit if and only if the run has lost more than the tokens that are free; and never by more than
      it has lost. */
  lemma LimitExceededIff(w: World, actions: seq<Action>, l: nat)
    requires Inv(w) && l < |w.limiters| && !w.limiters[l].NoOp() && Exact(w, l)
    ensures l < |Run(w, actions).limiters|
    ensures var (w', lost) := (Run(w, actions), LostAlong(w, actions, l));
            var lim := w'.limiters[l];
            var holding := Total(Held(l), w'.reqs) + LimiterSpec.Weight(lim.ready);
            && lim.size == w.limiters[l].size && lost >= 0
            && (holding > lim.size <==> lost > lim.size - lim.cur)
            && holding <= lim.size + lost
  {
    hide Inv, Total, LimiterSpec.Weight, Run, LostAlong, Funded;
    GapMovesByLossAlong(w, actions, l);
    TokensAreConserved(Run(w, actions), l);
  }

  /** After any run from exact books, a release takes the branch that clamps the count at zero if and
      only if the run has lost more than what is held, for a call that holds tokens by the others, or
      has been granted. */
  lemma ClampedIff(w: World, actions: seq<Action>, r: nat)
    requires var w' := Run(w, actions);
             Inv(w) && At(w', r, Uncounted)
    requires var l := Run(w, actions).reqs[r].lim; l < |w.limiters| && !w.limiters[l].NoOp() && Exact(w, l)
    ensures var (w', l) := (Run(w, actions), Run(w, actions).reqs[r].lim);
            var (q, lim) := (w'.reqs[r], w'.limiters[l]);
            && !lim.NoOp()
            && (lim.cur - q.weight < 0 <==>
                  LostAlong(w, actions, l) > Total(Held(l), w'.reqs) - q.weight + LimiterSpec.Weight(lim.ready))
  {
    hide Inv, Total, LimiterSpec.Weight, Run, LostAlong;
    GapMovesByLossAlong(w, actions, Run(w, actions).reqs[r].lim);
  }

  /** Along a whole run books stay exact, and so the calls that run within the limit, as long as no
      step of that kind is taken; in particular while calls without tokens merely run. */
  lemma {:induction false} RunStaysExact(w: World, actions: seq<Action>, l: nat)
    requires Inv(w) && l < |w.limiters| && !w.limiters[l].NoOp() && Exact(w, l)
    requires forall k :: 0 <= k < |actions| ==> Harmless(Run(w, actions[..k]), actions[k], l)
    ensures Inv(Run(w, actions)) && l < |Run(w, actions).limiters| && Exact(Run(w, actions), l)
    ensures Run(w, actions).limiters[l].size == w.limiters[l].size
    ensures Total(Held(l), Run(w, actions).reqs) <= w.limiters[l].size
  {
    hide Inv, Step, Exact, TakesFromOthers;
    SizeStays(w, actions, l);
    if actions != [] {
      var before, a := actions[..|actions| - 1], actions[|actions| - 1];
      assert forall k :: 0 <= k < |before| ==> before[..k] == actions[..k];
      RunStaysExact(w, before, l);
      assert actions[..|actions| - 1] == before;
      assert Harmless(Run(w, before), a, l);
      if Enabled(Run(w, before), a) {
        StaysExactIff(Run(w, before), a, l);
      } else {
        NothingHappens(Run(w, before), a);
      }
    }
    ExactIsWithinLimit(Run(w, actions), l);
  }

  lemma NothingHappens(w: World, a: Action)
    requires !Enabled(w, a)
    ensures Step(w, a) == w
  {
  }

  lemma SizeStays(w: World, actions: seq<Action>, l: nat)
    requires Inv(w) && l < |w.limiters|
    ensures Inv(Run(w, actions)) && l < |Run(w, actions).limiters|
    ensures Run(w, actions).limiters[l].size == w.limiters[l].size
  {
    HistoryOnlyGrows(w, actions);
    hide InstOk, ReqOk, TrailOk, NotStuck, Evolves, Run, LimiterOk, Balanced;
    var w' := Run(w, actions);
    assert LimOk(w.reqs, l, w.limiters[l], w.gens[l]) && LimOk(w'.reqs, l, w'.limiters[l], w'.gens[l]);
    assert w'.gens[l] == w'.gens[..|w.gens|][l];
  }

  lemma ExactIsWithinLimit(w: World, l: nat)
    requires Inv(w) && l < |w.limiters| && !w.limiters[l].NoOp() && Exact(w, l)
    ensures Total(Held(l), w.reqs) <= w.limiters[l].size
  {
    hide InstOk, ReqOk, TrailOk, NotStuck, Total, LimiterSpec.Weight;
    assert LimOk(w.reqs, l, w.limiters[l], w.gens[l]);
    WeightIsNatural(w.limiters[l].ready);
  }

  /** The books of a new breaker are exact, ... */
  lemma FirstBooksAreExact(config: Config, born: int, time: int)
    requires ValidConfig(config)
    ensures Inv(Start(config, born, time)) && |Start(config, born, time).limiters| == 1
    ensures Exact(Start(config, born, time), 0)
  {
    StartSatisfiesInvariant(config, born, time);
    hide Inv, NewInst, Fill, Usable;
  }

  /** ... and so are those of a limiter that an update makes. */
  lemma NewBooksAreExact(w: World, config: Option<Config>, born: int)
    requires Inv(w)
    ensures var w' := Step(w, Update(config, born));
            && w'.limiter < |w'.limiters|
            && (w'.limiter != w.limiter ==> Exact(w', w'.limiter))
  {
    StepKeepsInvariant(w, Update(config, born));
    hide InstOk, LimOk, TrailOk, NotStuck, NewInst, FillConfig, Checkers, ReqFits, ReportsOk, Total;
    var w' := Step(w, Update(config, born));
    if w'.limiter != w.limiter {
      forall r | 0 <= r < |w'.reqs|
        ensures Weigh(Held(w'.limiter), w'.reqs[r]) == 0
      {
        assert ReqOk(w, r);
      }
      TotalZero(Held(w'.limiter), w'.reqs);
    }
  }

  // ---- All generations together ----------------------------------------------------------------

  /** The weight of all calls that hold tokens of a limiter that limits, whichever it is. */
  function InFlight(limiters: seq<Limiter>, reqs: seq<Req>): nat {
    if reqs == [] then 0
    else
      var q := reqs[|reqs| - 1];
      InFlight(limiters, reqs[..|reqs| - 1])
      + if q.lim < |limiters| && !limiters[q.lim].NoOp() && HasTokens(q) then q.weight else 0
  }

  /** The same, limiter by limiter, for the first n of them. */
  function HeldByFirst(limiters: seq<Limiter>, reqs: seq<Req>, n: nat): nat
    requires n <= |limiters|
  {
    if n == 0 then 0
    else HeldByFirst(limiters, reqs, n - 1) + if limiters[n - 1].NoOp() then 0 else Total(Held(n - 1), reqs)
  }

  /** On every run of a new breaker the gap of each limiter is what the run has lost on it; a limiter
      that is not made yet has lost nothing. */
  lemma {:induction false} GapIsLoss(w: World, actions: seq<Action>, l: nat)
    requires Inv(w) && |w.limiters| == 1 && Exact(w, 0)
    ensures Inv(Run(w, actions))
    ensures l < |Run(w, actions).limiters| && !Run(w, actions).limiters[l].NoOp() ==>
              Gap(Run(w, actions), l) == LostAlong(w, actions, l)
    ensures l >= |Run(w, actions).limiters| ==> LostAlong(w, actions, l) == 0
  {
    hide Inv, Step, Gap, Lost;
    if actions == [] {
      ExactHasNoGap(w);
    } else {
      var before, a := actions[..|actions| - 1], actions[|actions| - 1];
      GapIsLoss(w, before, l);
      GapIsLossStep(Run(w, before), a, l, LostAlong(w, before, l));
      StepKeepsInvariant(Run(w, before), a);
    }
  }

  lemma ExactHasNoGap(w: World)
    requires |w.limiters| == 1 && Exact(w, 0)
    ensures Gap(w, 0) == 0
  {
    hide Total, LimiterSpec.Weight;
  }

  lemma GapIsLossStep(w: World, a: Action, l: nat, lost: int)
    requires Inv(w)
    requires l < |w.limiters| && !w.limiters[l].NoOp() ==> Gap(w, l) == lost
    requires l >= |w.limiters| ==> lost == 0
    ensures l < |Step(w, a).limiters| && !Step(w, a).limiters[l].NoOp() ==>
              Gap(Step(w, a), l) == lost + Lost(w, a, l)
    ensures l >= |Step(w, a).limiters| ==> lost + Lost(w, a, l) == 0
  {
    hide Inv, Step, Gap, Lost, Enabled;
    if !Enabled(w, a) {
      NothingHappens(w, a);
      NothingLost(w, a, l);
    } else if l < |w.limiters| {
      SizeStaysInStep(w, a, l);
      if !w.limiters[l].NoOp() {
        GapMovesByLoss(w, a, l);
      }
    } else {
      NotMadeYet(w, a, l);
    }
  }

  lemma SizeStaysInStep(w: World, a: Action, l: nat)
    requires Inv(w) && l < |w.limiters|
    ensures l < |Step(w, a).limiters| && Step(w, a).limiters[l].size == w.limiters[l].size
  {
    hide Inv, Step;
    SizeStays(w, [a], l);
    assert [a][..0] == [];
    assert Run(w, [a]) == Step(Run(w, []), a);
  }

  /** A step loses nothing on a limiter that is not there, and if it makes it, its books are exact. */
  lemma NotMadeYet(w: World, a: Action, l: nat)
    requires Inv(w) && Enabled(w, a) && l >= |w.limiters|
    ensures Lost(w, a, l) == 0
    ensures l < |Step(w, a).limiters| ==> Gap(Step(w, a), l) == 0
  {
    hide Inv, Step, Total, LimiterSpec.Weight;
    OnlyUpdatesMakeLimiters(w, a);
    if a.Update? {
      NewBooksAreExact(w, a.config, a.born);
    }
  }

  lemma OnlyUpdatesMakeLimiters(w: World, a: Action)
    requires Inv(w) && Enabled(w, a)
    ensures var w' := Step(w, a);
            || |w'.limiters| == |w.limiters|
            || (a.Update? && |w'.limiters| == |w.limiters| + 1 && w'.limiter == |w.limiters| != w.limiter)
  {
    hide InstOk, LimOk, ReqOk, TrailOk, NotStuck, ReportsOk, StartDecision, AcquirePermission, TryAcquire, Expire,
         Resume, Release, Record, Glance, StateSpec.Verdict, Classify, NewInst, Find, FillConfig, Checkers;
  }

  /** The sizes of those of the first n limiters that have calls in flight, and what the run has lost on
      them. */
  function RoomOfFirst(start: World, actions: seq<Action>, n: nat): int
    requires n <= |Run(start, actions).limiters|
  {
    if n == 0 then 0
    else
      var w := Run(start, actions);
      RoomOfFirst(start, actions, n - 1)
      + if w.limiters[n - 1].NoOp() || Total(Held(n - 1), w.reqs) == 0 then 0
        else w.limiters[n - 1].size + LostAlong(start, actions, n - 1)
  }

  /** The limit of a breaker over all its configuration generations, after any run of a new breaker. An
      update makes a new limiter and the calls of the old one go on, so the calls in flight are bounded
      by the sizes of all limiters that still have some, plus what the run has lost on these; and they
      exceed the configured limit if and only if those of earlier generations, plus what the run has
      lost on the present limiter, weigh more than the tokens it has not given out. */
  lemma InFlightIsBounded(config: Config, born: int, time: int, actions: seq<Action>)
    requires ValidConfig(config)
    ensures var w := Run(Start(config, born, time), actions);
            w.limiter < |w.limiters|
            && InFlight(w.limiters, w.reqs) <= RoomOfFirst(Start(config, born, time), actions, |w.limiters|)
    ensures var (start, w) := (Start(config, born, time), Run(Start(config, born, time), actions));
            var lim := w.limiters[w.limiter];
            !lim.NoOp() ==>
              (InFlight(w.limiters, w.reqs) > w.setting.config.maxConcurrentCalls <==>
                 HeldByFirst(w.limiters, w.reqs, w.limiter) + LostAlong(start, actions, w.limiter)
                   > lim.size - lim.Out())
  {
    hide Inv, Start, Run, LostAlong, InFlight, Total, LimiterSpec.Weight, HeldByFirst, RoomOfFirst, ValidConfig;
    FirstBooksAreExact(config, born, time);
    var start := Start(config, born, time);
    var w := Run(start, actions);
    GapIsLoss(start, actions, 0);
    PresentLimiter(w);
    HeldBelowRoom(start, actions, |w.limiters|);
    InFlightByLimiter(w.limiters, w.reqs);
    PresentShare(w);
    GapIsLoss(start, actions, w.limiter);
  }

  lemma PresentShare(w: World)
    requires w.limiter == |w.limiters| - 1
    ensures HeldByFirst(w.limiters, w.reqs, |w.limiters|) ==
            HeldByFirst(w.limiters, w.reqs, w.limiter)
            + if w.limiters[w.limiter].NoOp() then 0 else Total(Held(w.limiter), w.reqs)
  {
    hide Total;
  }

  lemma PresentLimiter(w: World)
    requires Inv(w)
    ensures w.limiter == |w.limiters| - 1 && w.limiters[w.limiter].size == w.setting.config.maxConcurrentCalls
  {
    hide InstOk, ReqOk, TrailOk, NotStuck, ReportsOk, LimiterOk, Balanced;
    assert LimOk(w.reqs, w.limiter, w.limiters[w.limiter], w.gens[w.limiter]);
  }

  lemma {:induction false} HeldBelowRoom(start: World, actions: seq<Action>, n: nat)
    requires Inv(start) && |start.limiters| == 1 && Exact(start, 0) && n <= |Run(start, actions).limiters|
    ensures var w := Run(start, actions);
            HeldByFirst(w.limiters, w.reqs, n) <= RoomOfFirst(start, actions, n)
  {
    hide Inv, Total, LimiterSpec.Weight, Funded, Run, LostAlong, Exact;
    var w := Run(start, actions);
    if n > 0 {
      HeldBelowRoom(start, actions, n - 1);
      GapIsLoss(start, actions, n - 1);
      if !w.limiters[n - 1].NoOp() {
        TokensAreConserved(w, n - 1);
        WeightIsNatural(w.limiters[n - 1].ready);
      }
    }
  }

  lemma {:induction false} InFlightByLimiter(limiters: seq<Limiter>, reqs: seq<Req>)
    ensures InFlight(limiters, reqs) == HeldByFirst(limiters, reqs, |limiters|)
  {
    if reqs == [] {
      NobodyHolds(limiters, |limiters|);
    } else {
      InFlightByLimiter(limiters, reqs[..|reqs| - 1]);
      OneMoreHolds(limiters, reqs[..|reqs| - 1], reqs[|reqs| - 1], |limiters|);
      assert reqs == reqs[..|reqs| - 1] + [reqs[|reqs| - 1]];
    }
  }

  lemma {:induction false} NobodyHolds(limiters: seq<Limiter>, n: nat)
    requires n <= |limiters|
    ensures HeldByFirst(limiters, [], n) == 0
  {
    if n > 0 {
      NobodyHolds(limiters, n - 1);
    }
  }

  lemma {:induction false} OneMoreHolds(limiters: seq<Limiter>, reqs: seq<Req>, q: Req, n: nat)
    requires n <= |limiters|
    ensures HeldByFirst(limiters, reqs + [q], n) ==
            HeldByFirst(limiters, reqs, n)
            + if q.lim < n && !limiters[q.lim].NoOp() && HasTokens(q) then q.weight else 0
  {
    hide Total;
    if n > 0 {
      OneMoreHolds(limiters, reqs, q, n - 1);
      TotalSnoc(Held(n - 1), reqs, q);
    }
  }

  // ---- Reports -----------------------------------------------------------------------------------

  /** What the number of concurrent calls in a report means. While concurrency is checked it is at most
      the limit, at most the weight of the calls that hold tokens or have been granted theirs, and
      equal to it if the books are exact; in the forced states it is the weight of all attempts that
      have not been released. */
  lemma ReportedCountMeans(w: World, r: nat)
    requires Inv(w) && Placed(w, r)
    ensures var (l, count) := (w.reqs[r].lim, CountSeenBy(w, r));
            var lim := w.limiters[l];
            if lim.NoOp() then count == 0
            else if w.insts[w.reqs[r].inst].ChecksConcurrency() then
              && 0 <= count <= lim.size
              && count <= Total(Held(l), w.reqs) + LimiterSpec.Weight(lim.ready)
              && (Exact(w, l) ==> count == Total(Held(l), w.reqs) + LimiterSpec.Weight(lim.ready))
            else count == Total(Counted(l), w.reqs)
  {
    hide Inv, Total, LimiterSpec.Weight, Funded;
    if !w.limiters[w.reqs[r].lim].NoOp() {
      TokensAreConserved(w, w.reqs[r].lim);
    }
  }

  predicate Harmless(w: World, a: Action, l: nat) {
    l < |w.limiters| && (Enabled(w, a) ==> !TakesFromOthers(w, a, l))
  }
}
