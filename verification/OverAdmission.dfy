/** A run that breaks the concurrency limit. The limit is one call; an operator forces the breaker
    closed while a call is running, a second call is admitted without tokens, the operator resets
    the breaker, the second call returns the token of the first, and a third call gets it. */
module OverAdmission {
  import opened Outcomes
  import opened Config
  import opened LimiterSpec
  import opened StateSpec
  import opened Protocol
  import opened Accounting
  import opened Conservation

  const ONE_CALL := DEFAULT.(maxConcurrentCalls := 1)

  lemma StepIsReachable(w: World, a: Action)
    requires Reachable(w)
    ensures Reachable(Step(w, a))
  {
    hide Step, Start;
    var config: Config, born: int, time: int, actions: seq<Action> :|
      ValidConfig(config) && w == Run(Start(config, born, time), actions);
    assert (actions + [a])[..|actions|] == actions;
    assert Step(w, a) == Run(Start(config, born, time), actions + [a]);
  }

  /** The parts of the breaker's state that the story is about. */
  ghost predicate Scene(w: World, kind: State, cur: int, calls: nat) {
    && Reachable(w)
    && |w.insts| > 0 && w.state == |w.insts| - 1 && w.insts[w.state].Kind() == kind
    && w.limiter == 0 && |w.limiters| == 1 && |w.gens| == 1 && w.setting == Fill(ONE_CALL)
    && w.limiters[0].size == 1 && w.limiters[0].maxWait == 0 && w.limiters[0].queue == [] && w.limiters[0].ready == []
    && w.limiters[0].cur == cur
    && |w.reqs| == calls
    && forall r :: 0 <= r < calls ==>
         w.reqs[r].inst < |w.insts| && w.reqs[r].lim == 0 && w.reqs[r].weight == 1
  }

  lemma OperatorMoves(w: World, kind: State, cur: int, calls: nat, a: Action, to: State)
    requires Scene(w, kind, cur, calls)
    requires (a == Force(ForcedClosed, 0, 0) && to == ForcedClosed) || (a == ResetBreaker(0, 0) && to == Closed)
    ensures Scene(Step(w, a), to, cur, calls) && Step(w, a).reqs == w.reqs
  {
    hide Glance, Reachable, FillConfig, Checkers;
    FilledIsUsable(ONE_CALL);
    StepIsReachable(w, a);
  }

  /** A call arrives and tries to get its token. */
  lemma CallArrives(w: World, kind: State, cur: int, calls: nat) returns (w': World)
    requires Scene(w, kind, cur, calls) && (kind == Closed || kind == ForcedClosed)
    requires cur == 0 || (cur == 1 && kind == ForcedClosed)
    ensures Scene(w', kind, 1, calls + 1) && |w'.insts| == |w.insts|
    ensures w'.reqs[..calls] == w.reqs && w'.reqs[calls].pc.Running? && w'.reqs[calls].unfunded == (cur == 1)
  {
    hide Reachable, FillConfig, Checkers;
    var w1 := Step(w, Enter(1));
    StepIsReachable(w, Enter(1));
    var w2 := Step(w1, CheckStart(calls));
    StepIsReachable(w1, CheckStart(calls));
    var w3 := Step(w2, AskPermission(calls));
    StepIsReachable(w2, AskPermission(calls));
    assert Scene(w3, kind, cur, calls + 1) && w3.reqs[..calls] == w.reqs;
    w' := ArrivesAtLimiter(w3, kind, cur, calls);
  }

  lemma ArrivesAtLimiter(w: World, kind: State, cur: int, calls: nat) returns (w': World)
    requires Scene(w, kind, cur, calls + 1) && w.reqs[calls].pc.Permitted? && !w.reqs[calls].unfunded
    requires w.insts[w.reqs[calls].inst].Kind() == kind
    requires cur == 0 || (cur == 1 && kind == ForcedClosed)
    ensures Scene(w', kind, 1, calls + 1) && |w'.insts| == |w.insts|
    ensures w'.reqs[..calls] == w.reqs[..calls] && w'.reqs[calls].pc.Running? && w'.reqs[calls].unfunded == (cur == 1)
  {
    hide Reachable, FillConfig, Checkers;
    var w4 := Step(w, CountAttempt(calls));
    StepIsReachable(w, CountAttempt(calls));
    w' := Step(w4, TakeTokens(calls));
    StepIsReachable(w4, TakeTokens(calls));
  }

  /** A call ends and hands back a token. */
  lemma CallReturnsToken(w: World, kind: State, calls: nat, r: nat) returns (w': World)
    requires Scene(w, kind, 1, calls) && r < calls && w.reqs[r].pc.Running?
    ensures Scene(w', kind, 0, calls) && w'.reqs[r].pc.Released?
    ensures forall s :: 0 <= s < calls && s != r ==> w'.reqs[s] == w.reqs[s]
  {
    hide Reachable, FillConfig, Checkers;
    var w1 := Step(w, BeginExit(r));
    StepIsReachable(w, BeginExit(r));
    assert Scene(w1, kind, 1, calls);
    w' := Step(w1, ReturnTokens(r));
    StepIsReachable(w1, ReturnTokens(r));
  }

  lemma Beginning() returns (w: World)
    ensures Scene(w, Closed, 0, 0) && |w.insts| == 1
  {
    w := Start(ONE_CALL, 0, 0);
    assert Run(w, []) == w;
  }

  /** A call runs, and another one that was admitted while the breaker was forced closed. */
  lemma TwoCalls() returns (w: World)
    ensures Scene(w, Closed, 1, 2) && w.reqs[0].pc.Running? && !w.reqs[0].unfunded && w.reqs[1].pc.Running?
  {
    var w0 := Beginning();
    hide Step, Reachable, FillConfig, Checkers;
    var w1 := CallArrives(w0, Closed, 0, 0);
    OperatorMoves(w1, Closed, 1, 1, Force(ForcedClosed, 0, 0), ForcedClosed);
    var w2 := Step(w1, Force(ForcedClosed, 0, 0));
    var w3 := CallArrives(w2, ForcedClosed, 1, 1);
    assert w3.reqs[0] == w3.reqs[..1][0];
    OperatorMoves(w3, ForcedClosed, 1, 2, ResetBreaker(0, 0), Closed);
    w := Step(w3, ResetBreaker(0, 0));
  }

  /** The second call has returned the token of the first, and a third one has got it. */
  lemma ThreeCalls() returns (w: World)
    ensures Scene(w, Closed, 1, 3) && w.reqs[1].pc.Released?
    ensures w.reqs[0].pc.Running? && !w.reqs[0].unfunded && w.reqs[2].pc.Running? && !w.reqs[2].unfunded
  {
    var w4 := TwoCalls();
    hide Step, Reachable, FillConfig, Checkers;
    var w5 := CallReturnsToken(w4, Closed, 2, 1);
    w := CallArrives(w5, Closed, 0, 2);
    assert w.reqs[0] == w.reqs[..2][0] && w.reqs[1] == w.reqs[..2][1];
  }

  /** In a reachable world two calls hold tokens of a limiter that has one. */
  lemma LimitCanBeExceeded() returns (w: World)
    ensures Reachable(w) && w.state < |w.insts| && w.insts[w.state].ClosedInst?
    ensures |w.limiters| == 1 && w.limiters[0].size == 1 && Total(Held(0), w.reqs) == 2
  {
    hide Reachable, FillConfig, Checkers, Total;
    w := ThreeCalls();
    TwoHold(w.reqs);
  }

  /** When both have ended, the last release finds the count at zero already and takes the branch that
      clamps it. */
  lemma ClampCanBeReached() returns (w: World, r: nat)
    ensures Reachable(w) && At(w, r, Uncounted) && w.reqs[r].lim == 0 && !w.reqs[r].unfunded
    ensures !w.limiters[0].NoOp() && w.limiters[0].cur - w.reqs[r].weight < 0
  {
    hide Reachable, FillConfig, Checkers;
    var w6 := ThreeCalls();
    var w7 := CallReturnsToken(w6, Closed, 3, 0);
    w, r := Step(w7, BeginExit(2)), 2;
    StepIsReachable(w7, BeginExit(2));
  }

  lemma TwoHold(reqs: seq<Req>)
    requires |reqs| == 3 && reqs[0].lim == 0 && reqs[2].lim == 0 && reqs[0].weight == reqs[2].weight == 1
    requires HasTokens(reqs[0]) && !HasTokens(reqs[1]) && HasTokens(reqs[2])
    ensures Total(Held(0), reqs) == 2
  {
    assert reqs == [] + [reqs[0]] + [reqs[1]] + [reqs[2]];
    TotalSnoc(Held(0), [], reqs[0]);
    TotalSnoc(Held(0), [] + [reqs[0]], reqs[1]);
    TotalSnoc(Held(0), [] + [reqs[0]] + [reqs[1]], reqs[2]);
  }

  const ANOTHER := ONE_CALL.(slidingWindowSize := 20)

  /** In a reachable world of a breaker that is limited to one call, two calls hold tokens, each of the
      limiter of its own configuration generation. */
  lemma LimitIsPerGeneration() returns (w: World)
    ensures Reachable(w) && w.setting.config.maxConcurrentCalls == 1 && InFlight(w.limiters, w.reqs) == 2
    ensures |w.limiters| == 2 && Exact(w, 0) && Exact(w, 1)
  {
    hide Step, Reachable, FillConfig, Checkers, Total, InFlight;
    var w0 := Beginning();
    var w1 := CallArrives(w0, Closed, 0, 0);
    var w2 := UpdateArrives(w1);
    var w3 := NextArrives(w2);
    w := NextIsServed(w3);
    OneEach(w.limiters, w.reqs);
  }

  /** The first call runs on its limiter, and the breaker has a fresh one. */
  ghost predicate SecondGeneration(w: World, cur: int, calls: nat) {
    && Reachable(w)
    && |w.insts| == 2 && w.state == 1 && w.insts[1].ClosedInst?
    && w.limiter == 1 && |w.limiters| == 2 && w.setting.config.maxConcurrentCalls == 1
    && w.limiters[0].size == 1 && w.limiters[0].cur == 1 && w.limiters[0].ready == []
    && w.limiters[1].size == 1 && w.limiters[1].cur == cur && w.limiters[1].queue == [] && w.limiters[1].ready == []
    && 1 <= |w.reqs| == calls
    && w.reqs[0].pc.Running? && !w.reqs[0].unfunded && w.reqs[0].lim == 0 && w.reqs[0].weight == 1
  }

  lemma UpdateArrives(w: World) returns (w': World)
    requires Scene(w, Closed, 1, 1) && w.reqs[0].pc.Running? && !w.reqs[0].unfunded && |w.insts| == 1
    ensures SecondGeneration(w', 0, 1)
  {
    hide Reachable;
    w' := Step(w, Update(Some(ANOTHER), 0));
    StepIsReachable(w, Update(Some(ANOTHER), 0));
  }

  /** A second call arrives after the update. */
  lemma NextArrives(w: World) returns (w': World)
    requires SecondGeneration(w, 0, 1)
    ensures SecondGeneration(w', 0, 2) && At(w', 1, Permitted) && !w'.reqs[1].unfunded
    ensures w'.reqs[1].lim == 1 && w'.reqs[1].weight == 1
  {
    hide Reachable, FillConfig, Checkers;
    var w1 := Step(w, Enter(1));
    StepIsReachable(w, Enter(1));
    var w2 := Step(w1, CheckStart(1));
    StepIsReachable(w1, CheckStart(1));
    w' := Step(w2, AskPermission(1));
    StepIsReachable(w2, AskPermission(1));
  }

  lemma NextIsServed(w: World) returns (w': World)
    requires SecondGeneration(w, 0, 2) && At(w, 1, Permitted) && !w.reqs[1].unfunded
    requires w.reqs[1].lim == 1 && w.reqs[1].weight == 1
    ensures SecondGeneration(w', 1, 2) && w'.reqs[1].pc.Running? && !w'.reqs[1].unfunded
    ensures w'.reqs[1].lim == 1 && w'.reqs[1].weight == 1
  {
    hide Reachable, FillConfig, Checkers;
    var w1 := Step(w, CountAttempt(1));
    StepIsReachable(w, CountAttempt(1));
    w' := Step(w1, TakeTokens(1));
    StepIsReachable(w1, TakeTokens(1));
  }

  lemma OneEach(limiters: seq<Limiter>, reqs: seq<Req>)
    requires |limiters| == |reqs| == 2 && limiters[0].size == limiters[1].size == 1
    requires reqs[0].lim == 0 && reqs[1].lim == 1 && reqs[0].weight == reqs[1].weight == 1
    requires HasTokens(reqs[0]) && HasTokens(reqs[1])
    ensures InFlight(limiters, reqs) == 2 && Total(Held(0), reqs) == 1 && Total(Held(1), reqs) == 1
  {
    assert reqs[..1][..0] == [];
    assert InFlight(limiters, reqs[..1]) == 1;
    assert reqs == [] + [reqs[0]] + [reqs[1]];
    TotalSnoc(Held(0), [], reqs[0]);
    TotalSnoc(Held(1), [], reqs[0]);
    TotalSnoc(Held(0), [] + [reqs[0]], reqs[1]);
    TotalSnoc(Held(1), [] + [reqs[0]], reqs[1]);
  }
}
