/** The breaker protocol of cb.go and entry.go: any number of requests, operators who force or
    reset the breaker, and configuration updates, interleaved between atomic sections.

    A section is the code under one lock, or one atomic operation, of the source. A state instance
    is named by its position in `insts`, which is never reused; a configuration generation is named
    by its position in `gens`, and its limiter by the same position in `limiters`. */
module Protocol {
  import opened Outcomes
  import opened Config
  import opened LimiterSpec
  import opened StateSpec

  // ---- Reports -----------------------------------------------------------------------------

  datatype Outcome =
    | SuccessOutcome
    | SuccessTimeoutOutcome
    | ErrorOutcome
    | ErrorTimeoutOutcome
    | MaxConcurrencyRejected
    | MaxPermittedRejected
    | OpenRejected
    | ForcedOpenRejected
  {
    predicate IsRejection() {
      MaxConcurrencyRejected? || MaxPermittedRejected? || OpenRejected? || ForcedOpenRejected?
    }
  }

  /** OnRequestComplete: the outcome is read off the run error alone. */
  function Classify(runError: Option<CallError>, timedOut: bool): Outcome {
    match runError
    case Some(ErrCircuitForcedOpen) => ForcedOpenRejected
    case Some(ErrMaxPermittedCalls) => MaxPermittedRejected
    case Some(ErrCircuitOpen) => OpenRejected
    case Some(ErrMaxConcurrency) => MaxConcurrencyRejected
    case None => if timedOut then SuccessTimeoutOutcome else SuccessOutcome
    case Some(OtherError(_)) => if timedOut then ErrorTimeoutOutcome else ErrorOutcome
  }

  /** ErrorAndFallback: the error a caller of Protect gets back. */
  function ErrorAndFallback(fallback: Option<CallError -> Option<CallError>>, err: CallError): Option<CallError> {
    match fallback
    case None => Some(err)
    case Some(f) => f(err)
  }

  // ---- The world ---------------------------------------------------------------------------

  /** Where a request stands, named after what it has just done. */
  datatype Pc =
    | Snapped      // has read state, setting and limiter
    | Winning      // has received the tick of an Open instance
    | Checked      // is past the transition check of its start
    | Permitted    // has the state's permission
    | Attempted    // is counted by the limiter, uncapped
    | Waiting      // is in the limiter's queue
    | Refused      // got no tokens and must hand its permission back
    | Running      // holds an Entry
    | Uncounted    // has begun to exit: the uncapped count is lowered
    | Released     // has handed its tokens back
    | Deciding(to: State, reason: Reason, seen: Inst, outcome: Outcome)
                   // has recorded its outcome and is about to change the state
    | Concluded(moved: bool, outcome: Outcome)
                   // is past its state transition, if it had one
    | Rejected(why: CallError)
    | Done(admitted: bool, moved: bool, outcome: Outcome)

  /** How a protected call ended. */
  datatype Call = Call(runError: Option<CallError>, timedOut: bool)

  /** A request: what it captured on entry, its weight, the Open instance whose tick it took, and
      whether it was admitted although the limiter refused it; and how its protected call ended. */
  datatype Req = Req(pc: Pc, inst: nat, lim: nat, setting: Setting, weight: nat, tick: Option<nat>, unfunded: bool,
                     call: Option<Call>)

  /** What the listener is told: the request, its outcome, and the number of concurrent calls. */
  datatype Report = Report(req: nat, outcome: Outcome, concurrent: int)

  /** The count in a report: capped, unless the state does not check for concurrency. */
  function ConcurrentCalls(inst: Inst, lim: Limiter): int {
    if lim.NoOp() then 0 else if inst.ChecksConcurrency() then lim.cur else lim.uncapped
  }

  /** Why the breaker left a state instance. */
  datatype Cause =
    | Won(req: nat, at: int)
    | Judged(req: nat, seen: Inst, reason: Reason)
    | Forced
    | WasReset
    | Reconfigured

  /** `setting`, `limiter` and `state` are the fields of the breaker; `origin[i]` is the generation
      in which instance i was made and `trail[i]` why it was left. */
  datatype World = World(
    time: int,
    setting: Setting, limiter: nat, state: nat,
    insts: seq<Inst>, origin: seq<nat>,
    limiters: seq<Limiter>, gens: seq<Setting>,
    reqs: seq<Req>, reports: seq<Report>, trail: seq<Cause>)

  function LimiterFor(setting: Setting): Limiter {
    NewLimiter(setting.config.maxConcurrentCalls, setting.config.maxWaitDurationMillis)
  }

  /** A new breaker. */
  function Start(config: Config, born: int, time: int): World
    requires ValidConfig(config)
  {
    var s := Fill(config);
    FilledIsUsable(config);
    World(time, s, 0, 0, [NewInst(Closed, s, born, time)], [0], [LimiterFor(s)], [s], [], [], [])
  }

  // ---- Locked sections of the breaker ------------------------------------------------------

  /** Whether StateTransition goes ahead; `current` tells whether the caller's instance is still
      the breaker's. */
  predicate TransitionAllowed(current: bool, from: State, to: State, reason: Reason) {
    reason == ManualTransition || reason == Reset || (current && ValidAutomatic(from, to))
  }

  /** The rest of StateTransition: the old instance's window is read, which slides it, and a fresh
      instance takes over. */
  function Install(w: World, to: State, cause: Cause, now: int, born: int): World
    requires w.state < |w.insts| && Usable(w.setting) && |w.gens| > 0
  {
    w.(insts := w.insts[w.state := Glance(w.insts[w.state], now)] + [NewInst(to, w.setting, born, w.time)],
       origin := w.origin + [|w.gens| - 1],
       state := |w.insts|,
       trail := w.trail + [cause])
  }

  /** StateTransition called by a request; the second component is the instance it returns. */
  function Transition(w: World, from: nat, to: State, reason: Reason, cause: Cause, now: int, born: int): (World, nat)
    requires w.state < |w.insts| && from < |w.insts| && Usable(w.setting) && |w.gens| > 0
  {
    if TransitionAllowed(from == w.state, w.insts[from].Kind(), to, reason) then
      (Install(w, to, cause, now, born), |w.insts|)
    else (w, from)
  }

  /** UpdateConfig: nothing happens when the filled configuration is the one in force. */
  function Reconfigure(w: World, config: Option<Config>, born: int): World {
    if config.None? || !ValidConfig(config.value) || FillConfig(config.value) == w.setting.config then w
    else
      var s := Fill(config.value);
      FilledIsUsable(config.value);
      w.(setting := s,
         gens := w.gens + [s],
         limiters := w.limiters + [LimiterFor(s)], limiter := |w.limiters|,
         insts := w.insts + [NewInst(Closed, s, born, w.time)],
         origin := w.origin + [|w.gens|],
         state := |w.insts|,
         trail := w.trail + [Reconfigured])
  }

  // ---- Steps -------------------------------------------------------------------------------

  /** The parameters are what the program does not control: which request moves, clocks, weights,
      the results of protected calls, and what operators do. */
  datatype Action =
    | Enter(weight: nat)
    | CheckStart(r: nat)
    | Win(r: nat, now: int, born: int)
    | AskPermission(r: nat)
    | CountAttempt(r: nat)
    | TakeTokens(r: nat)
    | Wake(r: nat)
    | GiveUp(r: nat)
    | ReturnPermission(r: nat)
    | ReportRejected(r: nat, now: int)
    | BeginExit(r: nat)
    | ReturnTokens(r: nat)
    | RecordOutcome(r: nat, runError: Option<CallError>, elapsed: int, now: int)
    | Decide(r: nat, now: int, born: int)
    | ReportDone(r: nat)
    | Fire(i: nat)
    | Pass(duration: nat)
    | Force(to: State, now: int, born: int)
    | ResetBreaker(now: int, born: int)
    | Update(config: Option<Config>, born: int)

  function WithReq(w: World, r: nat, q: Req): World
    requires r < |w.reqs|
  {
    w.(reqs := w.reqs[r := q])
  }

  /** A request moves on and leaves its instance and its limiter with new values. */
  function Moved(w: World, r: nat, q: Req, inst: Inst, lim: Limiter): World
    requires r < |w.reqs| && w.reqs[r].inst < |w.insts| && w.reqs[r].lim < |w.limiters|
  {
    w.(reqs := w.reqs[r := q], insts := w.insts[w.reqs[r].inst := inst], limiters := w.limiters[w.reqs[r].lim := lim])
  }

  function DoEnter(w: World, weight: nat): World {
    w.(reqs := w.reqs + [Req(Snapped, w.state, w.limiter, w.setting, weight, None, false, None)])
  }

  /** What a request meets: its instance and its limiter. */
  predicate Placed(w: World, r: nat) {
    r < |w.reqs| && w.reqs[r].inst < |w.insts| && w.reqs[r].lim < |w.limiters|
  }

  function DoCheckStart(w: World, r: nat): World
    requires Placed(w, r)
  {
    var q := w.reqs[r];
    var (inst, decision) := StartDecision(w.insts[q.inst]);
    Moved(w, r, if decision.Some? then q.(pc := Winning, tick := Some(q.inst)) else q.(pc := Checked),
          inst, w.limiters[q.lim])
  }

  function DoWin(w: World, r: nat, now: int, born: int): World
    requires Placed(w, r) && w.state < |w.insts| && Usable(w.setting) && |w.gens| > 0
  {
    var q := w.reqs[r];
    var (w', inst) := Transition(w, q.inst, SemiOpen, WaitInOpenElapsed, Won(r, w.time), now, born);
    WithReq(w', r, q.(pc := Checked, inst := inst))
  }

  function DoAskPermission(w: World, r: nat): World
    requires Placed(w, r)
  {
    var q := w.reqs[r];
    var (inst, denial) := AcquirePermission(w.insts[q.inst]);
    Moved(w, r, q.(pc := if denial.Some? then Rejected(denial.value) else Permitted), inst, w.limiters[q.lim])
  }

  function DoCountAttempt(w: World, r: nat): World
    requires Placed(w, r)
  {
    var q := w.reqs[r];
    Moved(w, r, q.(pc := Attempted), w.insts[q.inst], Attempt(w.limiters[q.lim], q.weight))
  }

  /** What follows the end of `acquire`: an Entry, or the way out for a refused request. */
  function Admit(q: Req, inst: Inst, verdict: LimiterSpec.Verdict): Req {
    match verdict
    case Queued => q.(pc := Waiting)
    case Granted => q.(pc := Running)
    case Denied => if inst.ChecksConcurrency() then q.(pc := Refused) else q.(pc := Running, unfunded := true)
  }

  function DoTakeTokens(w: World, r: nat): World
    requires Placed(w, r)
  {
    var q := w.reqs[r];
    var (lim, verdict) := TryAcquire(w.limiters[q.lim], r, q.weight);
    Moved(w, r, Admit(q, w.insts[q.inst], verdict), w.insts[q.inst], lim)
  }

  predicate IsReady(w: World, r: nat)
    requires Placed(w, r)
  {
    var l := w.limiters[w.reqs[r].lim];
    Find(l.ready, r) < |l.ready|
  }

  predicate IsQueued(w: World, r: nat)
    requires Placed(w, r)
  {
    var l := w.limiters[w.reqs[r].lim];
    Find(l.queue, r) < |l.queue|
  }

  function DoWake(w: World, r: nat): World
    requires Placed(w, r) && IsReady(w, r)
  {
    var q := w.reqs[r];
    Moved(w, r, Admit(q, w.insts[q.inst], Granted), w.insts[q.inst], Resume(w.limiters[q.lim], r))
  }

  function DoGiveUp(w: World, r: nat): World
    requires Placed(w, r) && (IsReady(w, r) || IsQueued(w, r))
  {
    var q := w.reqs[r];
    var (lim, verdict) := Expire(w.limiters[q.lim], r);
    Moved(w, r, Admit(q, w.insts[q.inst], verdict), w.insts[q.inst], lim)
  }

  function DoReturnPermission(w: World, r: nat): World
    requires Placed(w, r)
  {
    var q := w.reqs[r];
    Moved(w, r, q.(pc := Rejected(ErrMaxConcurrency)), ReleasePermission(w.insts[q.inst]), w.limiters[q.lim])
  }

  /** getStateSnapshot and OnRequestComplete of a request that was turned away. */
  function DoReportRejected(w: World, r: nat, now: int): World
    requires Placed(w, r) && w.reqs[r].pc.Rejected?
  {
    var q := w.reqs[r];
    var outcome := Classify(Some(q.pc.why), false);
    Moved(w, r, q.(pc := Done(false, false, outcome)), Glance(w.insts[q.inst], now), w.limiters[q.lim])
      .(reports := w.reports + [Report(r, outcome, ConcurrentCalls(w.insts[q.inst], w.limiters[q.lim]))])
  }

  function DoBeginExit(w: World, r: nat): World
    requires Placed(w, r)
  {
    var q := w.reqs[r];
    Moved(w, r, q.(pc := Uncounted), w.insts[q.inst], Uncount(w.limiters[q.lim], q.weight))
  }

  function DoReturnTokens(w: World, r: nat): World
    requires Placed(w, r)
  {
    var q := w.reqs[r];
    Moved(w, r, q.(pc := Released), w.insts[q.inst], Release(w.limiters[q.lim], q.weight))
  }

  /** onError or onSuccess, and the decision on the snapshot it returns. */
  function DoRecordOutcome(w: World, r: nat, runError: Option<CallError>, elapsed: int, now: int): World
    requires Placed(w, r)
  {
    var q := w.reqs[r];
    var timedOut := IsTimeout(q.setting.config, elapsed);
    var inst := Record(w.insts[q.inst], OutcomeOf(runError.Some?, timedOut), now);
    var outcome := Classify(runError, timedOut);
    Moved(w, r, q.(pc := Judge(inst, outcome), call := Some(Call(runError, timedOut))), inst, w.limiters[q.lim])
  }

  function Judge(inst: Inst, outcome: Outcome): Pc {
    match StateSpec.Verdict(inst)
    case None => Concluded(false, outcome)
    case Some(d) => Deciding(d.to, d.reason, inst, outcome)
  }

  function DoDecide(w: World, r: nat, now: int, born: int): World
    requires Placed(w, r) && w.reqs[r].pc.Deciding? && w.state < |w.insts| && Usable(w.setting) && |w.gens| > 0
  {
    var q := w.reqs[r];
    var (w', _) := Transition(w, q.inst, q.pc.to, q.pc.reason, Judged(r, q.pc.seen, q.pc.reason), now, born);
    WithReq(w', r, q.(pc := Concluded(true, q.pc.outcome)))
  }

  function DoReportDone(w: World, r: nat): World
    requires Placed(w, r) && w.reqs[r].pc.Concluded?
  {
    var q := w.reqs[r];
    Moved(w, r, q.(pc := Done(true, q.pc.moved, q.pc.outcome)), w.insts[q.inst], w.limiters[q.lim])
      .(reports := w.reports + [Report(r, q.pc.outcome, ConcurrentCalls(w.insts[q.inst], w.limiters[q.lim]))])
  }

  predicate MayFire(w: World, i: nat) {
    i < |w.insts| && w.insts[i].OpenInst? && w.insts[i].timer.Unfired? && w.time >= w.insts[i].since + w.insts[i].wait
  }

  function DoFire(w: World, i: nat): World
    requires MayFire(w, i)
  {
    w.(insts := w.insts[i := w.insts[i].(timer := Buffered)])
  }

  /** The breaker's own fields are in order. */
  predicate Ready(w: World) {
    w.state < |w.insts| && Usable(w.setting) && |w.gens| > 0
  }

  predicate At(w: World, r: nat, pc: Pc) {
    Placed(w, r) && w.reqs[r].pc == pc
  }

  predicate Enabled(w: World, a: Action) {
    match a
    case Enter(_) => true
    case CheckStart(r) => At(w, r, Snapped)
    case Win(r, _, _) => At(w, r, Winning) && Ready(w)
    case AskPermission(r) => At(w, r, Checked)
    case CountAttempt(r) => At(w, r, Permitted)
    case TakeTokens(r) => At(w, r, Attempted)
    case Wake(r) => At(w, r, Waiting) && IsReady(w, r)
    case GiveUp(r) => At(w, r, Waiting) && (IsReady(w, r) || IsQueued(w, r))
    case ReturnPermission(r) => At(w, r, Refused)
    case ReportRejected(r, _) => Placed(w, r) && w.reqs[r].pc.Rejected?
    case BeginExit(r) => At(w, r, Running)
    case ReturnTokens(r) => At(w, r, Uncounted)
    case RecordOutcome(r, _, _, _) => At(w, r, Released)
    case Decide(r, _, _) => Placed(w, r) && w.reqs[r].pc.Deciding? && Ready(w)
    case ReportDone(r) => Placed(w, r) && w.reqs[r].pc.Concluded?
    case Fire(i) => MayFire(w, i)
    case Pass(_) => true
    case Force(to, _, _) => (to == ForcedOpen || to == ForcedClosed) && Ready(w)
    case ResetBreaker(_, _) => Ready(w)
    case Update(_, _) => true
  }

  /** One step; an action that is not enabled does nothing. In particular a second Exit of the same
      Entry finds its request past Running and does nothing. */
  function Step(w: World, a: Action): World {
    if !Enabled(w, a) then w
    else
      match a
      case Enter(weight) => DoEnter(w, weight)
      case CheckStart(r) => DoCheckStart(w, r)
      case Win(r, now, born) => DoWin(w, r, now, born)
      case AskPermission(r) => DoAskPermission(w, r)
      case CountAttempt(r) => DoCountAttempt(w, r)
      case TakeTokens(r) => DoTakeTokens(w, r)
      case Wake(r) => DoWake(w, r)
      case GiveUp(r) => DoGiveUp(w, r)
      case ReturnPermission(r) => DoReturnPermission(w, r)
      case ReportRejected(r, now) => DoReportRejected(w, r, now)
      case BeginExit(r) => DoBeginExit(w, r)
      case ReturnTokens(r) => DoReturnTokens(w, r)
      case RecordOutcome(r, runError, elapsed, now) => DoRecordOutcome(w, r, runError, elapsed, now)
      case Decide(r, now, born) => DoDecide(w, r, now, born)
      case ReportDone(r) => DoReportDone(w, r)
      case Fire(i) => DoFire(w, i)
      case Pass(duration) => w.(time := w.time + duration)
      case Force(to, now, born) => Install(w, to, Forced, now, born)
      case ResetBreaker(now, born) => Install(w, Closed, WasReset, now, born)
      case Update(config, born) => Reconfigure(w, config, born)
  }

  function Run(w: World, actions: seq<Action>): World {
    if actions == [] then w else Step(Run(w, actions[..|actions| - 1]), actions[|actions| - 1])
  }

  /** A world some run of some new breaker leads to. */
  ghost predicate Reachable(w: World) {
    exists config: Config, born: int, time: int, actions: seq<Action> ::
      ValidConfig(config) && w == Run(Start(config, born, time), actions)
  }
}
