/** The steps of one request keep the invariant. */
module RequestSteps {
  import opened Outcomes
  import opened WindowSpec
  import opened Config
  import opened LimiterSpec
  import opened StateSpec
  import opened Protocol
  import opened Accounting
  import opened Invariant

  // ---- Steps that leave the limiter alone --------------------------------------------------

  /** The limiter does not notice a request that neither waits nor changes what it holds. */
  lemma LimiterUntouched(w: World, r: nat, q': Req)
    requires Core(w) && Placed(w, r)
    requires q'.lim == w.reqs[r].lim && !w.reqs[r].pc.Waiting? && q'.unfunded == w.reqs[r].unfunded
    requires Weigh(Held(q'.lim), q') == Weigh(Held(q'.lim), w.reqs[r])
    requires Weigh(Counted(q'.lim), q') == Weigh(Counted(q'.lim), w.reqs[r])
    ensures LimOk(w.reqs[r := q'], q'.lim, w.limiters[q'.lim], w.gens[q'.lim])
    ensures WaitersStay(r, w.limiters[q'.lim], w.limiters[q'.lim])
  {
    hide LimiterOk, InstOk, ReqOk, TrailOk, NotStuck, Weigh, Total, LimiterSpec.Weight;
    var l, lim := q'.lim, w.limiters[q'.lim];
    assert LimOk(w.reqs, l, lim, w.gens[l]);
    TotalUpdate(Held(l), w.reqs, r, q');
    TotalUpdate(Counted(l), w.reqs, r, q');
    FundedSame(w.reqs, r, q', l);
    forall p | p in Pending(lim)
      ensures WaiterOk(w.reqs[r := q'], l, p)
    {
      assert WaiterOk(w.reqs, l, p);
    }
  }

  lemma FundedSame(reqs: seq<Req>, r: nat, q': Req, l: nat)
    requires r < |reqs| && q'.lim == reqs[r].lim && (reqs[r].unfunded ==> q'.unfunded)
    ensures Funded(reqs[r := q'], l) ==> Funded(reqs, l)
  {
    if Funded(reqs[r := q'], l) {
      forall s | 0 <= s < |reqs| && reqs[s].lim == l
        ensures !reqs[s].unfunded
      {
        assert reqs[r := q'][s] == if s == r then q' else reqs[s];
      }
    }
  }

  lemma StartStep(q: Req, inst: Inst, time: int)
    requires q.pc.Snapped? && q.tick.None?
    ensures var (inst', decision) := StartDecision(inst);
            && InstStep(q, if decision.Some? then q.(pc := Winning, tick := Some(q.inst)) else q.(pc := Checked),
                        inst, inst', time)
            && inst'.Kind() == inst.Kind() && (decision.Some? ==> inst.OpenInst?)
  {
    hide ProbesNeeded;
    StepsEvolve(inst, Success, 0);
  }

  lemma CheckStartKeeps(w: World, r: nat)
    requires Core(w) && At(w, r, Snapped)
    ensures Core(DoCheckStart(w, r))
  {
    var q := w.reqs[r];
    var (inst, decision) := StartDecision(w.insts[q.inst]);
    var q' := if decision.Some? then q.(pc := Winning, tick := Some(q.inst)) else q.(pc := Checked);
    assert ReqOk(w, r);
    StartStep(q, w.insts[q.inst], w.time);
    LimiterUntouched(w, r, q');
    hide LimOk, WaitersStay, TrailOk, NotStuck, InstOk, InstStep, StartDecision;
    MovedKeeps(w, r, q', inst, w.limiters[q.lim]);
  }

  lemma PermissionStep(q: Req, inst: Inst, time: int)
    requires q.pc.Checked?
    ensures var (inst', denial) := AcquirePermission(inst);
            && InstStep(q, q.(pc := if denial.Some? then Rejected(denial.value) else Permitted), inst, inst', time)
            && inst'.Kind() == inst.Kind() && (denial.None? ==> !inst.OpenInst? && !inst.ForcedOpenInst?)
  {
    hide ProbesNeeded;
    StepsEvolve(inst, Success, 0);
  }

  lemma AskPermissionKeeps(w: World, r: nat)
    requires Core(w) && At(w, r, Checked)
    ensures Core(DoAskPermission(w, r))
  {
    var q := w.reqs[r];
    var (inst, denial) := AcquirePermission(w.insts[q.inst]);
    var q' := q.(pc := if denial.Some? then Rejected(denial.value) else Permitted);
    assert ReqOk(w, r);
    PermissionStep(q, w.insts[q.inst], w.time);
    LimiterUntouched(w, r, q');
    KindDecides(w.insts[q.inst], inst);
    hide LimOk, WaitersStay, TrailOk, NotStuck, InstOk, InstStep, AcquirePermission;
    MovedKeeps(w, r, q', inst, w.limiters[q.lim]);
  }

  /** The counter is not zero, so handing the permission back does not wrap it around. */
  lemma ReleaseStep(q: Req, inst: Inst, time: int)
    requires q.pc.Refused? && (inst.SemiOpenInst? ==> inst.callCount > 0)
    ensures InstStep(q, q.(pc := Rejected(ErrMaxConcurrency)), inst, ReleasePermission(inst), time)
    ensures ReleasePermission(inst).Kind() == inst.Kind()
  {
    hide ProbesNeeded;
    StepsEvolve(inst, Success, 0);
  }

  lemma ReturnPermissionKeeps(w: World, r: nat)
    requires Core(w) && At(w, r, Refused)
    ensures Core(DoReturnPermission(w, r))
  {
    var q := w.reqs[r];
    var inst := ReleasePermission(w.insts[q.inst]);
    var q' := q.(pc := Rejected(ErrMaxConcurrency));
    assert ReqOk(w, r) && InstOk(w, q.inst);
    TotalContains(Permits(q.inst), w.reqs, r);
    ReleaseStep(q, w.insts[q.inst], w.time);
    LimiterUntouched(w, r, q');
    KindDecides(w.insts[q.inst], inst);
    hide LimOk, WaitersStay, TrailOk, NotStuck, InstOk, InstStep, ReleasePermission;
    MovedKeeps(w, r, q', inst, w.limiters[q.lim]);
  }

  lemma GlanceEvolves(inst: Inst, now: int)
    ensures Evolves(inst, Glance(inst, now)) && Glance(inst, now).Recorded() == inst.Recorded()
    ensures TickTaken(Glance(inst, now)) == TickTaken(inst)
    ensures inst.SemiOpenInst? ==> Glance(inst, now) == inst
    ensures Glance(inst, now).Kind() == inst.Kind()
  {
  }

  lemma GlanceBelongs(inst: Inst, now: int, setting: Setting)
    requires Belongs(inst, setting)
    ensures Belongs(Glance(inst, now), setting)
  {
    hide InSpan;
    if !inst.SemiOpenInst? {
      SlideDrops(inst.window, now);
    }
  }

  lemma GlanceOnTime(inst: Inst, now: int, time: int)
    requires OnTime(inst, time)
    ensures OnTime(Glance(inst, now), time)
  {
  }

  /** Reading a window changes nothing that is counted. */
  lemma GlanceStep(q: Req, q': Req, inst: Inst, now: int, time: int)
    requires q' == q.(pc := q'.pc) && !q.pc.Deciding?
    requires Weigh(Records(q.inst), q') == Weigh(Records(q.inst), q)
        && Weigh(Permits(q.inst), q') == Weigh(Permits(q.inst), q)
    ensures InstStep(q, q', inst, Glance(inst, now), time)
  {
    hide Evolves, Belongs, OnTime, ProbesDone, Glance, TickTaken;
    GlanceEvolves(inst, now);
    KindDecides(inst, Glance(inst, now));
    forall setting | Belongs(inst, setting)
      ensures Belongs(Glance(inst, now), setting)
    {
      GlanceBelongs(inst, now, setting);
    }
    if OnTime(inst, time) {
      GlanceOnTime(inst, now, time);
    }
    if !inst.SemiOpenInst? {
      OnlySemiOpenProbes(Glance(inst, now));
    }
  }

  lemma OnlySemiOpenProbes(inst: Inst)
    requires !inst.SemiOpenInst?
    ensures !ProbesDone(inst)
  {
  }

  /** The report step; that the reports themselves are right is not its concern. */
  lemma ReportRejectedKeeps(w: World, r: nat, now: int)
    requires Core(w) && Placed(w, r) && w.reqs[r].pc.Rejected?
    ensures Core(DoReportRejected(w, r, now))
  {
    var q := w.reqs[r];
    var inst := Glance(w.insts[q.inst], now);
    var q' := q.(pc := Done(false, false, Classify(Some(q.pc.why), false)));
    assert ReqOk(w, r);
    LimiterUntouched(w, r, q');
    GlanceStep(q, q', w.insts[q.inst], now, w.time);
    GlanceEvolves(w.insts[q.inst], now);
    KindDecides(w.insts[q.inst], inst);
    hide LimOk, WaitersStay, TrailOk, NotStuck, InstOk, InstStep, Glance, Classify;
    MovedKeeps(w, r, q', inst, w.limiters[q.lim]);
    var count := ConcurrentCalls(w.insts[q.inst], w.limiters[q.lim]);
    ReportsAreNotCore(Moved(w, r, q', inst, w.limiters[q.lim]), w.reports + [Report(r, q'.pc.outcome, count)]);
  }

  lemma ReportsAreNotCore(w: World, reports: seq<Report>)
    requires Core(w)
    ensures Core(w.(reports := reports))
  {
    hide LimOk, Evolves, StateSpec.Verdict, Belongs, Tallies, OnTime, Waits, HasPermission, ProbesDone;
    var w' := w.(reports := reports);
    assert forall i :: 0 <= i < |w'.insts| ==> InstOk(w, i) && InstOk(w', i);
    assert forall r :: 0 <= r < |w'.reqs| ==> ReqOk(w, r) && ReqOk(w', r);
    forall k | 0 <= k < |w'.trail|
      ensures TrailOk(w', k)
    {
      TrailIsLocal(w, w', k);
    }
    if ProbesDone(w'.insts[w'.state]) {
      var r: nat :| IsDecider(w, r, w.state);
      assert IsDecider(w', r, w.state);
    }
  }

  /** Nothing happens to the instance. */
  lemma StillStep(q: Req, q': Req, inst: Inst, time: int)
    requires q' == q.(pc := q'.pc, unfunded := q'.unfunded) && !q.pc.Deciding?
    requires Weigh(Records(q.inst), q') == Weigh(Records(q.inst), q)
        && Weigh(Permits(q.inst), q') == Weigh(Permits(q.inst), q)
    ensures InstStep(q, q', inst, inst, time) && Evolves(inst, inst)
  {
    hide ProbesDone, Belongs, OnTime, TickTaken;
    StepsEvolve(inst, Success, 0);
  }

  lemma ReportDoneKeeps(w: World, r: nat)
    requires Core(w) && Placed(w, r) && w.reqs[r].pc.Concluded?
    ensures Core(DoReportDone(w, r))
  {
    var q := w.reqs[r];
    var q' := q.(pc := Done(true, q.pc.moved, q.pc.outcome));
    assert ReqOk(w, r);
    LimiterUntouched(w, r, q');
    StillStep(q, q', w.insts[q.inst], w.time);
    hide LimOk, WaitersStay, TrailOk, NotStuck, InstOk, InstStep;
    MovedKeeps(w, r, q', w.insts[q.inst], w.limiters[q.lim]);
    var count := ConcurrentCalls(w.insts[q.inst], w.limiters[q.lim]);
    ReportsAreNotCore(Moved(w, r, q', w.insts[q.inst], w.limiters[q.lim]),
                      w.reports + [Report(r, q.pc.outcome, count)]);
  }

  // ---- Recording an outcome ----------------------------------------------------------------

  lemma RecordCounts(inst: Inst, outcome: WindowOutcome, now: int)
    requires !inst.OpenInst? && !inst.ForcedOpenInst?
    ensures Record(inst, outcome, now).Recorded() == inst.Recorded() + 1
    ensures Record(inst, outcome, now).Kind() == inst.Kind()
    ensures inst.SemiOpenInst? ==> Record(inst, outcome, now).callCount == inst.callCount
    ensures Evolves(inst, Record(inst, outcome, now))
  {
  }

  lemma RecordBelongs(inst: Inst, outcome: WindowOutcome, now: int, setting: Setting)
    requires Belongs(inst, setting)
    ensures Belongs(Record(inst, outcome, now), setting)
  {
    hide InSpan, One;
    if !inst.SemiOpenInst? {
      SlideDrops(inst.window, now);
      UpdateAdds(inst.window, outcome, now);
    }
  }

  lemma RecordStep(q: Req, inst: Inst, outcome: WindowOutcome, now: int, setting: Setting, report: Outcome,
                   call: Option<Call>, time: int)
    requires q.pc.Released? && !inst.OpenInst? && !inst.ForcedOpenInst? && Belongs(inst, setting)
    ensures var inst' := Record(inst, outcome, now);
            InstStep(q, q.(pc := Judge(inst', report), call := call), inst, inst', time)
  {
    var inst' := Record(inst, outcome, now);
    RecordCounts(inst, outcome, now);
    KindDecides(inst, inst');
    RecordBelongs(inst, outcome, now, setting);
    hide Evolves, Record, Belongs, ProbesDone, StateSpec.Verdict, Judge;
    JudgedWeighs(q, inst', report, call);
    hide Weigh;
    forall s | Belongs(inst, s)
      ensures Belongs(inst', s)
    {
      RecordBelongs(inst, outcome, now, s);
    }
    EnoughProbesDecide(inst', setting, report);
  }

  lemma JudgedWeighs(q: Req, inst: Inst, report: Outcome, call: Option<Call>)
    requires q.pc.Released?
    ensures var q' := q.(pc := Judge(inst, report), call := call);
            && Weigh(Records(q.inst), q') == 1 && Weigh(Records(q.inst), q) == 0
            && Weigh(Ticks(q.inst), q') == Weigh(Ticks(q.inst), q)
            && Weigh(Permits(q.inst), q') == Weigh(Permits(q.inst), q)
  {
    hide StateSpec.Verdict, Judge;
    JudgeStates(inst, report);
  }

  lemma EnoughProbesDecide(inst: Inst, setting: Setting, report: Outcome)
    requires Belongs(inst, setting)
    ensures ProbesDone(inst) ==> Judge(inst, report).Deciding?
  {
    hide StateSpec.Verdict;
    if inst.SemiOpenInst? {
      ProbesDecide(inst, setting);
    } else {
      OnlySemiOpenProbes(inst);
    }
  }

  /** A SemiOpen instance with enough probes always decides. */
  lemma ProbesDecide(inst: Inst, setting: Setting)
    requires inst.SemiOpenInst? && Belongs(inst, setting)
    ensures ProbesDone(inst) ==> StateSpec.Verdict(inst).Some?
  {
    hide NewSnapshot, Tally, FirstExceeded;
    SnapshotTotal(inst.Counts());
    TallyIsConsistent(inst.probes.Window());
  }

  lemma JudgeStates(inst: Inst, outcome: Outcome)
    ensures var pc := Judge(inst, outcome);
            || pc == Concluded(false, outcome)
            || (pc.Deciding? && pc.seen == inst && StateSpec.Verdict(inst) == Some(Decision(pc.to, pc.reason)))
  {
    hide StateSpec.Verdict;
  }

  lemma RecordedFits(q: Req, r: nat, inst: Inst, inst': Inst, lim: Limiter, state: nat, report: Outcome,
                     call: Option<Call>)
    requires q.pc.Released? && ReqFits(q, r, inst, lim, state) && inst'.Kind() == inst.Kind() && JustRecorded(inst')
    ensures var q' := q.(pc := Judge(inst', report), call := call);
            && ReqFits(q', r, inst', lim, state)
            && Weigh(Held(q.lim), q') == Weigh(Held(q.lim), q) && Weigh(Counted(q.lim), q') == Weigh(Counted(q.lim), q)
  {
    hide StateSpec.Verdict, Judge, JustRecorded;
    JudgeStates(inst', report);
    StepsEvolve(inst', Success, 0);
    KindDecides(inst, inst');
  }

  lemma RecordOutcomeKeeps(w: World, r: nat, runError: Option<CallError>, elapsed: int, now: int)
    requires Core(w) && At(w, r, Released)
    ensures Core(DoRecordOutcome(w, r, runError, elapsed, now))
  {
    var q := w.reqs[r];
    var timedOut := IsTimeout(q.setting.config, elapsed);
    var outcome, report := OutcomeOf(runError.Some?, timedOut), Classify(runError, timedOut);
    var inst := Record(w.insts[q.inst], outcome, now);
    var call := Some(Call(runError, timedOut));
    var q' := q.(pc := Judge(inst, report), call := call);
    assert ReqOk(w, r) && InstOk(w, q.inst);
    hide StateSpec.Verdict, Judge, Record, IsTimeout, OutcomeOf, Classify;
    RecordStep(q, w.insts[q.inst], outcome, now, w.gens[w.origin[q.inst]], report, call, w.time);
    RecordCounts(w.insts[q.inst], outcome, now);
    RecordJustRecorded(w.insts[q.inst], outcome, now);
    RecordedFits(q, r, w.insts[q.inst], inst, w.limiters[q.lim], w.state, report, call);
    hide LimOk, WaitersStay, TrailOk, NotStuck, InstOk, InstStep, ReqFits, ReqOk, Weigh;
    LimiterUntouched(w, r, q');
    MovedKeeps(w, r, q', inst, w.limiters[q.lim]);
  }

  // ---- Steps on the limiter ----------------------------------------------------------------

  /** The parts of a limiter step that do not concern the limiter. */
  lemma LimiterStepKeeps(w: World, r: nat, q': Req, lim': Limiter)
    requires Core(w) && Placed(w, r)
    requires q' == w.reqs[r].(pc := q'.pc, unfunded := q'.unfunded) && !w.reqs[r].pc.Deciding?
    requires HasPermission(w.reqs[r]) && HasPermission(q') && !HasRecorded(w.reqs[r]) && !HasRecorded(q')
    requires ReqFits(q', r, w.insts[q'.inst], lim', w.state)
    requires WaitersStay(r, w.limiters[q'.lim], lim')
    requires LimOk(w.reqs[r := q'], q'.lim, lim', w.gens[q'.lim])
    ensures Core(Moved(w, r, q', w.insts[q'.inst], lim'))
  {
    var q := w.reqs[r];
    assert Weigh(Records(q.inst), q') == Weigh(Records(q.inst), q)
        && Weigh(Permits(q.inst), q') == Weigh(Permits(q.inst), q);
    StillStep(q, q', w.insts[q.inst], w.time);
    hide LimOk, WaitersStay, TrailOk, NotStuck, InstOk, InstStep, ReqFits, ReqOk;
    MovedKeeps(w, r, q', w.insts[q.inst], lim');
  }

  lemma NotPending(w: World, r: nat)
    requires Core(w) && Placed(w, r) && !w.reqs[r].pc.Waiting?
    ensures !Waits(Pending(w.limiters[w.reqs[r].lim]), r)
  {
    hide LimiterOk, Balanced, InstOk, ReqOk, TrailOk, NotStuck;
    var l := w.reqs[r].lim;
    var pending := Pending(w.limiters[l]);
    assert LimOk(w.reqs, l, w.limiters[l], w.gens[l]);
    forall k | 0 <= k < |pending|
      ensures pending[k].id != r
    {
      assert pending[k] in pending;
    }
  }

  /** Waiters other than r do not depend on what r does. */
  lemma OthersWait(reqs: seq<Req>, r: nat, q': Req, l: nat, p: Waiter)
    requires r < |reqs| && WaiterOk(reqs, l, p) && p.id != r
    ensures WaiterOk(reqs[r := q'], l, p)
  {
  }

  /** The books after a step that changes the request's share by the same amounts as the
      limiter's counts. */
  lemma BooksKept(reqs: seq<Req>, r: nat, q': Req, lim: Limiter, lim': Limiter)
    requires r < |reqs| && q'.lim == reqs[r].lim && (reqs[r].unfunded ==> q'.unfunded)
    requires Balanced(reqs, q'.lim, lim)
    requires lim'.uncapped - lim.uncapped == Weigh(Counted(q'.lim), q') - Weigh(Counted(q'.lim), reqs[r])
    requires lim'.Out() - lim.Out() == Weigh(Held(q'.lim), q') - Weigh(Held(q'.lim), reqs[r])
    ensures Balanced(reqs[r := q'], q'.lim, lim')
  {
    hide Weigh, Total, LimiterSpec.Weight, Funded;
    TotalUpdate(Held(q'.lim), reqs, r, q');
    TotalUpdate(Counted(q'.lim), reqs, r, q');
    FundedSame(reqs, r, q', q'.lim);
  }

  lemma CountAttemptKeeps(w: World, r: nat)
    requires Core(w) && At(w, r, Permitted)
    ensures Core(DoCountAttempt(w, r))
  {
    var q := w.reqs[r];
    var l, lim := q.lim, w.limiters[q.lim];
    var q', lim' := q.(pc := Attempted), Attempt(lim, q.weight);
    assert ReqOk(w, r) && LimOk(w.reqs, l, lim, w.gens[l]);
    hide InstOk, TrailOk, NotStuck, StateSpec.Verdict, Evolves, InOrder, Distinct, Awake;
    if !lim.NoOp() {
      BooksKept(w.reqs, r, q', lim, lim');
    }
    PlainWaiters(w.reqs, r, q', l, lim, lim');
    LimiterStepKeeps(w, r, q', lim');
  }

  /** A step that does not touch the lists of a limiter. */
  lemma PlainWaiters(reqs: seq<Req>, r: nat, q': Req, l: nat, lim: Limiter, lim': Limiter)
    requires r < |reqs| && !reqs[r].pc.Waiting? && lim'.queue == lim.queue && lim'.ready == lim.ready
    requires forall p :: p in Pending(lim) ==> WaiterOk(reqs, l, p)
    ensures forall p :: p in Pending(lim') ==> WaiterOk(reqs[r := q'], l, p)
    ensures WaitersStay(r, lim, lim')
  {
    assert Pending(lim') == Pending(lim);
  }

  lemma BeginExitKeeps(w: World, r: nat)
    requires Core(w) && At(w, r, Running)
    ensures Core(DoBeginExit(w, r))
  {
    var q := w.reqs[r];
    var l, lim := q.lim, w.limiters[q.lim];
    var q', lim' := q.(pc := Uncounted), Uncount(lim, q.weight);
    assert ReqOk(w, r) && LimOk(w.reqs, l, lim, w.gens[l]);
    hide InstOk, TrailOk, NotStuck, StateSpec.Verdict, Evolves, InOrder, Distinct, Awake;
    if !lim.NoOp() {
      BooksKept(w.reqs, r, q', lim, lim');
    }
    PlainWaiters(w.reqs, r, q', l, lim, lim');
    LimiterStepKeeps(w, r, q', lim');
  }

  /** The waiters after a section that took r out of the lists or put it in. */
  lemma WaitersAfter(reqs: seq<Req>, r: nat, q': Req, l: nat, lim: Limiter, lim': Limiter)
    requires r < |reqs| && forall p :: p in Pending(lim) ==> WaiterOk(reqs, l, p)
    requires forall p :: p in Pending(lim') ==> p in Pending(lim) || (p.id == r && WaiterOk(reqs[r := q'], l, p))
    requires forall p :: p in Pending(lim) && p.id != r ==> p in Pending(lim')
    requires forall p :: p in Pending(lim') && p.id == r ==> WaiterOk(reqs[r := q'], l, p)
    ensures forall p :: p in Pending(lim') ==> WaiterOk(reqs[r := q'], l, p)
    ensures WaitersStay(r, lim, lim')
  {
    forall p | p in Pending(lim')
      ensures WaiterOk(reqs[r := q'], l, p)
    {
      if p.id != r {
        OthersWait(reqs, r, q', l, p);
      }
    }
    forall s: nat | s != r && Waits(Pending(lim), s)
      ensures Waits(Pending(lim'), s)
    {
      var k :| 0 <= k < |Pending(lim)| && Pending(lim)[k].id == s;
      assert Pending(lim)[k] in Pending(lim');
    }
  }

  lemma NotWaiting(ws: seq<Waiter>, id: nat)
    requires !Waits(ws, id)
    ensures forall p :: p in ws ==> p.id != id
  {
  }

  /** What the end of `acquire` makes of a request. */
  lemma AdmitStates(q: Req, inst: Inst, verdict: LimiterSpec.Verdict)
    requires (q.pc.Attempted? || q.pc.Waiting?) && !q.unfunded
    ensures var q' := Admit(q, inst, verdict);
            && q' == q.(pc := q'.pc, unfunded := q'.unfunded)
            && HasPermission(q) && HasPermission(q') && !HasRecorded(q) && !HasRecorded(q')
            && (q'.pc.Running? || q'.pc.Refused? || q'.pc.Waiting?) && (q'.pc.Waiting? <==> verdict.Queued?)
            && (q'.pc.Refused? ==> inst.ChecksConcurrency())
            && (q'.unfunded ==> q'.pc.Running? && !inst.ChecksConcurrency())
            && Weigh(Counted(q.lim), q') == Weigh(Counted(q.lim), q)
            && Weigh(Held(q.lim), q) == 0 && Weigh(Held(q.lim), q') == if verdict.Granted? then q.weight else 0
  {
  }

  lemma AdmittedFits(q: Req, q': Req, r: nat, inst: Inst, lim: Limiter, lim': Limiter, state: nat)
    requires ReqFits(q, r, inst, lim, state) && HasPermission(q) && !q.pc.Winning?
    requires q' == q.(pc := q'.pc, unfunded := q'.unfunded)
    requires (q'.pc.Running? || q'.pc.Refused? || q'.pc.Waiting?) && (q'.pc.Waiting? ==> Waits(Pending(lim'), r))
    requires q'.pc.Refused? ==> inst.ChecksConcurrency()
    requires q'.unfunded ==> q'.pc.Running? && !inst.ChecksConcurrency()
    ensures ReqFits(q', r, inst, lim', state)
  {
  }

  lemma TakeTokensKeeps(w: World, r: nat)
    requires Core(w) && At(w, r, Attempted)
    ensures Core(DoTakeTokens(w, r))
  {
    var q := w.reqs[r];
    var l, lim, inst := q.lim, w.limiters[q.lim], w.insts[q.inst];
    var (lim', verdict) := TryAcquire(lim, r, q.weight);
    var q' := Admit(q, inst, verdict);
    assert ReqOk(w, r) && LimOk(w.reqs, l, lim, w.gens[l]);
    hide InstOk, TrailOk, NotStuck, StateSpec.Verdict, Evolves, WaitersStay, TryAcquire, LimiterOk, Waits, Admit,
         HasPermission, HasRecorded, Balanced;
    NotPending(w, r);
    NotWaiting(Pending(lim), r);
    AdmitStates(q, inst, verdict);
    TakenWaiters(lim, r, q.weight);
    TakenBooks(w.reqs, r, q', l, lim, lim', verdict, w.gens[l]);
    AdmittedFits(q, q', r, inst, lim, lim', w.state);
    hide ReqFits, LimOk;
    LimiterStepKeeps(w, r, q', lim');
  }

  /** The limiter after the section, whatever its verdict. */
  lemma TakenBooks(reqs: seq<Req>, r: nat, q': Req, l: nat, lim: Limiter, lim': Limiter,
                   verdict: LimiterSpec.Verdict, setting: Setting)
    requires r < |reqs| && reqs[r].lim == q'.lim == l && !reqs[r].unfunded && LimOk(reqs, l, lim, setting)
    requires !Waits(Pending(lim), r) && (lim', verdict) == TryAcquire(lim, r, reqs[r].weight)
    requires Weigh(Counted(l), q') == Weigh(Counted(l), reqs[r])
    requires Weigh(Held(l), reqs[r]) == 0 && Weigh(Held(l), q') == if verdict.Granted? then reqs[r].weight else 0
    requires verdict.Queued? ==> q'.pc.Waiting? && q'.weight == reqs[r].weight
    ensures LimOk(reqs[r := q'], l, lim', setting) && WaitersStay(r, lim, lim')
  {
    hide Weigh, WaitersStay, InOrder, Distinct, Awake, LimiterSpec.Weight, Balanced;
    NotWaiting(Pending(lim), r);
    TryAcquireKeeps(lim, r, reqs[r].weight);
    TakenWaiters(lim, r, reqs[r].weight);
    hide TryAcquire, LimiterOk, Waits;
    if !lim.NoOp() {
      BooksKept(reqs, r, q', lim, lim');
    }
    WaitersAfter(reqs, r, q', l, lim, lim');
  }

  lemma TakenWaiters(lim: Limiter, r: nat, n: nat)
    requires forall p :: p in Pending(lim) ==> p.id != r
    ensures var (lim', verdict) := TryAcquire(lim, r, n);
            && lim'.size == lim.size && lim'.maxWait == lim.maxWait
            && (forall p :: p in Pending(lim) ==> p in Pending(lim'))
            && (forall p :: p in Pending(lim') ==> p in Pending(lim) || (verdict.Queued? && p.id == r && p.n == n))
            && (verdict.Queued? ==> Waits(Pending(lim'), r))
            && (lim.NoOp() ==> lim' == lim && verdict.Granted?)
  {
    var (lim', verdict) := TryAcquire(lim, r, n);
    if verdict.Queued? {
      assert Pending(lim')[|lim.queue|].id == r;
    }
  }

  /** Taking a waiter out of the lists of a limiter. */
  lemma ResumedBooks(reqs: seq<Req>, r: nat, q': Req, l: nat, lim: Limiter, setting: Setting)
    requires r < |reqs| && reqs[r].lim == q'.lim == l && !reqs[r].unfunded && LimOk(reqs, l, lim, setting)
    requires Find(lim.ready, r) < |lim.ready|
    requires Weigh(Counted(l), q') == Weigh(Counted(l), reqs[r])
    requires Weigh(Held(l), reqs[r]) == 0 && Weigh(Held(l), q') == reqs[r].weight
    ensures LimOk(reqs[r := q'], l, Resume(lim, r), setting) && WaitersStay(r, lim, Resume(lim, r))
  {
    hide Weigh, WaitersStay, LimiterSpec.Weight, Balanced, Total;
    var k, lim' := Find(lim.ready, r), Resume(lim, r);
    assert lim.ready[k] in Pending(lim);
    ResumeKeeps(lim, r);
    WithoutMembers(lim.ready, k);
    NotWaiting(Pending(lim'), r);
    hide LimiterOk, Waits, Without, Find;
    BooksKept(reqs, r, q', lim, lim');
    WaitersAfter(reqs, r, q', l, lim, lim');
  }

  /** Giving up on a place in the queue. */
  lemma ExpiredBooks(reqs: seq<Req>, r: nat, q': Req, l: nat, lim: Limiter, setting: Setting)
    requires r < |reqs| && reqs[r].lim == q'.lim == l && (reqs[r].unfunded ==> q'.unfunded)
        && LimOk(reqs, l, lim, setting)
    requires Waits(Pending(lim), r) && Find(lim.ready, r) == |lim.ready| && Find(lim.queue, r) < |lim.queue|
    requires Weigh(Counted(l), q') == Weigh(Counted(l), reqs[r]) && Weigh(Held(l), q') == Weigh(Held(l), reqs[r])
    ensures LimOk(reqs[r := q'], l, Expire(lim, r).0, setting) && WaitersStay(r, lim, Expire(lim, r).0)
  {
    hide Weigh, WaitersStay, LimiterSpec.Weight, Balanced, Total, Notify;
    var k, lim' := Find(lim.queue, r), Expire(lim, r).0;
    ExpireKeeps(lim, r);
    ExpireMembers(lim, r);
    NotWaiting(Pending(lim'), r);
    hide LimiterOk, Waits, Without, Find, Expire;
    BooksKept(reqs, r, q', lim, lim');
    WaitersAfter(reqs, r, q', l, lim, lim');
  }

  lemma ExpireMembers(lim: Limiter, r: nat)
    requires Find(lim.ready, r) == |lim.ready| && Find(lim.queue, r) < |lim.queue|
    ensures var lim' := Expire(lim, r).0;
            && lim'.size == lim.size && lim'.maxWait == lim.maxWait
            && (forall p :: p in Pending(lim') ==> p in Pending(lim))
            && (forall p :: p in Pending(lim) && p.id != r ==> p in Pending(lim'))
  {
    hide LimiterSpec.Weight, Fits, Tickets;
    var k := Find(lim.queue, r);
    WithoutMembers(lim.queue, k);
    NotifyMembers(lim.(queue := Without(lim.queue, k)));
  }

  /** A waiting request is on exactly the limiter it captured, which is not the no-op one. */
  lemma WaitingIsListed(w: World, r: nat)
    requires Core(w) && At(w, r, Waiting)
    ensures var lim := w.limiters[w.reqs[r].lim];
            && !lim.NoOp() && Waits(Pending(lim), r)
            && (Find(lim.ready, r) == |lim.ready| ==> Find(lim.queue, r) < |lim.queue|)
  {
    assert ReqOk(w, r) && LimOk(w.reqs, w.reqs[r].lim, w.limiters[w.reqs[r].lim], w.gens[w.reqs[r].lim]);
    hide InstOk, TrailOk, NotStuck, Balanced, InOrder, Distinct, Awake;
    var lim := w.limiters[w.reqs[r].lim];
    if Find(lim.ready, r) == |lim.ready| {
      WaitsInQueue(lim.queue, lim.ready, r);
    }
  }

  lemma WakeKeeps(w: World, r: nat)
    requires Core(w) && At(w, r, Waiting) && IsReady(w, r)
    ensures Core(DoWake(w, r))
  {
    var q := w.reqs[r];
    var l, lim, inst := q.lim, w.limiters[q.lim], w.insts[q.inst];
    var lim', q' := Resume(lim, r), Admit(q, inst, Granted);
    assert ReqOk(w, r) && LimOk(w.reqs, l, lim, w.gens[l]);
    hide InstOk, TrailOk, NotStuck, WaitersStay, LimiterOk, Waits, Admit, HasPermission, HasRecorded, Balanced,
         Resume, LimOk, Weigh;
    AdmitStates(q, inst, Granted);
    ResumedBooks(w.reqs, r, q', l, lim, w.gens[l]);
    AdmittedFits(q, q', r, inst, lim, lim', w.state);
    hide ReqFits;
    LimiterStepKeeps(w, r, q', lim');
  }

  lemma GiveUpKeeps(w: World, r: nat)
    requires Core(w) && At(w, r, Waiting) && (IsReady(w, r) || IsQueued(w, r))
    ensures Core(DoGiveUp(w, r))
  {
    if IsReady(w, r) {
      WakeKeeps(w, r);
    } else {
      var q := w.reqs[r];
      var l, lim, inst := q.lim, w.limiters[q.lim], w.insts[q.inst];
      var lim', q' := Expire(lim, r).0, Admit(q, inst, Denied);
      WaitingIsListed(w, r);
      assert Expire(lim, r).1 == Denied;
      assert ReqOk(w, r) && LimOk(w.reqs, l, lim, w.gens[l]);
      hide InstOk, TrailOk, NotStuck, WaitersStay, LimiterOk, Waits, Admit, HasPermission, HasRecorded, Balanced,
           Expire, LimOk, Weigh;
      AdmitStates(q, inst, Denied);
      ExpiredBooks(w.reqs, r, q', l, lim, w.gens[l]);
      AdmittedFits(q, q', r, inst, lim, lim', w.state);
      hide ReqFits;
      LimiterStepKeeps(w, r, q', lim');
    }
  }

  /** Handing tokens back: exact as long as only calls that hold tokens do it. */
  lemma ReturnedBooks(reqs: seq<Req>, r: nat, q': Req, l: nat, lim: Limiter)
    requires r < |reqs| && reqs[r].lim == l && q' == reqs[r].(pc := Released) && reqs[r].pc.Uncounted?
    requires !lim.NoOp() && LimiterOk(lim) && Balanced(reqs, l, lim)
    ensures Balanced(reqs[r := q'], l, Release(lim, reqs[r].weight))
  {
    var n, lim' := reqs[r].weight, Release(lim, reqs[r].weight);
    hide Total, LimiterSpec.Weight, Release;
    ReleaseKeeps(lim, n);
    TotalUpdate(Held(l), reqs, r, q');
    TotalUpdate(Counted(l), reqs, r, q');
    TotalContains(Held(l), reqs, r);
    WeightIsNatural(lim.ready);
    FundedSame(reqs, r, q', l);
    assert Weigh(Counted(l), q') == 0 == Weigh(Counted(l), reqs[r]);
    assert Weigh(Held(l), q') == 0;
    assert Weigh(Held(l), reqs[r]) == if reqs[r].unfunded then 0 else n;
    hide Funded, Weigh, LimiterOk;
  }

  lemma ReturnTokensKeeps(w: World, r: nat)
    requires Core(w) && At(w, r, Uncounted)
    ensures Core(DoReturnTokens(w, r))
  {
    var q := w.reqs[r];
    var l, lim := q.lim, w.limiters[q.lim];
    var q', lim' := q.(pc := Released), Release(lim, q.weight);
    assert ReqOk(w, r) && LimOk(w.reqs, l, lim, w.gens[l]);
    hide InstOk, TrailOk, NotStuck, StateSpec.Verdict, Balanced, Release, WaitersStay, LimiterSpec.Weight;
    if !lim.NoOp() {
      ReturnedBooks(w.reqs, r, q', l, lim);
      ReleaseKeeps(lim, q.weight);
    }
    ReleaseMembers(lim, q.weight);
    SameMembers(w.reqs, r, q', l, lim, lim');
    hide LimiterOk;
    assert LimOk(w.reqs[r := q'], l, lim', w.gens[l]);
    LimiterStepKeeps(w, r, q', lim');
  }

  lemma ReleaseMembers(lim: Limiter, n: nat)
    ensures var lim' := Release(lim, n);
            && lim'.size == lim.size && lim'.maxWait == lim.maxWait
            && (forall p :: p in Pending(lim') <==> p in Pending(lim))
            && (lim.NoOp() ==> lim' == lim)
  {
    hide LimiterSpec.Weight, Fits, Tickets;
    if !lim.NoOp() {
      NotifyMembers(if lim.cur - n < 0 then lim.(cur := 0) else lim.(cur := lim.cur - n));
    }
  }

  lemma SameMembers(reqs: seq<Req>, r: nat, q': Req, l: nat, lim: Limiter, lim': Limiter)
    requires r < |reqs| && !reqs[r].pc.Waiting?
    requires forall p :: p in Pending(lim) ==> WaiterOk(reqs, l, p)
    requires forall p :: p in Pending(lim') <==> p in Pending(lim)
    ensures forall p :: p in Pending(lim') ==> WaiterOk(reqs[r := q'], l, p)
    ensures WaitersStay(r, lim, lim')
  {
    WaitersAfter(reqs, r, q', l, lim, lim');
  }
}
