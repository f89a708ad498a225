/** The five breaker states of state.go as values: what each does with a request that starts, asks
    for permission or ends. */
module StateSpec {
  import Binary64
  import opened Outcomes
  import opened WindowSpec
  import opened Config

  datatype State = Closed | Open | SemiOpen | ForcedOpen | ForcedClosed

  /** The errors of constant.go, and any other error of a protected call. */
  datatype CallError =
    | ErrMaxConcurrency
    | ErrCircuitOpen
    | ErrCircuitForcedOpen
    | ErrMaxPermittedCalls
    | OtherError(code: int)

  /** The one-shot timer of an Open state: not fired, fired with its tick buffered in the channel,
      or the tick received. */
  datatype Timer = Unfired | Buffered | Taken

  /** A state instance. Breakers compare instances by identity; here that is the index at which an
      instance is kept. An Open instance keeps no setting. */
  datatype Inst =
    | ClosedInst(setting: Setting, window: TimeLog)
    | OpenInst(window: TimeLog, timer: Timer, since: int, wait: int)
    | SemiOpenInst(setting: Setting, probes: CountLog, callCount: int)
    | ForcedOpenInst(setting: Setting, window: TimeLog)
    | ForcedClosedInst(setting: Setting, window: TimeLog)
  {
    function Kind(): State {
      match this
      case ClosedInst(_, _) => Closed
      case OpenInst(_, _, _, _) => Open
      case SemiOpenInst(_, _, _) => SemiOpen
      case ForcedOpenInst(_, _) => ForcedOpen
      case ForcedClosedInst(_, _) => ForcedClosed
    }

    predicate ChecksConcurrency() {
      Kind() != ForcedOpen && Kind() != ForcedClosed
    }

    /** The counter behind the window's snapshot. */
    function Counts(): (c: Counter)
      ensures c.Consistent()
    {
      if SemiOpenInst? then probes.Total() else window.Total()
    }

    function Recorded(): nat {
      if SemiOpenInst? then |probes.log| else |window.log|
    }
  }

  /** `born` is the second of the window, `at` the instant the timer starts. */
  function NewInst(to: State, setting: Setting, born: int, at: int): Inst
    requires Usable(setting)
  {
    var window := NewTimeLog(setting.config.slidingWindowSize, born);
    match to
    case Closed => ClosedInst(setting, window)
    case Open => OpenInst(window, Unfired, at, setting.config.waitDurationInOpenState)
    case SemiOpen => SemiOpenInst(setting, CountLog(setting.config.numberOfCallsInSemiOpenState, []), 0)
    case ForcedOpen => ForcedOpenInst(setting, window)
    case ForcedClosed => ForcedClosedInst(setting, window)
  }

  /** acquirePermission */
  function AcquirePermission(inst: Inst): (Inst, Option<CallError>) {
    match inst
    case ClosedInst(_, _) => (inst, None)
    case ForcedClosedInst(_, _) => (inst, None)
    case OpenInst(_, _, _, _) => (inst, Some(ErrCircuitOpen))
    case ForcedOpenInst(_, _) => (inst, Some(ErrCircuitForcedOpen))
    case SemiOpenInst(setting, _, callCount) =>
      if callCount < setting.config.numberOfCallsInSemiOpenState then (inst.(callCount := callCount + 1), None)
      else (inst, Some(ErrMaxPermittedCalls))
  }

  /** releasePermission; the counter is an unsigned 32-bit integer. */
  function ReleasePermission(inst: Inst): Inst {
    match inst
    case SemiOpenInst(_, _, callCount) =>
      inst.(callCount := if callCount == 0 then 0xFFFF_FFFF else callCount - 1)
    case _ => inst
  }

  /** getWindowMetrics().getSnapshot(): a time window is slid to the present. */
  function Glance(inst: Inst, now: int): Inst {
    if inst.SemiOpenInst? then inst else inst.(window := inst.window.Slide(now))
  }

  /** onError and onSuccess. */
  function Record(inst: Inst, outcome: WindowOutcome, now: int): Inst {
    match inst
    case SemiOpenInst(_, probes, _) => inst.(probes := probes.Update(outcome))
    case OpenInst(_, _, _, _) => Glance(inst, now)
    case ForcedOpenInst(_, _) => Glance(inst, now)
    case ClosedInst(setting, window) => ClosedInst(setting, window.Update(outcome, now))
    case ForcedClosedInst(setting, window) => ForcedClosedInst(setting, window.Update(outcome, now))
  }

  function SnapshotOf(inst: Inst): Snapshot {
    NewSnapshot(inst.Counts())
  }

  datatype Decision = Decision(to: State, reason: Reason)

  /** shouldStateTransition at the start of a request. */
  function StartDecision(inst: Inst): (Inst, Option<Decision>) {
    if inst.OpenInst? && inst.timer.Buffered? then
      (inst.(timer := Taken), Some(Decision(SemiOpen, WaitInOpenElapsed)))
    else (inst, None)
  }

  function Min(a: int, b: int): int {
    if a < b then a else b
  }

  /** The number of probes after which a SemiOpen instance decides. */
  function ProbesNeeded(setting: Setting): int {
    Min(setting.config.minimumNumberOfCalls, setting.config.numberOfCallsInSemiOpenState)
  }

  /** shouldStateTransition at the end of a request. */
  function EndDecision(inst: Inst, snapshot: Snapshot): Option<Decision> {
    match inst
    case ClosedInst(setting, _) =>
      if snapshot.total >= setting.config.minimumNumberOfCalls then
        var (exceeded, reason) := IsThresholdsExceed(setting, snapshot);
        if exceeded then Some(Decision(Open, reason)) else None
      else None
    case SemiOpenInst(setting, _, _) =>
      if snapshot.total >= ProbesNeeded(setting) then
        var (exceeded, reason) := IsThresholdsExceed(setting, snapshot);
        if exceeded then Some(Decision(Open, reason)) else Some(Decision(Closed, FailurePercentsBelowThresholds))
      else None
    case _ => None
  }

  /** The decision an instance takes on its own window. */
  function Verdict(inst: Inst): Option<Decision> {
    EndDecision(inst, SnapshotOf(inst))
  }

  predicate ValidAutomatic(from: State, to: State) {
    match from
    case Closed => to == Open
    case Open => to == SemiOpen
    case SemiOpen => to == Closed || to == Open
    case ForcedOpen => false
    case ForcedClosed => false
  }

  /** Every decision an instance takes is an allowed automatic transition. */
  lemma DecisionsAreValid(inst: Inst)
    ensures Verdict(inst).Some? ==> ValidAutomatic(inst.Kind(), Verdict(inst).value.to) && !inst.OpenInst?
    ensures StartDecision(inst).1.Some? ==> ValidAutomatic(inst.Kind(), StartDecision(inst).1.value.to)
  {
    hide NewSnapshot, FirstExceeded;
  }

  /** A Closed instance trips exactly when its window holds enough calls and a bad share. */
  lemma ClosedTripsIff(inst: Inst)
    requires inst.ClosedInst? && Usable(inst.setting) && inst.Counts().total <= Binary64.COUNT_LIMIT
    ensures Verdict(inst).Some? <==>
            inst.Counts().total >= inst.setting.config.minimumNumberOfCalls && Unhealthy(inst.setting, inst.Counts())
    ensures Verdict(inst).Some? ==>
            Verdict(inst).value.to == Open && ReasonFits(inst.setting, inst.Counts(), Verdict(inst).value.reason)
  {
    hide NewSnapshot, FirstExceeded, InSpan, Unhealthy;
    SnapshotTotal(inst.Counts());
    if inst.Counts().total >= inst.setting.config.minimumNumberOfCalls {
      ThresholdsExceedIff(inst.setting, inst.Counts());
    }
  }

  /** A SemiOpen instance decides exactly when its probes have reached the minimum number of calls or the
      number it allows, and then by their share. */
  lemma SemiOpenDecides(inst: Inst)
    requires inst.SemiOpenInst? && Usable(inst.setting) && inst.Counts().total <= Binary64.COUNT_LIMIT
    ensures Verdict(inst).Some? <==>
            || inst.Counts().total >= inst.setting.config.minimumNumberOfCalls
            || inst.Counts().total >= inst.setting.config.numberOfCallsInSemiOpenState
    ensures Verdict(inst).Some? ==>
              var d := Verdict(inst).value;
              && (d.to == Open <==> Unhealthy(inst.setting, inst.Counts()))
              && (d.to == Open ==> ReasonFits(inst.setting, inst.Counts(), d.reason))
              && (d.to != Open ==> d == Decision(Closed, FailurePercentsBelowThresholds))
  {
    hide NewSnapshot, FirstExceeded, Tally, Unhealthy, ReasonFits;
    SnapshotTotal(inst.Counts());
    if inst.Counts().total >= ProbesNeeded(inst.setting) {
      ThresholdsExceedIff(inst.setting, inst.Counts());
    }
  }

  /** Below MinimumNumberOfCalls a Closed instance never opens; a SemiOpen one does if and only if it has
      all the probes it allows and their share is bad. */
  lemma OpensBelowMinimumIff(inst: Inst)
    requires (inst.ClosedInst? || inst.SemiOpenInst?) && Usable(inst.setting)
    requires inst.Counts().total <= Binary64.COUNT_LIMIT
        && inst.Counts().total < inst.setting.config.minimumNumberOfCalls
    ensures Verdict(inst).Some? && Verdict(inst).value.to == Open <==>
            && inst.SemiOpenInst? && inst.Counts().total >= inst.setting.config.numberOfCallsInSemiOpenState
            && Unhealthy(inst.setting, inst.Counts())
  {
    hide Verdict, Unhealthy, InSpan, Tally;
    if inst.ClosedInst? {
      ClosedTripsIff(inst);
    } else {
      SemiOpenDecides(inst);
    }
  }

  lemma SnapshotTotal(c: Counter)
    requires c.Consistent()
    ensures NewSnapshot(c).total == c.total
  {
  }

  /** A ring moves on and a log grows. */
  ghost predicate WindowEvolves(w: TimeLog, w': TimeLog) {
    w.capacity == w'.capacity && w.clock <= w'.clock && w.log <= w'.log
  }

  /** `later` is a value the same instance may have after `earlier`. */
  ghost predicate Evolves(earlier: Inst, later: Inst) {
    match (earlier, later)
    case (ClosedInst(s, w), ClosedInst(s', w')) => s == s' && WindowEvolves(w, w')
    case (OpenInst(w, t, o, d), OpenInst(w', t', o', d')) =>
      o == o' && d == d' && WindowEvolves(w, w') && (t.Taken? ==> t'.Taken?)
    case (SemiOpenInst(s, p, _), SemiOpenInst(s', p', _)) => s == s' && p.capacity == p'.capacity && p.log <= p'.log
    case (ForcedOpenInst(s, w), ForcedOpenInst(s', w')) => s == s' && WindowEvolves(w, w')
    case (ForcedClosedInst(s, w), ForcedClosedInst(s', w')) => s == s' && WindowEvolves(w, w')
    case _ => false
  }

  /** The last thing that happened to the window is that an outcome was recorded: the ring stands at
      the second of that outcome. */
  ghost predicate JustRecorded(inst: Inst) {
    match inst
    case ClosedInst(_, w) => w.log != [] && w.log[|w.log| - 1].second == w.clock
    case SemiOpenInst(_, probes, _) => probes.log != []
    case _ => true
  }

  lemma RecordJustRecorded(inst: Inst, outcome: WindowOutcome, now: int)
    ensures JustRecorded(Record(inst, outcome, now))
  {
  }

  lemma StepsEvolve(inst: Inst, outcome: WindowOutcome, now: int)
    ensures Evolves(inst, inst)
    ensures Evolves(inst, AcquirePermission(inst).0)
    ensures Evolves(inst, ReleasePermission(inst))
    ensures Evolves(inst, Glance(inst, now))
    ensures Evolves(inst, Record(inst, outcome, now))
    ensures Evolves(inst, StartDecision(inst).0)
  {
  }

  lemma EvolvesTransitive(a: Inst, b: Inst, c: Inst)
    requires Evolves(a, b) && Evolves(b, c)
    ensures Evolves(a, c)
  {
  }
}
