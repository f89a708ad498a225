/** The state objects of state.go. The five implementations of the state interface are one class
    here, told apart by `kind`; everything but the windows, the permission counter and the timer
    channel is fixed at construction. */
module StateInstance {
  import opened Outcomes
  import opened WindowSpec
  import opened Config
  import opened StateSpec
  import opened TimeWindow
  import opened CountWindow

  class StateInstance {
    const kind: State
    const setting: Setting
    const timeWindow: TimeWindowMetric?
    const countWindow: CountWindowMetric?
    const callThreshold: int
    ghost const since: int
    const wait: int
    var callCount: int
    var timer: Timer

    /** The objects the instance owns; they are fixed, and no two instances share any. */
    ghost function Footprint(): set<object> {
      {this}
      + (if timeWindow != null then timeWindow.Footprint() else {})
      + (if countWindow != null then countWindow.Footprint() else {})
    }

    ghost predicate Valid()
      reads Footprint()
    {
      && (kind == SemiOpen <==> countWindow != null)
      && (kind != SemiOpen <==> timeWindow != null)
      && (timeWindow != null ==> timeWindow.Valid())
      && (countWindow != null ==> countWindow.Valid())
      && (kind == SemiOpen ==> callThreshold == setting.config.numberOfCallsInSemiOpenState)
    }

    ghost function Abs(): Inst
      reads Footprint()
      requires Valid()
    {
      match kind
      case Closed => ClosedInst(setting, timeWindow.Abs())
      case Open => OpenInst(timeWindow.Abs(), timer, since, wait)
      case SemiOpen => SemiOpenInst(setting, countWindow.Abs(), callCount)
      case ForcedOpen => ForcedOpenInst(setting, timeWindow.Abs())
      case ForcedClosed => ForcedClosedInst(setting, timeWindow.Abs())
    }

    /** newStateInstance: `born` is the second of the window, `at` the instant a timer starts. */
    constructor (to: State, s: Setting, born: int, ghost at: int)
      requires Usable(s)
      ensures Valid() && fresh(Footprint())
      ensures Abs() == NewInst(to, s, born, at)
    {
      kind, setting := to, s;
      callThreshold := s.config.numberOfCallsInSemiOpenState;
      since, wait := at, s.config.waitDurationInOpenState;
      callCount, timer := 0, Unfired;
      if to == SemiOpen {
        var w := new CountWindowMetric(s.config.numberOfCallsInSemiOpenState);
        countWindow, timeWindow := w, null;
      } else {
        var w := new TimeWindowMetric(s.config.slidingWindowSize, born);
        timeWindow, countWindow := w, null;
      }
    }

    method AcquirePermission() returns (denial: Option<CallError>)
      requires Valid()
      modifies Footprint()
      ensures Valid() && (Abs(), denial) == StateSpec.AcquirePermission(old(Abs()))
      ensures denial.None? <==>
              || kind == Closed || kind == ForcedClosed
              || (kind == SemiOpen && old(callCount) < setting.config.numberOfCallsInSemiOpenState)
    {
      match kind {
        case Closed => denial := None;
        case ForcedClosed => denial := None;
        case Open => denial := Some(ErrCircuitOpen);
        case ForcedOpen => denial := Some(ErrCircuitForcedOpen);
        case SemiOpen =>
          if callCount < callThreshold {
            callCount := callCount + 1;
            denial := None;
          } else {
            denial := Some(ErrMaxPermittedCalls);
          }
      }
    }

    method ReleasePermission()
      requires Valid()
      modifies Footprint()
      ensures Valid() && Abs() == StateSpec.ReleasePermission(old(Abs()))
    {
      if kind == SemiOpen {
        callCount := if callCount == 0 then 0xFFFF_FFFF else callCount - 1;
      }
    }

    /** onError and onSuccess. */
    method OnResult(failed: bool, timedOut: bool, now: int) returns (snapshot: Snapshot)
      requires Valid()
      modifies Footprint()
      ensures Valid() && Abs() == Record(old(Abs()), OutcomeOf(failed, timedOut), now)
      ensures snapshot == SnapshotOf(Abs())
    {
      hide NewSnapshot, InSpan, Tally;
      var outcome := OutcomeOf(failed, timedOut);
      match kind {
        case SemiOpen => snapshot := countWindow.Update(outcome);
        case Open => snapshot := timeWindow.GetSnapshot(now);
        case ForcedOpen => snapshot := timeWindow.GetSnapshot(now);
        case Closed => snapshot := timeWindow.Update(outcome, now);
        case ForcedClosed => snapshot := timeWindow.Update(outcome, now);
      }
    }

    /** getWindowMetrics().getSnapshot() */
    method WindowSnapshot(now: int) returns (snapshot: Snapshot)
      requires Valid()
      modifies Footprint()
      ensures Valid() && Abs() == Glance(old(Abs()), now)
      ensures snapshot == SnapshotOf(Abs())
    {
      hide NewSnapshot, InSpan, Tally;
      if kind == SemiOpen {
        snapshot := countWindow.GetSnapshot();
      } else {
        snapshot := timeWindow.GetSnapshot(now);
      }
    }

    function ShouldCheckForMaxConcurrency(): (b: bool)
      ensures b <==> kind == Closed || kind == Open || kind == SemiOpen
    {
      kind != ForcedClosed && kind != ForcedOpen
    }

    /** shouldStateTransition at the start of a request: receives the tick if there is one. */
    method DecisionAtStart() returns (decision: Option<Decision>)
      requires Valid()
      modifies Footprint()
      ensures Valid() && (Abs(), decision) == StartDecision(old(Abs()))
    {
      if kind == Open && timer == Buffered {
        timer := Taken;
        return Some(Decision(SemiOpen, WaitInOpenElapsed));
      }
      decision := None;
    }

    /** shouldStateTransition at the end of a request. */
    method DecisionAtEnd(snapshot: Snapshot) returns (decision: Option<Decision>)
      requires Valid()
      ensures decision == EndDecision(Abs(), snapshot)
      ensures kind == SemiOpen ==>
                (decision.Some? <==>
                   || snapshot.total >= setting.config.minimumNumberOfCalls
                   || snapshot.total >= setting.config.numberOfCallsInSemiOpenState)
    {
      hide FirstExceeded;
      decision := None;
      if kind == Closed {
        if snapshot.total >= setting.config.minimumNumberOfCalls {
          var exceeded, reason := CheckThresholds(snapshot);
          if exceeded {
            decision := Some(Decision(Open, reason));
          }
        }
      } else if kind == SemiOpen {
        if snapshot.total >= Min(setting.config.minimumNumberOfCalls, setting.config.numberOfCallsInSemiOpenState) {
          var exceeded, reason := CheckThresholds(snapshot);
          decision := Some(if exceeded then Decision(Open, reason)
            else Decision(Closed, FailurePercentsBelowThresholds));
        }
      }
    }

    /** isThresholdsExceed: the first checker that fires decides. */
    method CheckThresholds(snapshot: Snapshot) returns (exceeded: bool, reason: Reason)
      ensures (exceeded, reason) == IsThresholdsExceed(setting, snapshot)
    {
      var i := 0;
      while i < |setting.checkers|
        invariant 0 <= i <= |setting.checkers|
        invariant FirstExceeded(setting.checkers, snapshot, setting.config) ==
                  FirstExceeded(setting.checkers[i..], snapshot, setting.config)
      {
        var verdict := IsThresholdExceed(setting.checkers[i], snapshot, setting.config);
        if verdict.0 {
          return verdict.0, verdict.1;
        }
        i := i + 1;
      }
      exceeded, reason := false, InvalidTransition;
    }

    /** The runtime's timer sends its tick into the buffered channel. */
    method Fire()
      requires Valid() && kind == Open && timer == Unfired
      modifies Footprint()
      ensures Valid() && old(Abs()).OpenInst? && Abs() == old(Abs()).(timer := Buffered)
    {
      timer := Buffered;
    }
  }
}
