/** Configurations: validation, default values, health checkers and the threshold decision
    (config.go, health_checker.go). */
module Config {
  import opened Outcomes
  import Binary64

  /** Durations are in nanoseconds. */
  datatype Config = Config(
    errorPercentThreshold: int,
    timeoutPercentThreshold: int,
    timeoutThreshold: int,
    minimumNumberOfCalls: int,
    numberOfCallsInSemiOpenState: int,
    waitDurationInOpenState: int,
    maxConcurrentCalls: int,
    maxWaitDurationMillis: int,
    slidingWindowSize: int,
    useCachedTime: bool,
    metricsDisabled: bool)

  datatype HealthChecker = TimeoutPercentChecker | ErrorPercentChecker

  datatype Setting = Setting(config: Config, checkers: seq<HealthChecker>)

  datatype Reason =
    | InvalidTransition
    | ErrorThresholdExceeded
    | TimeoutThresholdExceeded
    | WaitInOpenElapsed
    | FailurePercentsBelowThresholds
    | ManualTransition
    | Reset

  const DEFAULT := Config(50, 0, 0, 100, 100, 10_000_000_000, 10000, 0, 10, false, false)

  /** The zero Config a breaker holds before its first update. */
  const BLANK := Config(0, 0, 0, 0, 0, 0, 0, 0, 0, false, false)

  // ---- Validation --------------------------------------------------------------------------

  predicate ValidConfig(c: Config) {
    && c.slidingWindowSize >= 0
    && c.timeoutThreshold >= 0
    && c.minimumNumberOfCalls >= 0
    && c.timeoutPercentThreshold <= 100
    && c.errorPercentThreshold <= 100
    && c.waitDurationInOpenState >= 0
    && c.numberOfCallsInSemiOpenState >= 0
  }

  datatype ConfigError =
    | NilConfig | WindowSize | TimeoutThreshold | MinimumCalls
    | TimeoutPercent | ErrorPercent | TimeInOpen | SemiOpenCalls

  /** Collects every complaint about a configuration; nil means there is none. */
  method IsValidConfig(config: Option<Config>) returns (errors: seq<ConfigError>)
    ensures errors == [] <==> config.Some? && ValidConfig(config.value)
    ensures NilConfig in errors <==> config.None?
    ensures config.Some? ==>
              var c := config.value;
              && (WindowSize in errors <==> c.slidingWindowSize < 0)
              && (TimeoutThreshold in errors <==> c.timeoutThreshold < 0)
              && (MinimumCalls in errors <==> c.minimumNumberOfCalls < 0)
              && (TimeoutPercent in errors <==> c.timeoutPercentThreshold > 100)
              && (ErrorPercent in errors <==> c.errorPercentThreshold > 100)
              && (TimeInOpen in errors <==> c.waitDurationInOpenState < 0)
              && (SemiOpenCalls in errors <==> c.numberOfCallsInSemiOpenState < 0)
  {
    errors := [];
    if config.None? {
      return [NilConfig];
    }
    var c := config.value;
    errors := Complain(errors, WindowSize, c.slidingWindowSize < 0);
    errors := Complain(errors, TimeoutThreshold, c.timeoutThreshold < 0);
    errors := Complain(errors, MinimumCalls, c.minimumNumberOfCalls < 0);
    errors := Complain(errors, TimeoutPercent, c.timeoutPercentThreshold > 100);
    errors := Complain(errors, ErrorPercent, c.errorPercentThreshold > 100);
    errors := Complain(errors, TimeInOpen, c.waitDurationInOpenState < 0);
    errors := Complain(errors, SemiOpenCalls, c.numberOfCallsInSemiOpenState < 0);
  }

  method Complain(errors: seq<ConfigError>, e: ConfigError, bad: bool) returns (more: seq<ConfigError>)
    ensures forall x :: x in more <==> x in errors || (bad && x == e)
    ensures more == [] <==> errors == [] && !bad
  {
    more := if bad then errors + [e] else errors;
  }

  // ---- Defaults ----------------------------------------------------------------------------

  function OrDefault(value: int, default: int): int {
    if value != 0 then value else default
  }

  function Positive(value: int, default: int): int {
    if value > 0 then value else default
  }

  function FillConfig(c: Config): Config {
    Config(Positive(c.errorPercentThreshold, DEFAULT.errorPercentThreshold),
           Positive(c.timeoutPercentThreshold, DEFAULT.timeoutPercentThreshold),
           OrDefault(c.timeoutThreshold, DEFAULT.timeoutThreshold),
           OrDefault(c.minimumNumberOfCalls, DEFAULT.minimumNumberOfCalls),
           OrDefault(c.numberOfCallsInSemiOpenState, DEFAULT.numberOfCallsInSemiOpenState),
           OrDefault(c.waitDurationInOpenState, DEFAULT.waitDurationInOpenState),
           OrDefault(c.maxConcurrentCalls, DEFAULT.maxConcurrentCalls),
           Positive(c.maxWaitDurationMillis, DEFAULT.maxWaitDurationMillis),
           OrDefault(c.slidingWindowSize, DEFAULT.slidingWindowSize),
           c.useCachedTime, c.metricsDisabled)
  }

  /** The error check is on for a positive threshold, and by default when the timeout check is
      off too. */
  predicate ErrorCheckOn(c: Config) {
    c.errorPercentThreshold > 0 || (c.errorPercentThreshold == 0 && c.timeoutPercentThreshold <= 0)
  }

  function Checkers(c: Config): seq<HealthChecker> {
    if c.errorPercentThreshold > 0 then
      [ErrorPercentChecker] + if c.timeoutPercentThreshold > 0 then [TimeoutPercentChecker] else []
    else if c.timeoutPercentThreshold > 0 then [TimeoutPercentChecker]
    else if c.errorPercentThreshold == 0 then [ErrorPercentChecker]
    else []
  }

  function Fill(c: Config): Setting {
    Setting(FillConfig(c), Checkers(c))
  }

  method FillDefaultsAndGetSetting(config: Config) returns (s: Setting)
    ensures s == Fill(config)
  {
    hide OrDefault;
    var filled := DEFAULT;
    var checkers: seq<HealthChecker> := [];
    if config.errorPercentThreshold > 0 {
      filled := filled.(errorPercentThreshold := config.errorPercentThreshold);
      checkers := checkers + [ErrorPercentChecker];
    }
    if config.timeoutPercentThreshold > 0 {
      filled := filled.(timeoutPercentThreshold := config.timeoutPercentThreshold);
      checkers := checkers + [TimeoutPercentChecker];
    }
    if config.errorPercentThreshold == 0 && config.timeoutPercentThreshold <= 0 {
      checkers := checkers + [ErrorPercentChecker];
    }
    assert checkers == Checkers(config);
    if config.maxWaitDurationMillis > 0 {
      filled := filled.(maxWaitDurationMillis := config.maxWaitDurationMillis);
    }
    filled := FillNonZero(config, filled);
    filled := filled.(metricsDisabled := config.metricsDisabled, useCachedTime := config.useCachedTime);
    s := Setting(filled, checkers);
  }

  /** The fields for which only zero means "default". */
  method FillNonZero(config: Config, filled: Config) returns (r: Config)
    ensures r == filled.(
              waitDurationInOpenState := OrDefault(config.waitDurationInOpenState, filled.waitDurationInOpenState),
              slidingWindowSize := OrDefault(config.slidingWindowSize, filled.slidingWindowSize),
              minimumNumberOfCalls := OrDefault(config.minimumNumberOfCalls, filled.minimumNumberOfCalls),
              timeoutThreshold := OrDefault(config.timeoutThreshold, filled.timeoutThreshold),
              numberOfCallsInSemiOpenState :=
                OrDefault(config.numberOfCallsInSemiOpenState, filled.numberOfCallsInSemiOpenState),
              maxConcurrentCalls := OrDefault(config.maxConcurrentCalls, filled.maxConcurrentCalls))
  {
    r := filled;
    if config.waitDurationInOpenState != 0 {
      r := r.(waitDurationInOpenState := config.waitDurationInOpenState);
    }
    if config.slidingWindowSize != 0 {
      r := r.(slidingWindowSize := config.slidingWindowSize);
    }
    if config.minimumNumberOfCalls != 0 {
      r := r.(minimumNumberOfCalls := config.minimumNumberOfCalls);
    }
    if config.timeoutThreshold != 0 {
      r := r.(timeoutThreshold := config.timeoutThreshold);
    }
    if config.numberOfCallsInSemiOpenState != 0 {
      r := r.(numberOfCallsInSemiOpenState := config.numberOfCallsInSemiOpenState);
    }
    if config.maxConcurrentCalls != 0 {
      r := r.(maxConcurrentCalls := config.maxConcurrentCalls);
    }
  }

  /** What the rest of the program relies on in a setting. */
  predicate Usable(s: Setting) {
    && s.config.slidingWindowSize > 0
    && s.config.minimumNumberOfCalls > 0
    && s.config.numberOfCallsInSemiOpenState > 0
    && s.config.waitDurationInOpenState > 0
    && s.config.maxConcurrentCalls != 0
    && (ErrorPercentChecker in s.checkers ==> 1 <= s.config.errorPercentThreshold <= 100)
    && (TimeoutPercentChecker in s.checkers ==> 1 <= s.config.timeoutPercentThreshold <= 100)
  }

  /** A valid configuration fills to positive ring capacities and in-range thresholds for every
      enabled checker, and never to the blank one. */
  lemma FilledIsUsable(c: Config)
    requires ValidConfig(c)
    ensures Usable(Fill(c)) && FillConfig(c) != BLANK
  {
  }

  /** Filling is idempotent on the Config part, and a filled configuration is valid. */
  lemma FillIsIdempotent(c: Config)
    ensures FillConfig(FillConfig(c)) == FillConfig(c)
    ensures ValidConfig(c) ==> ValidConfig(FillConfig(c))
  {
  }

  /** The checkers are those of the two checks that are on. */
  lemma CheckersAre(c: Config)
    ensures ErrorPercentChecker in Checkers(c) <==> ErrorCheckOn(c)
    ensures ErrorCheckOn(c) <==>
            c.errorPercentThreshold > 0 || (c.errorPercentThreshold == 0 && c.timeoutPercentThreshold <= 0)
    ensures TimeoutPercentChecker in Checkers(c) <==> c.timeoutPercentThreshold > 0
  {
  }

  /** Filling does what the documentation of each field says: a field that is given is kept, and one that
      is not has the documented default. */
  lemma FilledAsDocumented(c: Config)
    ensures var f := FillConfig(c);
            && f.errorPercentThreshold == (if c.errorPercentThreshold > 0 then c.errorPercentThreshold else 50)
            && f.timeoutPercentThreshold == (if c.timeoutPercentThreshold > 0 then c.timeoutPercentThreshold else 0)
            && f.timeoutThreshold == c.timeoutThreshold
            && f.minimumNumberOfCalls == (if c.minimumNumberOfCalls == 0 then 100 else c.minimumNumberOfCalls)
            && f.numberOfCallsInSemiOpenState ==
                 (if c.numberOfCallsInSemiOpenState == 0 then 100 else c.numberOfCallsInSemiOpenState)
            && f.waitDurationInOpenState ==
                 (if c.waitDurationInOpenState == 0 then 10_000_000_000 else c.waitDurationInOpenState)
            && f.maxConcurrentCalls == (if c.maxConcurrentCalls == 0 then 10000 else c.maxConcurrentCalls)
            && f.maxWaitDurationMillis == (if c.maxWaitDurationMillis > 0 then c.maxWaitDurationMillis else 0)
            && f.slidingWindowSize == (if c.slidingWindowSize == 0 then 10 else c.slidingWindowSize)
            && f.useCachedTime == c.useCachedTime && f.metricsDisabled == c.metricsDisabled
  {
  }

  /** The filled Config does not determine the checkers: two configurations that fill alike have
      the same ones exactly when they agree on the error check. So an update with the same filled
      form that switches the error check on or off changes nothing. */
  lemma SameFillSameCheckersIff(c: Config, d: Config)
    requires FillConfig(c) == FillConfig(d)
    ensures Checkers(c) == Checkers(d) <==> (ErrorCheckOn(c) <==> ErrorCheckOn(d))
  {
    CheckersAre(c);
    CheckersAre(d);
  }

  /** An input that shows it: error threshold -1 (check disabled) and 50 (check enabled). */
  lemma DisabledCheckFillsLikeDefault()
    ensures var off, on := DEFAULT.(errorPercentThreshold := -1), DEFAULT;
            && ValidConfig(off) && FillConfig(off) == FillConfig(on)
            && Checkers(off) == [] && Checkers(on) == [ErrorPercentChecker]
  {
  }

  // ---- Thresholds --------------------------------------------------------------------------

  function IsThresholdExceed(h: HealthChecker, s: Snapshot, c: Config): (bool, Reason) {
    match h
    case TimeoutPercentChecker =>
      if s.timeoutPercent >= c.timeoutPercentThreshold then (true, TimeoutThresholdExceeded)
        else (false, InvalidTransition)
    case ErrorPercentChecker =>
      if s.errorPercent >= c.errorPercentThreshold then (true, ErrorThresholdExceeded) else (false, InvalidTransition)
  }

  /** The verdict of the first checker that fires. */
  function FirstExceeded(checkers: seq<HealthChecker>, s: Snapshot, c: Config): (bool, Reason) {
    if checkers == [] then (false, InvalidTransition)
    else
      var verdict := IsThresholdExceed(checkers[0], s, c);
      if verdict.0 then verdict else FirstExceeded(checkers[1..], s, c)
  }

  function IsThresholdsExceed(setting: Setting, s: Snapshot): (bool, Reason) {
    FirstExceeded(setting.checkers, s, setting.config)
  }

  predicate IsTimeout(c: Config, duration: int) {
    c.timeoutThreshold > 0 && duration >= c.timeoutThreshold
  }

  /** The code agrees with its documentation, "when the call duration is greater than
      TimeoutThreshold", for every duration but one: the threshold itself. */
  lemma TimeoutAsDocumentedIff(c: Config, duration: int)
    ensures (IsTimeout(c, duration) <==> c.timeoutThreshold > 0 && duration > c.timeoutThreshold)
       <==> !(c.timeoutThreshold > 0 && duration == c.timeoutThreshold)
  {
  }

  /** The share of `bad` calls reaches the threshold, in exact arithmetic. */
  predicate ShareReaches(bad: int, total: int, threshold: int) {
    100 * bad >= threshold * total
  }

  /** The one case in which the program misses a share that reaches the threshold. */
  predicate Missed(bad: int, total: int, threshold: int) {
    100 * bad == threshold * total && Binary64.Short(threshold)
  }

  predicate Trips(bad: int, total: int, threshold: int) {
    ShareReaches(bad, total, threshold) && !Missed(bad, total, threshold)
  }

  /** In terms of the outcomes counted. */
  predicate Unhealthy(setting: Setting, c: Counter) {
    || (ErrorPercentChecker in setting.checkers && Trips(c.error, c.total, setting.config.errorPercentThreshold))
    || (TimeoutPercentChecker in setting.checkers && Trips(c.timeout, c.total, setting.config.timeoutPercentThreshold))
  }

  predicate ReasonFits(setting: Setting, c: Counter, reason: Reason) {
    match reason
    case ErrorThresholdExceeded =>
      ErrorPercentChecker in setting.checkers && Trips(c.error, c.total, setting.config.errorPercentThreshold)
    case TimeoutThresholdExceeded =>
      TimeoutPercentChecker in setting.checkers && Trips(c.timeout, c.total, setting.config.timeoutPercentThreshold)
    case _ => false
  }

  lemma CheckerTrips(h: HealthChecker, setting: Setting, c: Counter)
    requires Usable(setting) && h in setting.checkers
    requires c.Consistent() && 0 < c.total <= Binary64.COUNT_LIMIT
    ensures IsThresholdExceed(h, NewSnapshot(c), setting.config).0 <==>
            match h
            case ErrorPercentChecker => Trips(c.error, c.total, setting.config.errorPercentThreshold)
            case TimeoutPercentChecker => Trips(c.timeout, c.total, setting.config.timeoutPercentThreshold)
  {
    hide Binary64.Percent;
    match h {
      case ErrorPercentChecker => PercentReaches(c.error, c.total, setting.config.errorPercentThreshold);
      case TimeoutPercentChecker => PercentReaches(c.timeout, c.total, setting.config.timeoutPercentThreshold);
    }
  }

  lemma {:induction false} FirstExceededIsReal(checkers: seq<HealthChecker>, setting: Setting, c: Counter)
    requires Usable(setting) && c.Consistent() && 0 < c.total <= Binary64.COUNT_LIMIT
    requires forall h :: h in checkers ==> h in setting.checkers
    ensures var verdict := FirstExceeded(checkers, NewSnapshot(c), setting.config);
            && (verdict.0 ==> ReasonFits(setting, c, verdict.1))
            && (verdict.0 <==> exists h :: h in checkers && IsThresholdExceed(h, NewSnapshot(c), setting.config).0)
  {
    hide NewSnapshot, Trips, Usable;
    if checkers != [] {
      CheckerTrips(checkers[0], setting, c);
      FirstExceededIsReal(checkers[1..], setting, c);
      assert forall h :: h in checkers <==> h == checkers[0] || h in checkers[1..];
    }
  }

  /** A non-empty window exceeds the thresholds exactly when the share of bad calls reaches an
      enabled one, except for a window sitting exactly on a threshold of 29, 57 or 58 percent;
      and the reason given names a threshold that is reached. */
  lemma ThresholdsExceedIff(setting: Setting, c: Counter)
    requires Usable(setting) && c.Consistent() && 0 < c.total <= Binary64.COUNT_LIMIT
    ensures IsThresholdsExceed(setting, NewSnapshot(c)).0 <==> Unhealthy(setting, c)
    ensures IsThresholdsExceed(setting, NewSnapshot(c)).0 ==>
              ReasonFits(setting, c, IsThresholdsExceed(setting, NewSnapshot(c)).1)
  {
    hide NewSnapshot, Trips, Usable;
    FirstExceededIsReal(setting.checkers, setting, c);
    forall h | h in setting.checkers
      ensures IsThresholdExceed(h, NewSnapshot(c), setting.config).0 ==> Unhealthy(setting, c)
    {
      CheckerTrips(h, setting, c);
    }
    if Unhealthy(setting, c) {
      if ErrorPercentChecker in setting.checkers {
        CheckerTrips(ErrorPercentChecker, setting, c);
      }
      if TimeoutPercentChecker in setting.checkers {
        CheckerTrips(TimeoutPercentChecker, setting, c);
      }
    }
  }

  /** When both thresholds are reached, the reason given is the error share. */
  lemma ErrorShareIsNamedFirst(config: Config, c: Counter)
    requires ValidConfig(config) && c.Consistent() && 0 < c.total <= Binary64.COUNT_LIMIT
    ensures var (setting, verdict) := (Fill(config), IsThresholdsExceed(Fill(config), NewSnapshot(c)));
            verdict.0 ==>
              (verdict.1 == ErrorThresholdExceeded <==>
                 ErrorCheckOn(config) && Trips(c.error, c.total, setting.config.errorPercentThreshold))
  {
    hide NewSnapshot, Trips, FillConfig, Usable;
    FilledIsUsable(config);
    var setting := Fill(config);
    ThresholdsExceedIff(setting, c);
    if ErrorPercentChecker in setting.checkers {
      CheckerTrips(ErrorPercentChecker, setting, c);
    }
  }

  /** A window of 29 errors in 100 calls does not exceed an error threshold of 29 percent, although
      the documentation of ErrorPercentThreshold says "equal or greater". */
  lemma EqualShareCanBeMissed()
    ensures var setting := Fill(DEFAULT.(errorPercentThreshold := 29));
            !IsThresholdsExceed(setting, NewSnapshot(Counter(100, 29, 0))).0
  {
    hide NewSnapshot, FirstExceeded;
    ThresholdsExceedIff(Fill(DEFAULT.(errorPercentThreshold := 29)), Counter(100, 29, 0));
  }
}
