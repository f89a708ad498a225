# A verified model of a circuit breaker

The library protects calls to a dependency. A breaker counts the outcomes of calls in a sliding
window, stops calls for a while when too many were bad, lets a few probes through, and decides on
them whether to go back to normal. Beside that it limits how many calls run at the same time, can be
forced open or closed, and can be reconfigured while calls are in flight. Requests, operators and
updates run concurrently; the library synchronises them with one lock per critical section, so the
interesting behaviour lies between the sections.

This project models the whole of it twice and ties the two together.

* **Classes** follow the source statement by statement: the two rings of `window.go`
  (`TimeWindow`, `CountWindow`), the weighted semaphore (`ConcurrencyLimiter`), the state objects
  (`StateInstance`), the breaker with its locked sections (`CircuitBreaker`), whole calls and entries
  (`Calls`) and the registry of breakers by name (`Registry`). Every method is proved against a
  function on plain values.
* **Values** give the meaning: logs of outcomes (`WindowSpec`), a queue with tokens
  (`LimiterSpec`), state instances (`StateSpec`), and a world of any number of requests in which one
  atomic section is one step (`Protocol`). An invariant (`Invariant`, `RequestSteps`, `BreakerSteps`)
  is shown to hold in every reachable world, and the properties of the library are consequences of it
  (`Safety`, `Runs`, `StepLaws`, `Recorded`, `Conservation`, `OverAdmission`).

The object `CircuitBreaker` carries the world as a ghost field. Its predicate `Valid` says that every
state object and every limiter ever made, also those the breaker has left, has exactly the value the
world gives it, and each section is proved to be a step of the world: `world == Step(old(world), a)`.
So whatever is proved of all worlds holds of the objects. `Calls` composes the sections into
`enterWithFallback`, `Entry.Exit` and `ProtectWithContext`; between any two sections stands
`Interleave`, a method of which callers know only that the breaker stays in order and that nobody
else moves their request. `OthersLeaveItAlone` shows that this is no more than other steps do.

Clocks are inputs: every second a window sees and every instant a timer is read is arbitrary, also one
that goes back. Weights, run errors, durations and the choices of the scheduler are arbitrary too.

## Files

| file | contents |
|---|---|
| Binary64 | division and multiplication in binary64, and what the percentage formula yields |
| Outcomes | outcomes, counters, snapshots |
| WindowSpec, TimeWindow, CountWindow | the two windows as logs and as rings |
| Config | validation, defaults, health checkers, the threshold decision |
| LimiterSpec, ConcurrencyLimiter | the semaphore as a state machine and as an object |
| StateSpec, StateInstance | the five states as values and as objects |
| Protocol, Accounting | the world, its steps, and sums over requests |
| Invariant, RequestSteps, BreakerSteps | the invariant and that every step keeps it |
| Safety, Runs | what follows in every reachable world, and along every run |
| StepLaws | what each step does to the request that takes it, in the fields of its instance and limiter |
| Recorded | which calls a window holds, over whole runs |
| Conservation, OverAdmission | how exact the limiter's books are along every run, and runs that break the limit |
| CircuitBreaker, Calls, Registry | the breaker object, whole calls, breakers by name |

## Where the code and its documentation differ

The model follows the code in each case.

* `ErrorPercentThreshold` is documented as "equal or greater" (config.go:19). The percentage is
  computed in binary64 and truncated, and for a share of exactly 29, 57 or 58 percent the result is one
  less. So the threshold is missed exactly for thresholds 29, 57 and 58 met exactly
  (`Binary64.PercentIsExact`, `Config.ThresholdsExceedIff`, `Config.EqualShareCanBeMissed`).
* A call is documented as a timeout when it takes longer than `TimeoutThreshold` (config.go:26); the code
  also counts one that takes exactly as long (config.go:139), and differs in that case only
  (`Config.TimeoutAsDocumentedIff`).
* The time window is documented as the last `SlidingWindowSize` seconds (config.go:60). Whether it is
  depends on the readings of the clock alone: it is, whatever the outcomes, if and only if ring and
  clock agree for every two readings on whether the earlier one is still within the window
  (`WindowSpec.ContentsExactIff`). They do when the clock never goes back after the window was made
  (`WindowSpec.MonotoneClockIsExact`). A reading behind the ring pushes it one second further, and as
  long as every reading is behind it, the window counts calls instead of seconds
  (`WindowSpec.LaggingClockRunsAway`, `WindowSpec.LaggingWindowCountsCalls`).
* Forced states are documented to be left only by another forced transition or `Reset` (cb.go:28). An
  update that changes the filled configuration leaves them too, and nothing else does
  (`Runs.ForcedStateLeftIff`).
* `UpdateConfig` compares filled configurations, which do not show whether the error check is on. An
  update with the same filled form changes nothing, also if it switches that check on or off
  (`Config.SameFillSameCheckersIff`, `Runs.UpdateChecksIff`).
* The comment in `release` says that returning more than is held should not be possible
  (concurrency_limiter.go:119), and the limiter is there to keep the running calls within its size. A
  call that ForcedClosed admits although it got no tokens still returns its weight, at the expense of
  others. `Conservation.GapMovesByLossAlong` accounts for it exactly along every run. From exact books,
  which every new limiter has, the calls that hold tokens or have been granted them exceed the size if
  and only if the run has lost more than the free tokens, and never by more than it has lost
  (`Conservation.LimitExceededIff`); the release of a call that holds tokens is clamped if and only if
  the run has lost more than the others hold or have been granted (`Conservation.ClampedIff`). A step loses something from exact books
  if and only if it is the release of such a call with something to take
  (`Conservation.StaysExactIff`). Both can happen (`OverAdmission.LimitCanBeExceeded`,
  `OverAdmission.ClampCanBeReached`).
* `MaxConcurrentCalls` is documented as the maximum number of concurrent calls (config.go:50). The limit
  is one of each configuration generation: an update that changes any field of the filled
  configuration makes a fresh limiter (cb.go:72-75) while the calls of the old one go on. All calls in
  flight are bounded by the sizes of the limiters that still have some, plus what the run has lost on
  these. They exceed the configured limit if and only if those of earlier generations, plus what the
  run has lost on the present limiter, weigh more than the tokens it has left
  (`Conservation.InFlightIsBounded`); it happens also where nothing is lost
  (`OverAdmission.LimitIsPerGeneration`).
* Below `MinimumNumberOfCalls` in the window there is, as documented, no transition to OPEN
  (config.go:35-37). That holds of a Closed state. A SemiOpen one opens below it if and only if it has
  all the probes it allows, which are fewer then, and their share is bad
  (`StateSpec.OpensBelowMinimumIff`).
* A failed `acquire` is documented to leave the semaphore unchanged (concurrency_limiter.go:54). The
  uncapped count keeps the weight of a refused call for good, so nothing has changed if and only if the
  weight is zero (`LimiterSpec.DeniedAcquireLeaves`); one that has waited also lets the next waiters
  through if it was at the front and they fit (`LimiterSpec.ExpiredAcquireLeaves`).
* The reported outcome is read off the run error alone, so a run function that passes on the error of
  another breaker is reported as rejected although it ran (`Safety.ReportedAsRejectionIff`).

## Model

| member | source | states |
|---|---|---|
| Binary64.RoundIsNearest | window.go:83-84 | both roundings in the percentage formula, of the quotient and of the product, are to a nearest number of 53 bits |
| Binary64.PercentIsExact | window.go:83-84 | for all counts up to 2^44 the computed percentage is the whole part of the exact one, and one less exactly for shares of 29, 57 and 58 percent |
| Outcomes.PercentReaches | window.go:82-85 | the percentage reaches a threshold if and only if the counts do, except on those three shares |
| Outcomes.PercentsInRange | window.go:74-87 | both percentages of a snapshot lie in 0..100 |
| Outcomes.SnapshotShows | window.go:74-87 | a snapshot shows the counts, successes and errors that make up the total, and their shares |
| Outcomes.OutcomeInNumbers | entry.go:49-54 | counting a call raises the errors if and only if it failed and the timeouts if and only if it timed out |
| Outcomes.TallyConcat | window.go:26-43 | counters add up over concatenated logs |
| WindowSpec.SlideDrops | window.go:192-216 | sliding at any clock reading drops exactly the outcomes of the seconds that leave the window |
| WindowSpec.SpanCounts | window.go:26-43 | a span counts the outcomes stamped in it, and among them those of errors and those of timeouts |
| WindowSpec.UpdateAdds | window.go:218-226 | an update adds one outcome to the slid window |
| WindowSpec.ReplayIsValid | window.go:192-235 | under every sequence of calls and readings nothing is stamped after the logical clock, which never lags behind the true one |
| WindowSpec.MonotoneClockIsExact | window.go:192-235 | on a clock that never goes back the window is exactly the outcomes of the last `capacity` true seconds |
| WindowSpec.ClockExactIffMonotone | window.go:195-214 | the ring always stands at the second of the last call if and only if the clock never goes back |
| WindowSpec.LaggingClockRunsAway | window.go:200-213 | a ring ahead of the clock moves one second with each call |
| WindowSpec.LaggingWindowCountsCalls | window.go:200-213 | while every reading is behind the ring, the time window counts calls: it holds exactly what the last `capacity` calls recorded, updates or not, whenever they come |
| WindowSpec.ContentsExactIff | window.go:192-235 | for given readings of the clock the window holds exactly the last `capacity` seconds, after every call and whatever the outcomes, if and only if ring and clock agree for every two readings on whether the earlier one is in the window |
| TimeWindow.TimeWindowMetric.constructor | window.go:167-186 | a new ring is the empty log, its buckets the consecutive seconds up to now |
| TimeWindow.TimeWindowMetric.SlideOneStep | window.go:203-207 | one iteration resets the slot after the end and takes its counts off the total |
| TimeWindow.TimeWindowMetric.MoveWindowToCurrentSecond | window.go:192-216 | the loop takes the ring to the logical clock for every reading, visits at most `capacity` slots one after the other and so none twice, and keeps total and buckets in step with the log |
| TimeWindow.TimeWindowMetric.Update | window.go:218-226 | the ring refines the log, and the snapshot counts the outcomes of the window |
| TimeWindow.TimeWindowMetric.GetSnapshot | window.go:228-235 | the snapshot counts the outcomes of the slid window |
| TimeWindow.TimeWindowMetric.TotalIsBucketSum | window.go:157-186 | the running total is the sum of all buckets, component by component |
| CountWindow.CountWindowMetric.constructor | window.go:122-133 | a new ring is the empty log |
| CountWindow.CountWindowMetric.MoveForwardOneStep | window.go:99-105 | the oldest outcome leaves the ring and the total |
| CountWindow.CountWindowMetric.Update | window.go:107-114 | the total counts exactly the last `capacity` outcomes |
| CountWindow.CountWindowMetric.SlotsHoldOneOutcome | window.go:89-133 | no slot ever holds more than one outcome |
| Config.IsValidConfig | config.go:85-119 | each complaint is made if and only if its field is out of range, and there is none if and only if a configuration is given and in range |
| Config.FillDefaultsAndGetSetting | config.go:160-211 | the assignments yield the filled configuration and the checkers of the two checks |
| Config.FilledIsUsable | config.go:85-119 | a valid configuration fills to positive ring sizes and thresholds in 1..100 for every enabled checker, and never to the blank one |
| Config.FillIsIdempotent | config.go:160-204 | filling a filled configuration changes nothing, and keeps it valid |
| Config.CheckersAre | config.go:166-179 | the checkers are those of the enabled checks, the error check being on if its threshold is positive, or is not given and no timeout check is |
| Config.FilledAsDocumented | config.go:160-204 | a field that is given is kept and one that is not has the documented default |
| Config.SameFillSameCheckersIff | config.go:160-211 | two configurations that fill alike have the same checkers if and only if they agree on the error check |
| Config.DisabledCheckFillsLikeDefault | config.go:166-179 | a disabled error check fills like the default one |
| Config.FirstExceededIsReal | config.go:128-135 | some checker fires if and only if the loop says so, and the reason given is that of a checker that fires |
| Config.ThresholdsExceedIff | config.go:128-135 | a non-empty window exceeds the thresholds if and only if its share of bad calls reaches an enabled one, bar the three missed shares, and the reason names a threshold that is reached |
| Config.TimeoutAsDocumentedIff | config.go:137-142 | the timeout test agrees with "greater than the threshold" if and only if the duration is not the threshold itself |
| Config.ErrorShareIsNamedFirst | config.go:128-135 | the reason given is the error share whenever that is enabled and trips |
| Config.EqualShareCanBeMissed | config.go:19-23 | 29 errors in 100 calls do not exceed 29 percent |
| LimiterSpec.FitsIsLongestPrefix | concurrency_limiter.go:144-171 | a prefix of the queue fits in the free tokens if and only if it is no longer than the one let through |
| LimiterSpec.NotifyKeeps | concurrency_limiter.go:144-171 | letting waiters through keeps the limiter's invariant, gives no tokens to anybody else, and leaves nobody at the front who would fit |
| LimiterSpec.TryAcquireKeeps | concurrency_limiter.go:60-86 | the first locked section keeps the invariant, and takes the weight if and only if it grants it |
| LimiterSpec.ResumeKeeps | concurrency_limiter.go:108-109 | a waiter that sees its channel closed holds its weight and is listed no more |
| LimiterSpec.ExpireKeeps | concurrency_limiter.go:90-107 | the race of timeout and grant ends either with the tokens, if they were granted, or off the queue with nothing charged |
| LimiterSpec.DeniedAcquireLeaves | concurrency_limiter.go:52-79 | an acquisition denied at once changes neither count nor lists, and the uncapped count if and only if its weight is not zero |
| LimiterSpec.ExpiredAcquireLeaves | concurrency_limiter.go:90-107 | an acquisition that waited in vain only leaves the queue, if and only if it was not at the front or the next one does not fit |
| LimiterSpec.ReleaseKeeps | concurrency_limiter.go:113-129 | a release keeps the invariant and wakes every waiter that fits, also when the count is clamped |
| LimiterSpec.NoBarging | concurrency_limiter.go:62-66 | whoever got tokens arrived before everybody who still waits |
| LimiterSpec.QueueMeansTaken | concurrency_limiter.go:62-86 | somebody waits only while tokens are taken |
| ConcurrencyLimiter.WeightedSemaphore.CountAttempt | concurrency_limiter.go:57-58 | the uncapped count is raised before the outcome is known |
| ConcurrencyLimiter.WeightedSemaphore.AcquireSection | concurrency_limiter.go:60-86 | refines TryAcquire: granted if and only if the weight is free and nobody waits, denied if and only if it is not and is too large or may not wait, queued otherwise |
| ConcurrencyLimiter.WeightedSemaphore.ExpireSection | concurrency_limiter.go:90-107 | refines Expire: a granted waiter keeps its tokens, any other leaves, and the next are woken if it was the first |
| ConcurrencyLimiter.WeightedSemaphore.ReleaseSection | concurrency_limiter.go:116-128 | refines Release with its clamp |
| ConcurrencyLimiter.WeightedSemaphore.NotifyWaiters | concurrency_limiter.go:144-171 | the loop lets through exactly the longest prefix that fits, in order |
| StateSpec.DecisionsAreValid | constant.go:78-91 | every decision an instance takes is an allowed automatic transition |
| StateSpec.ClosedTripsIff | state.go:104-116 | a Closed instance decides to open if and only if its window has enough calls and a bad share reaches an enabled threshold |
| StateSpec.SemiOpenDecides | state.go:218-232 | a SemiOpen instance decides if and only if its probes reach MinimumNumberOfCalls or NumberOfCallsInSemiOpenState, then opens if and only if they are bad, for the reason that holds, and closes otherwise |
| StateSpec.OpensBelowMinimumIff | state.go:218-232 | below the minimum number of calls only a SemiOpen instance decides to open, if and only if it has all the probes it allows and a bad share |
| StateInstance.StateInstance.constructor | state.go:311-326 | a new instance of each kind, with fresh windows of its own |
| StateInstance.StateInstance.AcquirePermission | state.go:181-191 | refines AcquirePermission for all five kinds; a permission is given if and only if the kind is Closed or ForcedClosed, or SemiOpen with fewer counted than it allows |
| StateInstance.StateInstance.ReleasePermission | state.go:192-196 | refines ReleasePermission, with the wrap-around of the unsigned counter |
| StateInstance.StateInstance.OnResult | state.go:197-214 | onError and onSuccess record in Closed, SemiOpen and ForcedClosed, only look in the others, and return the snapshot of the window; which outcome that is, is RecordInNumbers |
| StateInstance.StateInstance.DecisionAtStart | state.go:149-160 | receives the tick of an Open instance if there is one, and only once |
| StateInstance.StateInstance.DecisionAtEnd | state.go:104-116 | refines EndDecision for all five kinds; a SemiOpen instance decides if and only if the snapshot reaches one of its two numbers of calls |
| StateInstance.StateInstance.CheckThresholds | config.go:128-135 | the loop returns the verdict of the first checker that fires |
| BreakerSteps.StepKeepsInvariant | cb.go:98-302 | every step of every request, operator, timer and update keeps the invariant |
| BreakerSteps.StartSatisfiesInvariant | cb.go:41-81 | a new breaker satisfies it |
| BreakerSteps.ReachableSatisfiesInvariant | cb.go:98-302 | so does every world that any interleaving leads to |
| BreakerSteps.StepIsLocal | cb.go:98-137 | a step changes at most one request and reports only one that finishes |
| BreakerSteps.DecideKeeps | entry.go:56-58 | once a decider has taken its step, the instance it decided on is not current |
| Safety.ProbesAreExact | state.go:162-214 | the permissions counted are those in use plus the outcomes recorded, never above the threshold, and the ring never evicts a probe |
| Safety.PermissionNeverUnderflows | state.go:192-196 | the unsigned counter never wraps around |
| Safety.NeverStuckSemiOpen | state.go:181-232 | in SEMI_OPEN with probes that reach either number of calls some request is about to leave the state, and with all permissions used some holder is on its way |
| Safety.CapturesOneGeneration | cb.go:102-136 | state, setting and limiter of a request come from one configuration generation, also after it has won Open to SemiOpen |
| Safety.TokensAreConserved | concurrency_limiter.go:57-129 | the count is within its bounds and at most what is held or granted, equal to it if no call was admitted without tokens; the uncapped count is attempts minus releases |
| Conservation.GapMovesByLoss | concurrency_limiter.go:57-129 | from any books every step changes the gap between what is held and what is counted by exactly what it takes beyond what its request held |
| Conservation.GapMovesByLossAlong | concurrency_limiter.go:57-129 | along every run the gap changes by exactly the sum of these losses |
| Conservation.LimitExceededIff | concurrency_limiter.go:57-129 | after any run from exact books the calls with tokens exceed the limiter's size if and only if more was lost than is free, and never by more than was lost |
| Conservation.ClampedIff | concurrency_limiter.go:117-125 | after any run from exact books a release is clamped if and only if more was lost than is held beyond its weight, for a call that holds tokens by the others, or has been granted |
| Conservation.InFlightIsBounded | cb.go:63-75 | after any run of a new breaker all calls with tokens, over all configuration generations, weigh at most the sizes of the limiters that have some plus what the run has lost on these, and exceed the configured limit if and only if the earlier ones, plus the run's loss on the present limiter, weigh more than what that has left |
| Conservation.GapIsLoss | concurrency_limiter.go:57-129 | on every limiter of a run of a new breaker, also those made on the way, the gap is what the run has lost on it |
| Conservation.FirstBooksAreExact | cb.go:41-58 | the books of a new breaker are exact |
| Conservation.StaysExactIff | concurrency_limiter.go:57-129 | any step keeps exact books exact if and only if it is not the release of a call without tokens whose weight and the count are positive |
| Conservation.RunStaysExact | concurrency_limiter.go:57-129 | along a run without such a release the books stay exact and the running calls of the limiter within its size |
| Conservation.NewBooksAreExact | cb.go:72-75 | the books of a new limiter are exact |
| Conservation.ClampIsUnreachable | concurrency_limiter.go:117-125 | while the books are exact, no call that holds tokens releases more than is counted |
| Conservation.ReportedCountMeans | concurrency_limiter.go:131-142 | the concurrent calls in a report are at most the limit and the tokens held or granted, equal to them while the books are exact; in the forced states they are all attempts not yet released; a disabled limiter reports none |
| Safety.NoLostWakeup | concurrency_limiter.go:62-172 | nobody queues for more than the size, and a standing queue has a front that does not fit or a full count, tokens taken, and somebody who will release some or who has just been let through |
| Safety.FirstInFirstOut | concurrency_limiter.go:62-172 | grants were made in order of arrival, all before everybody who still waits |
| Safety.WaitersAreListedOnce | concurrency_limiter.go:81-110 | each waiting request is listed once, with its weight, and nobody else is |
| Safety.TickIsNeverLost | state.go:118-160 | the tick of the current Open instance is to come, buffered, or held by a request about to install SemiOpen |
| Safety.OneWinnerInTime | state.go:149-160 | at most one request wins an Open instance, and none before its waiting time is over |
| Safety.TransitionsAreLegal | cb.go:266-302 | automatic transitions stay in the allowed graph and in one generation; forced states are left only by an operator or a changing update |
| Safety.TripsAreJustified | state.go:104-116 | a Closed instance was left automatically only because of an update after which, with the ring at the second of the outcome recorded, its window had enough calls and reached the threshold of the recorded reason |
| Safety.ProbeVerdictsAreJustified | state.go:218-232 | a SemiOpen instance was left automatically only with probes that reach either number of calls, and for Open if and only if, among all it had recorded, the share of bad ones reached a threshold |
| Safety.StaleDecisionsDoNothing | cb.go:270-273 | a request that ends on an instance the breaker has left does not change the breaker |
| Safety.RequestsAreAccountedFor | entry.go:49-63 | every finished request is reported exactly once, and every instance has recorded exactly the requests that finished with it, Open and ForcedOpen none |
| Safety.ReportedAsRejectionIff | cb.go:215-237 | the outcome is a rejection if and only if the run error is one of the breaker's own |
| StepLaws.NewInstIsFresh | state.go:68-172 | an instance of each kind starts with an empty window of its configured size, no permission counted and a timer still to fire |
| StepLaws.StartsClosed | cb.go:41-58 | a new breaker is closed, with nothing recorded and an unused limiter of the configured size and waiting time |
| StepLaws.EnterTakesTheNewest | cb.go:102-106 | a request captures the newest instance, limiter and setting and changes nothing else |
| StepLaws.StartTakesTickIff | state.go:149-160 | a request starts with a transition, and takes the tick, if and only if it captured an Open instance with a tick in its channel |
| StepLaws.TickComesIff | state.go:118-125 | the tick of an Open instance can come if and only if it has not yet and the configured waiting time is over |
| StepLaws.WinnerGoesOn | cb.go:110-112 | a request that took the tick of the current instance goes on with the fresh SemiOpen one it installs; of any other it keeps its instance and leaves the breaker alone |
| StepLaws.OpenRecovers | cb.go:98-119 | once the waiting time is over and the tick has come, the next request moves the breaker from OPEN to SEMI_OPEN and gets the first permission there |
| StepLaws.PermissionGrantedIff | state.go:181-191 | a SemiOpen instance admits a request if and only if the probes under way and recorded are fewer than it allows; Closed and ForcedClosed admit all, Open and ForcedOpen none, each kind with its own error |
| StepLaws.TokensTakenIff | concurrency_limiter.go:57-86 | a call gets tokens at once if and only if its weight is free and nobody waits, waits if and only if it may and could ever be served, and otherwise is refused, or goes on without where concurrency is not checked |
| StepLaws.WaitEndsWithTokensIff | concurrency_limiter.go:88-110 | a wait ends with tokens if and only if the waiter was let through, even if its time is up; otherwise it is refused, or goes on without where concurrency is not checked |
| StepLaws.OperatorsMove | cb.go:172-184 | force and reset install a fresh instance of the state asked for, whatever the state is, slide the old window, and leave requests and limiters alone |
| StepLaws.DeciderMovesIff | cb.go:266-302 | a decision installs a fresh instance of the state decided upon if and only if it was taken on the current one |
| StepLaws.AutomaticTransitions | constant.go:78-91 | the automatic transitions are Closed to Open, Open to SemiOpen, and SemiOpen to Closed or Open |
| StepLaws.GlanceMovesTheRing | window.go:228-240 | looking at a window moves its ring to the present, or on by one second, and forgets nothing else |
| StepLaws.RejectedReportLooks | cb.go:115-117 | reporting a rejection slides the window of the instance and tells the listener the rejection and the count |
| StepLaws.OutcomeNames | cb.go:215-237 | each of the eight outcomes is reported for exactly one combination of error and timeout |
| Recorded.RecordInNumbers | state.go:83-100 | recording adds to the slid window one call, one error if and only if it failed, one timeout if and only if it timed out; in Open and ForcedOpen nothing |
| Recorded.CallAfter | entry.go:37-58 | only the end of a request puts a call on record, once, with its run error and whether it took too long |
| Recorded.LogsAfter | entry.go:49-54 | a step writes to no log but that of the instance of the request that ends, and there exactly its outcome |
| Recorded.LogsAreTheCalls | entry.go:37-65 | in every reachable world each instance has recorded exactly the calls that ended on it, as many in all, with an error, and timed out, and each request reports the outcome of its own call |
| Recorded.ProbesAreTheCalls | state.go:197-232 | what a SemiOpen instance decides on are exactly the numbers of calls, errors and timeouts that ended on it |
| Runs.HistoryOnlyGrows | cb.go:266-302 | along every run an instance is left at most once and never becomes current again, and no report, grant or recorded outcome is taken back |
| Runs.StepTakesAnEdge | cb.go:98-161 | a request moves only along the edges of its life, with the limiter and setting it captured, and how its call ended is written once |
| Runs.FateIsSealed | cb.go:114-126 | a request that was turned away never runs, one that was admitted is never turned away |
| Runs.DecisionsStand | entry.go:56-58 | a decision is carried out by the request that took it, whatever else happens |
| Runs.AlwaysAStep | cb.go:98-161 | a request that is not done always has an enabled step of its own, whatever the others do |
| Runs.OwnStepsAreBounded | cb.go:98-161 | however steps are interleaved, at most eleven of its own finish a request |
| Runs.CanAlwaysFinish | cb.go:98-161 | from every such world a request can be finished by its own steps alone, at most eleven |
| Runs.UnhealthyWindowTrips | entry.go:49-58 | after an outcome that makes a Closed window bad enough, in every run the request still has to act or the breaker has left the instance |
| Runs.UpdateTakesEffect | cb.go:63-96 | after a valid update the configuration is the filled one; the breaker changes if and only if that one is new, and then has a fresh Closed state and a fresh limiter |
| Runs.UpdateChecksIff | cb.go:67-70 | the new checks come into force if and only if the filled configuration differs or asks for the same checks |
| Runs.ForcedStateLeftIff | cb.go:266-302 | a step leaves a forced state if and only if it is a forced transition, a reset, or an update that changes the filled configuration |
| OverAdmission.LimitIsPerGeneration | cb.go:63-75 | a reachable world of a breaker limited to one call in which two calls hold tokens and the books of both limiters are exact |
| OverAdmission.ClampCanBeReached | concurrency_limiter.go:118-125 | a reachable world in which a call that holds tokens releases more than is counted |
| OverAdmission.LimitCanBeExceeded | cb.go:120-136 | a reachable world in which two calls hold tokens of a limiter of size one |
| CircuitBreaker.CircuitBreaker.constructor | cb.go:41-58 | a new breaker couples its objects to a starting world |
| CircuitBreaker.CircuitBreaker.EnterSection | cb.go:102-106 | the three fields are read together: the step Enter |
| CircuitBreaker.CircuitBreaker.CheckStartSection | cb.go:110 | the step CheckStart on the objects |
| CircuitBreaker.CircuitBreaker.StateTransition | cb.go:266-302 | refines Transition: comparing objects is comparing positions, a request that goes ahead gets the fresh instance of the kind asked for, and a stale or illegal one its own instance back |
| CircuitBreaker.CircuitBreaker.TakeOver | cb.go:280-301 | the old window is slid and a fresh instance of the current setting takes over |
| CircuitBreaker.CircuitBreaker.WinSection | cb.go:111 | the step Win; the caller of the current Open instance goes on with the new SemiOpen one, any other with its own |
| CircuitBreaker.CircuitBreaker.AskPermissionSection | cb.go:114 | the step AskPermission on the objects |
| CircuitBreaker.CircuitBreaker.TakeTokensSection | cb.go:120-121 | the step TakeTokens; a refusal counts only where concurrency is checked |
| CircuitBreaker.CircuitBreaker.GiveUpSection | concurrency_limiter.go:90-107 | the step GiveUp on the objects |
| CircuitBreaker.CircuitBreaker.ReturnPermissionSection | cb.go:123 | the step ReturnPermission on the objects |
| CircuitBreaker.CircuitBreaker.RecordOutcomeSection | entry.go:44-56 | the step RecordOutcome, with the timeout test and the decision on the returned snapshot |
| CircuitBreaker.CircuitBreaker.DecideSection | entry.go:57 | the step Decide on the objects |
| CircuitBreaker.CircuitBreaker.OnRequestComplete | cb.go:211-256 | tells the listener the outcome that belongs to the error |
| CircuitBreaker.CircuitBreaker.ReportRejectedSection | cb.go:115-117 | the step ReportRejected, which slides the window of the instance and reports the concurrent calls of its limiter |
| CircuitBreaker.CircuitBreaker.ReportDoneSection | entry.go:60-63 | the step ReportDone on the objects, with the concurrent calls of the limiter |
| CircuitBreaker.CircuitBreaker.ForceClose | cb.go:172-174 | the step Force to ForcedClosed, from any state |
| CircuitBreaker.CircuitBreaker.ResetBreaker | cb.go:182-184 | the step Reset, from any state |
| CircuitBreaker.CircuitBreaker.UpdateSetting | cb.go:63-81 | the step Update, after which the configuration is the filled one |
| CircuitBreaker.CircuitBreaker.UpdateConfig | cb.go:86-96 | an invalid configuration is refused and changes nothing |
| Calls.OthersLeaveItAlone | cb.go:98-137 | steps of others, any number of them, leave a request as it is |
| Calls.AcquireTokens | concurrency_limiter.go:57-111 | the sections of acquire under interference: a call goes on with tokens, or without them only where concurrency is not checked |
| Calls.EnterWithFallback | cb.go:98-137 | under interference by others a call ends with an entry for a running request, or turned away, reported with its error, and with the error of the fallback |
| Calls.HandBack | cb.go:121-126 | a request without tokens runs its fallback, hands its permission back, and is reported, under interference by others |
| Calls.Entry.Exit | entry.go:31-35 | the first call finishes the request with its run error and timeout on record and the outcome of these reported; a later one changes nothing |
| Calls.Entry.ExitWithFallback | entry.go:37-65 | release, record, decide and report, in this order, end in a finished request whose outcome belongs to its run error |
| Calls.Protect | cb.go:140-161 | the protected function is called exactly once, while the request runs, if the request is admitted, and never otherwise; the caller gets its error, that of the breaker, or that of the fallback |
| Registry.NewBreaker | cb.go:41-58 | no configuration means the default one, an invalid one no breaker |
| Registry.NamesAreUnique | circuitbreaker.go:20-34 | no breaker is registered under two names |
| Registry.Registry.Get | circuitbreaker.go:14-35 | a registered name gives the registered breaker whatever the configuration, a name of white space only is never registered, and among racing callers all get the one that was stored |
| Registry.Registry.CheckAll | circuitbreaker.go:114-124 | the first pass complains if and only if some entry is unknown or invalid, and about such an entry |
| Registry.Registry.UpdateConfigs | circuitbreaker.go:109-135 | with an error no breaker changes; without one each named breaker takes exactly its own update and the others do not change, in whatever order the map is gone through |

## Left out

- Metrics, event accessors and String methods: output only. Completion events are kept as a list of reports.
- Real timers, the cached clock and the mock clock: readings are arbitrary inputs, and a timer is a one-shot that may fire once its time has come, or later.
- Option pooling and option interfaces: weight and fallback are parameters.
- Mutexes, channels, contexts and `sync.Map`: a locked region or an atomic operation is one atomic section, a closed channel is a place on the list of granted waiters, a context that is done is a choice of the scheduler.
- Panics in run, fallback or listener code, listeners that call back into the breaker, and callers that never call Exit: a request always has a step to take and few of them, but that the scheduler lets it take them is not claimed.
- 64-bit overflow and the truncation of configured sizes to 32 bits: integers are unbounded, except for the permission counter, whose wrap-around is modelled and shown not to happen.
- The texts of validation errors: each complaint is an element of a list.
- The five state types are one class with a kind, and the disabled limiter is one whose size is not positive; the methods branch where the source dispatches.
- Counters and buckets are values in the slots of an array, so aliasing between slots is not modelled.
- Reading the old window inside StateTransition and installing the new state are one step, as the breaker's lock is held; a request that records into the old window in between is placed before or after.
- The snapshot, the concurrent count and the report of a request are one step: in the source others may move between them, which changes what is shown but not what is kept.
- The registry calls ForceOpen, ForceClose, Reset and UpdateConfig by name: a lookup and a call of the method of that name.
- Outcomes.PercentReaches: for counts up to 2^44, about five hundred years of a thousand calls a second; so are the properties that rest on it.
- Calls.Interleave: has an empty body, as only its contract matters; it says what others may do to a call, not what they do to each other.
