# Verification of the Prometheus compliance suites

This project models the parts of the Prometheus compliance repository that decide whether a piece of
software under test is compliant, and proves what those decisions mean. It is written in Dafny 4.11;
`dafny verify dfyconfig.toml` checks all of it.

## What is modelled

**Receiving alerts** (`ExpectedAlert`, `Reception`, `StepLaws`, `ServerState`, `AlertServer`, `Conservation`,
`Verdict`, `MatchOrder`, `ForwardOrder`, `Resends`). The alert receiver keeps a queue of expected alerts for each label set.
Requests and a periodic cleanup move each expectation to matched, missed, ignored or still pending, and after a match
the next resends are expected relative to it. `Reception.Step` says what one request or one cleanup does to a single
label set. The class `AlertsServer` is the code with its maps and loops; its handler is proved to take exactly that
step on every label set at once. The properties of whole runs are proved about `Reception.Run`.

**The tables of expected alerts** (`CaseLabels`, `CaseTables`) of the four test cases, built by the same loops, and
what the receiver relies on in them. `CaseRows` has every row of every table in seconds and words.

**The verdict of the suite** (`TestSuite`): four loops that decide about rule groups and remove them in any
interleaving, and the final answer. `RunSuite` puts tables, receiver, loops and answer together. `SuiteRuns` applies
the theorems about the receiver to the suite's own tables.

**Senders** that follow the alert generator specification, from the evaluations that saw their samples to the records
of the receiver. `Hits` and `Notifications` say what one alert does to a queue that was rescheduled, `NotificationRuns`
what any run of notifications does to a table of blocks. `Sender` has the conditions and payloads of the specification
and when exactly they satisfy the receiver; `SenderRuns` derives what is sent from the samples of each case, puts all
label sets together and goes on to the verdict; `SenderShows` proves that each notification carries what its alert
showed when it was sent, as the templates expand it; `SenderExamples` holds four concrete runs.

**Judging alert states** (`LabelOrder`, `AlertCompare`, `SampleNotation`, `CaseSamples`, `Automaton`,
`StateOracle`). `Automaton` is the pending, firing and inactive behaviour of the alert generator specification on an
evaluation grid of any phase, with samples that arrive at any time within 10 seconds. `StateOracle` proves what the
checks of all four cases accept of what such a generator can list, and `StateWindows` the other direction: exactly when
each listing can be seen, exactly when it is accepted, and that what is accepted can be seen within a second.

**Remote-write requests** (`SymbolTable`, `RequestPlan`, `ExemplarPlacing`, `RequestWire`, `RequestContents`,
`GenerateRequest`): distributing exemplars and metadata over series, interning labels, the functions that decode and
check them, and what a request says in the terms of its options. Symbol tables follow the Prometheus
Remote-Write 2.0 specification, `symbols` field of `io.prometheus.write.v2.Request`.

**Smaller pieces**: the batching sample writer (`RemoteWriter`), query variants through a shared map (`Variants`),
query time tweaks (`QueryTweaks`), the scrape recorder and replayer (`ScrapeTest`, `UnixTime`).

## How the source is read

- Instants and durations are integers in nanoseconds; Go's zero time is instant 0. Timestamps of the checks are
  milliseconds, as in the source. The current time is a parameter of every operation that asks for it.
- Label sets are their own map keys: the string form of a label set is taken to be injective, and so is that of a
  series key. A missing `rulegroup` label reads as the empty string, as it does in the source.
- A request, a cleanup and a removal of groups are atomic steps. The cleanup is started without the mutex that
  requests take (`alert_generator/server.go:322`), so atomicity is an assumption there.
- Maps are iterated in an arbitrary order everywhere; no result depends on it.
- `sort.Slice` is an insertion sort. Where the source passes "not above" as "below" (`cases/utils.go:146-151`) so does
  the model; the results about comparing alerts do not depend on the order of alerts with equal label sets.
- Numbers in sample notation and sample values are exact reals.
- Whether a generator URL parses is an input. Rendering a query template is a function parameter.
- In the state proofs a rule looks at the latest sample that was delivered, each series is delivered on its own,
  and the observation is of the state at the given timestamp.
- In the model of the sender a firing alert is said to end four resend delays after the evaluation that sends it,
  as the code expects (`cases/expected_alert.go:80-97`), or with `fixedEnd`, after it started to fire, as the
  specification is worded. A notification takes up to the round trip of 5 seconds that the code allows for. A change of
  annotations is not a reason to send; the next resend has the new ones.

## Where code and documentation differ, or a property needs a condition

- Match order holds for every clock that does not run backwards. With one that does, it can break only behind an
  arrival at the very deadline of a queued expectation, which is then neither overdue nor due
  (`MatchOrder.LeftBehindExactly`, `ForwardOrder.RunRising`); it can still break after a match exactly when a first
  notification was at its deadline (`ForwardOrder.BreakableExactly`, `SuiteRuns.ClockBackBreaksOrder`).
- The second half of the EndsAt test in `Matches` can never reject what the first half accepts
  (`ExpectedAlert.MatchesExactly`).
- The specification says that a firing alert ends relative to when it started to fire
  (`specification.md:271-273`); the code expects it relative to the arrival. A sender that takes the specification
  literally is always blamed from its second notification on (`Sender.EndsAtOfStart`, `SenderRuns.SuiteFixedEnd`).
- A sender with the end the code expects can be blamed at reception too. `Sender.CleanExactly` says exactly when its
  records are clean, at any moment; when the test of its case is over that is whether all its notifications were in time
  (`SenderRuns.SuiteSenderAtEnd`). This holds for each of the six label sets that are ever sent, and all together
  decide when a conforming generator gets a "yes" (`SenderRuns.ConformingGetsYes`). In time means `Sender.InTime`:
  - The windows for `StartsAt`, and for `EndsAt` of resolved resends, leave 30 seconds for what may take 40
    (`SenderExamples.SlowIsBlamed`).
  - A resend that arrives 55 seconds after the one before, or less, is not due yet.
  - A firing alert that is sent once more after a match moved the rest of its block past the next state finds these
    expectations ignored. The same happens where the annotations change (`SenderExamples.ChangeIsBlamed`).
  - When the rest of a block was moved to the very instant of the next state, it is not ignored then, and the first
    notification for the next block leaves it behind as missed.
  - An alert that is active again more than 5 minutes after it resolved has a sixth resolved notification where the
    table of that case has five expectations.
- The window for variant two firing ends two minutes late, with that of variant one, and the firing windows of both
  variants open a second early (`StateOracle.OrderWindowExactly`, `StateOracle.R11WindowExactly`). Over all cases
  these two minutes, and a second at the ends of windows, are all that is accepted and cannot be seen
  (`StateWindows.OrderUnbacked`, `StateWindows.PfrBacked` and the like for the other cases); ActiveAt has a slack of
  40 seconds, a group interval and twice the round trip.
- If the two series of the zero-`for` case arrive apart, the suite blames a conforming generator exactly while one of
  its rules has seen the first firing period begin or end and the other has not (`StateOracle.ZeroAcceptedExactly`,
  `StateOracle.ApartIsBlamed`).
- A test that is stopped from outside can meet the success condition with groups still running, because
  `WasTestSuccessful` asks only whether the test was stopped (`TestSuite.StoppedEarly`); the program reports an
  interrupted run as incomplete (`cmd/alert_generator_compliance_tester/main.go:102-106`). The groups are all over
  exactly when each was decided about (`TestSuite.OverExactly`).
- Recording the zero time can make the scrape test forget its range; `ScrapeTest.HullExactly` says exactly when it does.

## Model

| member | source | states |
|---|---|---|
| ExpectedAlert.MatchesExactly | alert_generator/cases/expected_alert.go:55-114 | an alert is accepted exactly when labels and payload fit and it arrived in the open window from `Ts` to `Ts` plus tolerance plus 10 s; the second EndsAt test never rejects more than the first |
| ExpectedAlert.ShouldImpliesCanBeIgnored | alert_generator/cases/expected_alert.go:121-142 | whatever is dropped outright could also have been excused |
| ExpectedAlert.ErrorExactly | alert_generator/cases/expected_alert.go:55-114 | which of the six errors the first failing test names |
| Reception.FateExactly | alert_generator/cases/expected_alert.go:116-142 | what a look at the queue does to an expectation, in nanoseconds and for every combination of its fields; what happens exactly at the deadline, or with a state that ends at the very instant the alert is expected, included |
| StepLaws.SweptExactly | alert_generator/server.go:239-297 | a cleanup, or a request without an alert of the label set, settles exactly what is past its time, and nothing else changes |
| StepLaws.EmptyRequest | alert_generator/server.go:110-201 | a request without alerts does nothing, not even a sweep |
| StepLaws.UnexpectedExactly | alert_generator/server.go:117-128 | an alert is recorded as unexpected exactly when nothing is due |
| StepLaws.MatchesLowest | alert_generator/server.go:129-176 | otherwise it matches the expectation of lowest OrderingID among those that are due and fit |
| StepLaws.HeldAgainstLowest | alert_generator/server.go:129-152 | or when none fits, it is held against the due expectation of lowest OrderingID, with that one's error |
| AlertServer.AlertsServer.ServeHTTP | alert_generator/server.go:110-201 | a request, whatever labels it mixes and whatever order the maps are iterated in, moves every label set by exactly one `Reception.Step`: nothing crosses over between label sets |
| AlertServer.AlertsServer.MissedAlertCleanup | alert_generator/server.go:274-297 | a cleanup tick moves every label set by exactly one sweep |
| AlertServer.AlertsServer.HandleAll | alert_generator/server.go:306-326 | over any run of requests and cleanups, at any times, every label set goes through exactly its own `Reception.Run` |
| AlertServer.AlertsServer.GetPossibleAlert | alert_generator/server.go:239-272 | the due expectations of one label set are taken out of its queue, in queue order, and all queues are swept of what is ignored, excused or overdue; exactly at the deadline an expectation is neither due nor overdue |
| AlertServer.AlertsServer.SortOut | alert_generator/server.go:250-265 | one queue is parted into kept, due, missed and silently dropped, each in order |
| AlertServer.AlertsServer.FindMatch | alert_generator/server.go:129-149 | the first candidate that matches, otherwise the error of the first candidate of all |
| AlertServer.AlertsServer.SkipOver | alert_generator/server.go:154-169 | which skipped candidates count as missed: those that cannot be ignored, except resends right after an ignored resend |
| AlertServer.AlertsServer.ReceiveOne | alert_generator/server.go:117-176 | one alert of a request settles its label set as the first alert of it does, or as a duplicate, and only sweeps the others |
| AlertServer.AlertsServer.AddExpectedAlerts | alert_generator/server.go:219-237 | each queue gets its own part appended and is sorted by OrderingID; queues that got nothing stay as they are |
| AlertServer.AlertsServer.RebaseQueue | alert_generator/server.go:190-198 | the leading resends of a queue, and no others, are expected one resend delay less the round trip after the match |
| AlertServer.AlertsServer.GroupsFacingErrors | alert_generator/server.go:359-374 | exactly the groups with an error on record, none when reception is disabled; those are the groups named by the `rulegroup` label of the label sets with a missed, unexpected or mismatched alert |
| AlertServer.AlertsServer.ExpectedAlertsError | alert_generator/server.go:376-393 | for each label set exactly the queued expectations that are no resends, in order |
| Reception.FirstMatch | alert_generator/server.go:131-149 | position of the first candidate that matches; all before it do not |
| Conservation.RunConserves | alert_generator/server.go:110-304 | over any run each expectation, as often as it was queued, is in exactly one of still queued, matched, missed, dropped |
| Conservation.RunAccounts | alert_generator/server.go:117-175 | over any run each received alert is recorded exactly once: as a match, as unexpected, or as one matching error |
| Verdict.RunJustified | alert_generator/server.go:117-176 | in every reachable state only what could be ignored, or is a resend, was dropped; only what could not be ignored counts as missed; matches match; the label and lateness errors never occur |
| Verdict.SkippedExactly | alert_generator/server.go:154-169 | exactly which expectations skipped over by a match are forgiven: those that can be ignored, and resends behind an ignorable resend with only resends between |
| Verdict.CleanMeansMatched | alert_generator/server.go:359-393 | when a label set ends clean, every first notification was matched as often as it was expected, unless it could be ignored; every arrival was a match |
| MatchOrder.RunInOrder | alert_generator/server.go:117-199 | over any run in which no alert arrives exactly at a queued deadline, the matched OrderingIDs strictly increase, whatever the clock does |
| MatchOrder.LeftBehindExactly | alert_generator/server.go:254-264 | a match leaves something of lower OrderingID to be matched if and only if such an expectation was at its deadline at that instant |
| MatchOrder.RebaseScheduled | alert_generator/server.go:180-199 | rebasing keeps the schedule: a rebased resend that would overtake the next first notification has passed its own next state and is ignored from then on |
| Resends.ResendsSustained | alert_generator/server.go:180-199 | from a match on, for any number of resends and any cleanups and other requests in between, each arrival that keeps up matches the lowest-ordered resend left, with nothing missed, unexpected or mismatched |
| Resends.MatchStartsChain | alert_generator/server.go:180-199 | every match, at whatever point of whatever run, starts such a chain; the clock may even run backwards |
| SuiteRuns.SuiteResends | alert_generator/server.go:180-199 | both on the queues of the suite's own tables, for every label set |
| ForwardOrder.RunRising | alert_generator/server.go:180-199 | match order without any condition on deadlines: matches rise unless an arrival at a queued deadline is followed by one that is stamped earlier; rescheduling kills what a match left behind |
| ForwardOrder.BreakableExactly | alert_generator/server.go:254-264 | after a match some alert can still be matched out of order if and only if a first notification of lower OrderingID was at its very deadline |
| SuiteRuns.ClockBackBreaksOrder | alert_generator/server.go:254-264 | counterexample on a table of the suite, with a clock that runs back by five seconds |
| CaseTables.PfrExpectedAlerts | alert_generator/cases/case_pending_firing_resolved.go:366-493 | the loops and the running OrderingID build the five consecutive blocks of the table, whose rows `CaseRows.PfrRows` spells out |
| CaseTables.OrderExpectedAlerts | alert_generator/cases/case_new_alerts_and_order_check.go:483-621 | the loops build one label set's blocks, then two label sets' alternating blocks; the rows are those of `CaseRows.OrderRows` |
| CaseTables.ZeroExpectedAlerts | alert_generator/cases/case_zero_for_and_small_for.go:453-618 | the six loops build the blocks of two label sets, numbered on; the rows are those of `CaseRows.ZeroRows` |
| CaseRows.PfrRows | alert_generator/cases/case_pending_firing_resolved.go:366-493 | each of the 36 rows of the table in seconds and literal texts, annotations of the value of its period included |
| CaseRows.OrderRows | alert_generator/cases/case_new_alerts_and_order_check.go:483-621 | each row of the alternating table, in seconds and literal texts |
| CaseRows.ZeroRows | alert_generator/cases/case_zero_for_and_small_for.go:453-618 | each row of the table of the zero-`for` case, in seconds and literal texts |
| CaseTables.PfrGood | alert_generator/cases/case_pending_firing_resolved.go:366-493 | the queue of this table is ordered and scheduled, tolerances are at least a group interval, first notifications can never be ignored |
| CaseTables.OrderGood | alert_generator/cases/case_new_alerts_and_order_check.go:483-621 | the same for each label set of this table, although two of them are numbered alternately |
| CaseTables.ZeroGood | alert_generator/cases/case_zero_for_and_small_for.go:453-618 | the same for each label set of this table |
| CaseTables.GoodChain | alert_generator/cases/case_pending_firing_resolved.go:389-493 | any chain of blocks in which each ends, and hands over, before the next begins is such a queue |
| TestSuite.TestSuite.CheckGroups | alert_generator/testsuite.go:239-251 | an API loop decides: over for groups past their time, failed for those whose check failed, nothing for the rest |
| TestSuite.TestSuite.MonitorAlertReception | alert_generator/testsuite.go:339-351 | the reception loop decides: over for groups past their time, failed for all others with a reception error; a missed, unexpected or mismatched alert with labels of a case fails the group of that case, by its name, and a group fails only on account of an alert that names it |
| TestSuite.GroupsOfCases | alert_generator/server.go:300-304 | each label set of a case names the rule group of that case, by its name |
| TestSuite.TestSuite.RemoveGroups | alert_generator/testsuite.go:371-387 | a decision takes effect on groups that still run, and adds one error for each that failed |
| TestSuite.FirstDecisionSticks | alert_generator/testsuite.go:371-387 | under any interleaving of decisions and removals each group is in exactly one place, with the first decision about it; no other group appears |
| TestSuite.GroupExactly | alert_generator/testsuite.go:371-387 | a group runs until the first decision about it, and has that decision's error, if it is one, and no other |
| TestSuite.TestSuite.WasTestSuccessful | alert_generator/testsuite.go:427-440 | "yes" exactly when the test is over, no group failed and, with reception enabled, every label set is clean |
| TestSuite.QuietIsClean | alert_generator/testsuite.go:433-436 | no group faces an error and nothing but resends is expected, exactly when every label set is clean |
| TestSuite.ErrorIsFinal | alert_generator/testsuite.go:427-461 | once a label set has an error on record the answer of the whole run is not "yes", whatever arrives later and whatever the loops decide |
| TestSuite.AddAllExpectedAlerts | alert_generator/testsuite.go:194-201 | in whatever order the cases are initialised, each label set is queued exactly what its own table says |
| TestSuite.SuiteVerdict | alert_generator/testsuite.go:427-461 | on the suite's own tables: matches come in table order unless the clock runs back behind an arrival at a deadline, and a clean label set had every first notification matched exactly once |
| TestSuite.SuiteInOrder | alert_generator/server.go:180-199 | with a clock that does not run back the order holds for every label set, arrivals at deadlines or not |
| TestSuite.TestSuite.RunLoops | alert_generator/testsuite.go:357-405 | any interleaving of iterations, of loops that look whether all is over and then stop the suite, and of stops from outside |
| TestSuite.NoErrors | alert_generator/testsuite.go:371-387 | no group has an error exactly when no group's first decision was one |
| TestSuite.OverExactly | alert_generator/testsuite.go:389-393 | all groups are over exactly when some loop decided about each |
| TestSuite.StoppedIsOver | alert_generator/testsuite.go:357-393 | a suite that nobody stopped from outside stops only when every group was decided about |
| TestSuite.StoppedEarly | alert_generator/testsuite.go:427-440 | a run that is stopped from outside meets the success condition while its group is still running |
| TestSuite.RunSuite | alert_generator/testsuite.go:187-461 | a whole run: "yes" exactly when the suite was stopped, no group's first decision was an error and every label set is clean; then every first notification of every table was matched exactly once, and every group finished unless the suite was stopped from outside |
| AlertCompare.AreAlertsEqual | alert_generator/cases/utils.go:141-194 | never accepts lists that cannot be paired off, and accepts all that can when the expected label sets are distinct; both arrays keep their alerts |
| AlertCompare.SortedFitExactly | alert_generator/cases/utils.go:146-191 | sorting both lists and comparing by position is the same as the existence of a pairing in which labels, annotations, state and value agree and ActiveAt is in range |
| AlertCompare.SameAlertsOf | alert_generator/cases/utils.go:141-194 | permuting either list never changes the answer |
| AlertCompare.SortByLabels | alert_generator/cases/utils.go:146-151 | the in-place sort, with the comparison the code passes |
| AlertCompare.StatesEqual | alert_generator/cases/utils.go:153-174 | the first loop: labels, annotations, states and values |
| AlertCompare.ActivesInRange | alert_generator/cases/utils.go:176-191 | the second loop: ActiveAt between the expected one and interval plus 10 s later |
| AlertCompare.CheckExpectedAlerts | alert_generator/cases/utils.go:117-138 | succeeds when an alternative fits, although every attempt sorts the listed alerts again, and only then |
| SampleNotation.SampleSlice | alert_generator/cases/utils.go:53-95 | the nested loops over value and timestamp expand the notation |
| SampleNotation.TimestampsRegular | alert_generator/cases/utils.go:53-95 | as many samples as the counts add up to, the k-th at k intervals in whole milliseconds |
| SampleNotation.SamplesSplit | alert_generator/cases/utils.go:53-95 | splitting the notation anywhere equals running the second part from the state the first part reached |
| SampleNotation.SampleOf | alert_generator/cases/utils.go:66-82 | inside a run the value is the value reached before plus the increment times the position; an absolute value forgets what was before |
| SampleNotation.ReachedExactly | alert_generator/cases/utils.go:66-82 | the value reached is the last absolute value plus all increments after it, negative counts adding nothing |
| SampleNotation.DocumentedValues | alert_generator/cases/utils_test.go:12-29 | the eleven samples that the test of the notation expects |
| CaseSamples.PfrLevels | alert_generator/cases/case_pending_firing_resolved.go:92-110 | the value of each of the 150 samples, by its index |
| CaseSamples.R11Levels | alert_generator/cases/case_new_alerts_and_order_check.go:102-113 | the value of each of the 94 samples of variant one |
| CaseSamples.R12Levels | alert_generator/cases/case_new_alerts_and_order_check.go:115-125 | the value of each of the 86 samples of variant two |
| CaseSamples.ZeroLevels | alert_generator/cases/case_zero_for_and_small_for.go:112-123 | the value of each of the 107 samples |
| CaseSamples.TemplateLevels | alert_generator/cases/case_zero_for_and_small_for.go:136-150 | the samples the annotation's template queries double at the 28th |
| CaseSamples.PrLevels | alert_generator/cases/case_pending_resolved_and_always_inactive.go:99-109 | the value of each of the 20 samples |
| Automaton.ActiveSince | alert_generator/specification.md:173-197 | as long as evaluations see an episode the alert is active since the first evaluation that saw it, with the value last seen |
| Automaton.QuietBefore | alert_generator/specification.md:193-195 | an evaluation grid of 30 s and samples every 15 s: just before an episode is first seen, no earlier episode is still visible |
| Automaton.Window | alert_generator/specification.md:175-187 | active since less than 40 s after the episode's first sample; firing exactly from then plus the `for` duration rounded up to whole group intervals |
| Automaton.SeenWhen | alert_generator/cases/interface.go:39-40 | which samples the last evaluation saw bounds the time of the observation from both sides, for any phase and any delivery within 10 s |
| StateOracle.NeverPending | alert_generator/specification.md:185 | with a zero `for` duration an alert is never pending |
| StateOracle.PrStateAt | alert_generator/cases/case_pending_resolved_and_always_inactive.go:99-109 | pending exactly while samples 8 to 18 are the latest seen, resolved before it would fire |
| StateOracle.PrNoFalseAlarm | alert_generator/cases/case_pending_resolved_and_always_inactive.go:152-179 | no false alarm: what a generator that follows the specification lists is one of the alternatives, at any observation, phase and delivery |
| StateOracle.PfrNoFalseAlarm | alert_generator/cases/case_pending_firing_resolved.go:149-221 | the same for the case that becomes pending, firing and resolved twice with changing values |
| StateOracle.PfrAlternative | alert_generator/cases/case_pending_firing_resolved.go:336-364 | the windows of an active alert: its value, state and ActiveAt are among the possible ones |
| StateOracle.ZeroAcceptedExactly | alert_generator/cases/case_zero_for_and_small_for.go:186-264 | with the two series and the template series delivered independently: a conforming generator is accepted if and only if its two rules are in the first firing period together |
| StateOracle.ZeroNoFalseAlarm | alert_generator/cases/case_zero_for_and_small_for.go:186-264 | so there is no false alarm when the two series are delivered together |
| StateOracle.ZfAnnotationsAre | alert_generator/cases/case_zero_for_and_small_for.go:136-151 | which annotation the first and the second firing show, however the three template series are delivered |
| StateOracle.ApartIsBlamed | alert_generator/cases/case_zero_for_and_small_for.go:197-242 | counterexample: a conforming generator that is blamed because one series comes after one second and the other after ten |
| StateOracle.R2Follows | alert_generator/cases/case_new_alerts_and_order_check.go:90-97 | the rule on ALERTS fires exactly while variant two of the first rule fires, since that began to fire |
| StateOracle.StartsToFire | alert_generator/specification.md:183 | an alert starts to fire exactly `for` after it became active when that is a whole number of evaluations |
| StateOracle.OrderNoFalseAlarm | alert_generator/cases/case_new_alerts_and_order_check.go:174-267 | no false alarm for two series that are delivered independently, and a dependent rule |
| StateOracle.OrderPossible | alert_generator/cases/case_new_alerts_and_order_check.go:450-481 | every combination of states that can be observed is inside the windows of both series, whichever samples each has seen |
| Automaton.FiringExactly | alert_generator/specification.md:183-187 | an alert can be seen firing exactly from its `for` duration after the first sample of the episode to before the latest sight of the sample that resolves it |
| StateOracle.OrderWindowExactly | alert_generator/cases/case_new_alerts_and_order_check.go:473-476 | variant two can be firing exactly between 660 and 1015 s, and is offered as firing exactly between 659 and 1135 s |
| StateOracle.R11WindowExactly | alert_generator/cases/case_new_alerts_and_order_check.go:463-466 | variant one can be firing exactly between 300 and 1135 s, and is offered as firing from 299 s on |
| StateOracle.PfrCheckAlerts | alert_generator/cases/case_pending_firing_resolved.go:127-130 | the check succeeds exactly for the listings that fit an alternative, so for every conforming generator; the alternatives are those of `StateWindows.PfrOfferedExactly` |
| StateOracle.ZeroCheckAlerts | alert_generator/cases/case_zero_for_and_small_for.go:164-167 | the check succeeds exactly for the listings that fit an alternative, so for a conforming generator exactly when its two rules are in the first period together |
| StateOracle.OrderCheckAlerts | alert_generator/cases/case_new_alerts_and_order_check.go:152-155 | as for the first case, for independent deliveries of the two series |
| StateOracle.PrCheckAlerts | alert_generator/cases/case_pending_resolved_and_always_inactive.go:130-133 | as for the first case, with a second rule that never becomes active |
| StateWindows.PfrVisibleExactly | alert_generator/cases/case_pending_firing_resolved.go:336-364 | exactly when a generator that follows the specification can be seen with nothing, or with each state and value, in milliseconds |
| StateWindows.PfrOfferedExactly | alert_generator/cases/case_pending_firing_resolved.go:149-221 | exactly which listings the case accepts as alternatives at which millisecond: each window opens at most a second before the one in which the listing can be seen, and closes with it; nothing at all is accepted after 3610 s |
| StateWindows.PfrBacked | alert_generator/cases/case_pending_firing_resolved.go:127-130 | no missed alarm: a listing that passes is what some generator that follows the specification lists at most a second earlier or later, but for when its alert became active, and that is at most 40 s after the first sample of a period |
| StateWindows.PrVisibleExactly | alert_generator/cases/case_pending_resolved_and_always_inactive.go:254-263 | the same windows for the case that never fires |
| StateWindows.PrOfferedExactly | alert_generator/cases/case_pending_resolved_and_always_inactive.go:152-179 | exactly which listings that case accepts, and when |
| StateWindows.PrBacked | alert_generator/cases/case_pending_resolved_and_always_inactive.go:130-133 | no missed alarm, within a second, in that case |
| StateWindows.ZeroVisibleExactly | alert_generator/cases/case_zero_for_and_small_for.go:431-451 | the same windows for both rules of the zero-`for` case |
| StateWindows.ZeroOfferedExactly | alert_generator/cases/case_zero_for_and_small_for.go:186-264 | exactly which listings that case accepts, and when |
| StateWindows.ZeroBacked | alert_generator/cases/case_zero_for_and_small_for.go:164-167 | no missed alarm, within a second, in that case |
| StateWindows.OrderVisibleExactly | alert_generator/cases/case_new_alerts_and_order_check.go:450-481 | the same windows for both variants of the order case |
| StateWindows.OrderOfferedExactly | alert_generator/cases/case_new_alerts_and_order_check.go:174-267 | exactly which listings that case accepts, and when |
| StateWindows.OrderBacked | alert_generator/cases/case_new_alerts_and_order_check.go:152-155 | no missed alarm, within a second, in that case, except for the three firing alerts from 1015 s on |
| StateWindows.OrderUnbacked | alert_generator/cases/case_new_alerts_and_order_check.go:473-476 | which no generator that follows the specification lists from then on, although the case accepts them for two more minutes |
| Automaton.FiresBetween | alert_generator/specification.md:175-195 | an alert fires at exactly the evaluations from its `for` duration after the first that saw the episode to before the first that saw its end |
| Notifications.SweepStanding | alert_generator/server.go:250-265 | what a sweep does to a queue that a match has rescheduled: the rescheduled rest of a block whose next state has begun goes silently, and only an overdue first notification counts as missed |
| Notifications.GoesOnReceived | alert_generator/server.go:117-199 | a notification that goes on with a block settles its first rescheduled expectation, or is held against the sender when that is over or does not match |
| Notifications.MovesOnReceived | alert_generator/server.go:117-199 | a notification for the next block settles the first expectation of that block, passing over what is left of the block before only if that may be ignored; otherwise something is held against the sender |
| NotificationRuns.DirtyExactly | alert_generator/server.go:110-304 | over any run of notifications in turn with cleanups and other requests between them: just after one of them, something is held against the sender if and only if one so far did not fit the expectation it was meant for |
| NotificationRuns.CleanWhenFit | alert_generator/server.go:359-393 | at any moment of such a run the records are clean if and only if the last block has begun and all notifications so far fit: until then its first notification is outstanding, and from then on only resends are |
| Sender.BlamedExactly | alert_generator/specification.md:227-249 | whatever a conforming sender has sent so far, something is held against it if and only if one of those notifications was not in time: the alert fired too late, resolved too late for its resends, found its expectations over or used up, or came at or before the instant they were rescheduled to; the alert may fire any number of times and change its annotations while firing |
| Sender.CleanExactly | alert_generator/server.go:359-393 | no false alarm at reception: at any moment the records of a conforming sender are clean if and only if it has begun to say that its alert resolved for the last time, and each notification so far was in time |
| Sender.EndsAtOfStart | alert_generator/specification.md:271-273 | with an `endsAt` that is counted from the start of firing, as the specification is worded, the records are clean at no moment, and from the second notification on something is held against the sender |
| SenderRuns.SuiteSender | alert_generator/server.go:359-393 | clean at any moment if and only if it has begun to say so and all was in time, on the suite's own tables and for each of the six label sets that are ever sent |
| SenderRuns.ResolvedInTime | alert_generator/testsuite.go:339-351 | every alert has resolved for the last time, and its sender has had the time to say so, before the test of its case is over |
| SenderRuns.TestsEnd | alert_generator/cases/case_pending_resolved_and_always_inactive.go:126-128 | when the tests of the four cases are over, in seconds |
| SenderRuns.SuiteSenderAtEnd | alert_generator/testsuite.go:427-440 | when the test of its case is over and what arrived until then is handled, the records of a conforming sender are clean if and only if its notifications so far were in time |
| SenderRuns.SuiteCleanExactly | alert_generator/testsuite.go:433-436 | all label sets together: the records of the suite are clean if and only if every sender has begun to say that its alert resolved for the last time, all was in time, and nothing else was sent |
| SenderRuns.ConformingGetsYes | alert_generator/testsuite.go:427-440 | when the tests of all cases are over a conforming generator gets a "yes" exactly when the suite was stopped, no group's first decision was an error, and all its notifications were in time |
| SenderRuns.SuiteFixedEnd | alert_generator/specification.md:271-273 | for none of the label sets is a sender whose `endsAt` is counted from the start of firing ever clean |
| SenderRuns.R11Schedule | alert_generator/specification.md:227-249 | prompt samples give variant one a conforming plan |
| SenderRuns.R11Fires | alert_generator/specification.md:227-249 | and it fires at exactly the evaluations between the two ends of the plan |
| SenderRuns.R12Schedule | alert_generator/specification.md:227-249 | the plan of variant two conforms |
| SenderRuns.R12Fires | alert_generator/specification.md:227-249 | and it fires between its ends |
| SenderRuns.R2Schedule | alert_generator/specification.md:227-249 | the plan of the dependent rule conforms, whatever the samples of variant one do |
| SenderRuns.R2Fires | alert_generator/specification.md:227-249 | and it fires between its ends |
| SenderRuns.SfSchedule | alert_generator/specification.md:227-249 | the plan of the rule with the small `for` duration conforms |
| SenderRuns.SfFires | alert_generator/specification.md:227-249 | and it fires between its ends |
| SenderRuns.ZfSchedule | alert_generator/specification.md:227-249 | the plan of the zero-`for` rule, which fires in two periods, conforms |
| SenderRuns.ZfFires | alert_generator/specification.md:227-249 | and it fires in exactly those two periods |
| SenderRuns.PfrSchedule | alert_generator/specification.md:227-249 | the plan of the rule whose annotations change while it fires, and which fires again, conforms |
| SenderRuns.PfrFires | alert_generator/specification.md:227-249 | and it fires in exactly its two periods |
| SenderRuns.PfrShows | alert_generator/specification.md:261-274 | in the first of which it has the old value until an evaluation sees the new sample, and the new one from then on |
| Automaton.SomeFirst | alert_generator/specification.md:227-249 | each sample that is delivered in time has a first evaluation that sees it |
| SenderRuns.R11Reception | alert_generator/server.go:110-304 | from any phase of the evaluations and any delays of samples and notifications to the records of variant one: at any moment whether its alert has resolved for good and all was in time, at the end of the test whether all was in time |
| SenderRuns.R12Reception | alert_generator/server.go:110-304 | the same of variant two |
| SenderRuns.R2Reception | alert_generator/server.go:110-304 | the same of the dependent rule, from the samples of variant two |
| SenderRuns.SfReception | alert_generator/server.go:110-304 | the same of the rule with the small `for` duration |
| SenderRuns.ZfReception | alert_generator/server.go:110-304 | the same of the zero-`for` rule, over both its periods |
| SenderRuns.PfrReception | alert_generator/server.go:110-304 | the same of the rule that changes its annotations |
| SenderShows.PfrExpands | alert_generator/cases/case_pending_firing_resolved.go:83-86 | the annotations of the case are what its template expands to for the values 11, 15 and 19 |
| SenderShows.PfrSends | alert_generator/cases/case_pending_firing_resolved.go:366-493 | each notification while the alert fires carries its labels and the annotations of the value that the evaluation which sends it saw, each one after that those of the last value; the instants fit too |
| SenderShows.ZfExpands | alert_generator/cases/case_zero_for_and_small_for.go:86-95 | the annotations of the zero-`for` rule are what its query template expands to over the three template series |
| SenderShows.ZfSends | alert_generator/cases/case_zero_for_and_small_for.go:453-618 | each notification carries what the query template expanded to at an evaluation of its period, whenever the template's samples arrive |
| SenderShows.R11Sends | alert_generator/cases/case_new_alerts_and_order_check.go:483-621 | the notifications of variant one carry its labels and its description, by their text |
| SenderShows.R12Sends | alert_generator/cases/case_new_alerts_and_order_check.go:483-621 | the same of variant two |
| SenderShows.R2Expands | alert_generator/cases/case_new_alerts_and_order_check.go:92-97 | the description of the dependent rule names the labels of variant two |
| SenderShows.R2Sends | alert_generator/cases/case_new_alerts_and_order_check.go:483-621 | and its notifications carry it |
| SenderShows.SfSends | alert_generator/cases/case_zero_for_and_small_for.go:453-618 | the notifications of the rule with the small `for` duration carry its labels and its two texts |
| SenderExamples.SlowIsBlamed | alert_generator/cases/expected_alert.go:72-78 | counterexample: samples that take ten seconds and just miss an evaluation make variant one start 39 s late, out of the tolerance of `StartsAt`; its first notification puts an error on record |
| SenderExamples.FastIsClean | alert_generator/specification.md:227-249 | a conforming generator of variant one whose records are clean when the test of the case is over |
| SenderExamples.QuickGetsYes | alert_generator/testsuite.go:427-440 | a conforming generator of the case whose value changes that gets a "yes" at the end of its test |
| SenderExamples.ChangeIsBlamed | alert_generator/server.go:180-199 | counterexample: the new value arrives just after an evaluation that sends the old annotations once more; by then a match has moved the rest of their block past its next state, and the sixth notification puts an error on record |
| SymbolTable.ExtractLabels | remotewrite/sender/helpers_test.go:259-283 | a label has a value exactly when the last pair about it that is in range says so; dangling pairs and an odd last reference are skipped |
| SymbolTable.LabelsToExactly | remotewrite/sender/helpers_test.go:259-283 | the same of any number of pairs |
| SymbolTable.ValidateSymbolTable | remotewrite/sender/helpers_test.go:344-360 | accepts exactly tables that start with the empty string and repeat no other symbol |
| SymbolTable.ValidateLabelRefs | remotewrite/sender/helpers_test.go:362-373 | accepts exactly references in pairs, all inside the table |
| SymbolTable.IsSorted | remotewrite/sender/helpers_test.go:375-393 | accepts exactly keys that are in range and each above the previous one, byte by byte, where an empty key says nothing about the next |
| LabelOrder.LessExactly | remotewrite/sender/helpers_test.go:375-393 | one string is below another exactly when it is a proper prefix of it, or smaller where the two first differ |
| LabelOrder.BeforeExactly | alert_generator/cases/utils.go:146-151 | one label set is before another exactly when it is a proper prefix, or its first different label has the smaller name, or the same name and the smaller value |
| SymbolTable.SortedMeansUnique | remotewrite/sender/helpers_test.go:259-283 | with references in range and non-empty keys, sorted means strictly increasing, and then the labels have an entry for every pair |
| SymbolTable.LabelsKept | remotewrite/receiver/helpers_test.go:227-278 | references emitted earlier stand for the same labels after the table has grown |
| SymbolTable.Table.SymbolizeLabels | remotewrite/receiver/helpers_test.go:256-259 | for every iteration order the references decode to exactly the map |
| SymbolTable.TableIsValid | remotewrite/sender/helpers_test.go:344-360 | the table that was built passes the check of the sender tests |
| RequestPlan.EachExemplarOnce | remotewrite/receiver/helpers_test.go:252-438 | every exemplar is placed exactly once: with a sample, with a histogram, or as a leftover |
| RequestPlan.UnusedIsUnmatched | remotewrite/receiver/helpers_test.go:391-415 | an exemplar still unused in the last pass has no series: finding a match there is impossible |
| RequestPlan.AttachedFits | remotewrite/receiver/helpers_test.go:266-294 | a series takes exemplars of its own label set only, in order, at most one unless it is the last of its label set |
| RequestPlan.AttachedInOrder | remotewrite/receiver/helpers_test.go:266-294 | later series of a label set take later exemplars |
| RequestPlan.LastTakesAll | remotewrite/receiver/helpers_test.go:288-292 | the last series of a label set leaves none of its exemplars behind |
| ExemplarPlacing.SampleTakes | remotewrite/receiver/helpers_test.go:261-294 | an exemplar goes to the series of a sample exactly when both have the same number among those with these labels, or when its number is higher and the series is the last with these labels |
| ExemplarPlacing.HistogramTakes | remotewrite/receiver/helpers_test.go:320-380 | the same for histograms, when no sample has these labels; otherwise they carry none |
| RequestPlan.SafeCount | remotewrite/receiver/helpers_test.go:170-225 | when the safety checks pass there is one series for each sample and histogram, and no other |
| GenerateRequest.LabelsMatch | remotewrite/receiver/helpers_test.go:34-45 | label maps match exactly when they are equal |
| GenerateRequest.CheckSafety | remotewrite/receiver/helpers_test.go:170-225 | fails exactly where the original panics: samples beside histograms, an exemplar without a series of its labels, or metadata without a series of its metric |
| GenerateRequest.LastSeries | remotewrite/receiver/helpers_test.go:245-250 | tells for each series whether it is the last of its label set |
| GenerateRequest.CollectMetadata | remotewrite/receiver/helpers_test.go:231-243 | the last metadata of each metric name, the empty name only in unsafe requests |
| GenerateRequest.AttachExemplars | remotewrite/receiver/helpers_test.go:261-294 | the loop over the exemplars takes what the plan says and marks it as used |
| GenerateRequest.GenerateRequest | remotewrite/receiver/helpers_test.go:165-486 | the request, decoded against its final symbol table, is exactly the logical request for every iteration order; its table and references are valid; it is missing exactly where the original panics; and it tells, by `RequestContents.ContentsTold`, every sample, histogram, exemplar and metadata at its place |
| RequestContents.ContentsTold | remotewrite/receiver/helpers_test.go:252-438 | series by series what a request says: labels, the one value or histogram with a timestamp less than a millisecond before the present plus the offset, the created timestamp, the exemplars for this series with values, labels and timestamps, type, help and unit of the last metadata for the metric; then one series for each exemplar and metadata that belongs to none, and no more |
| RequestContents.AcceptableExactly | remotewrite/receiver/helpers_test.go:170-225 | what the safety checks accept, in terms of the options alone |
| RemoteWriter.RemoteWriter.AddTimeSeries | alert_generator/remote_write.go:79-86 | the series are queued in order and the sample count is kept |
| RemoteWriter.RemoteWriter.Flattened | alert_generator/remote_write.go:93-106 | all samples, shifted by the start time, sorted by time, as many as were counted |
| RemoteWriter.FlattenExactly | alert_generator/remote_write.go:93-106 | every sample of every series in its place, with the labels and the value it had and the start time added |
| RemoteWriter.RemoteWriter.WriteAll | alert_generator/remote_write.go:119-165 | the batches attempted are a prefix of the samples grouped by timestamp, all of them unless the writer is stopped or blocks on its error channel, which takes at least two failures; an error was reported exactly when a request could not be built, was refused three times or ran out of time |
| RemoteWriter.FailsExactly | alert_generator/remote_write.go:147-157 | which outcomes of a write are failures |
| RemoteWriter.RemoteWriter.TakeBatch | alert_generator/remote_write.go:134-140 | one batch is the whole stretch of equal timestamps |
| RemoteWriter.RemoteWrite | alert_generator/remote_write.go:176-185 | at most three attempts, stopping at the first success |
| RemoteWriter.RemoteWriter.Error | alert_generator/remote_write.go:187-196 | the first error taken out of the channel is kept; later ones stay in it |
| RemoteWriter.AllWritten | alert_generator/remote_write.go:93-140 | batches have strictly increasing timestamps, and every sample, shifted, is in exactly one of them |
| RemoteWriter.SeriesInOrder | alert_generator/remote_write.go:131-140 | however many batches were attempted, each series went out in strict time order if it has one sample for each timestamp |
| RemoteWriter.RemoteWriter.Start | alert_generator/remote_write.go:88-165 | a whole run, however it ends: what was attempted are the first groups of all shifted samples in time order, each series in strict order; it is cut short only when stopped or at a second write that could not be built, was refused three times or ran out of time, and otherwise every sample is in exactly one batch |
| Variants.GetVariants | promql/testcases/expand.go:83-114 | with one shared map that all levels overwrite, the result is the product of the listed values; it fails exactly when some argument has none, and leaves everything but the arguments alone |
| Variants.NoArguments | promql/testcases/expand.go:84-87 | without arguments there is one variant, the query as it is bound |
| Variants.LeftoversIrrelevant | promql/testcases/expand.go:108-111 | what earlier combinations left in the shared map never shows in a query |
| Variants.ProductLength | promql/testcases/expand.go:84-114 | as many variants as the product of the value counts, each argument counted once |
| Variants.VariantOf | promql/testcases/expand.go:84-114 | the variant at the rank of a choice of values renders exactly the bindings of that choice |
| Variants.RankIsLexicographic | promql/testcases/expand.go:84-114 | the variants come in lexicographic order of the choices |
| Variants.SomeChoice | promql/testcases/expand.go:84-114 | every variant is that of some choice of values |
| Variants.OnlyChoice | promql/testcases/expand.go:84-114 | and of only one |
| Variants.RepeatsActAsOne | promql/testcases/expand.go:96-102 | an argument named more than once acts as one |
| Variants.ReorderingPermutes | promql/testcases/expand.go:84-114 | with the arguments in another order the variants are the same ones, each as often, in another order |
| Variants.ReorderingMoves | promql/testcases/expand.go:84-114 | and the query of each choice moves to the new rank of that choice |
| QueryTweaks.ApplyQueryTweaks | promql/testcases/expand.go:116-133 | the loop over a copy of the test case applies the tweaks one after the other |
| QueryTweaks.TweakExactly | promql/testcases/expand.go:116-133 | one tweak takes each end back to a multiple of its unit, less than a unit away, then likewise to a multiple of the step if it aligns, and then moves it by the offset |
| QueryTweaks.TweakedOnce | promql/testcases/expand.go:116-133 | and nothing else comes out of it |
| QueryTweaks.ApplyNext | promql/testcases/expand.go:116-133 | the tweaks are applied one after the other, in their order |
| QueryTweaks.RangeKept | promql/testcases/expand.go:116-133 | whatever the tweaks, a range keeps its order and nothing but the range changes |
| QueryTweaks.TruncateIs | promql/testcases/expand.go:119-122 | truncating moves a time back by less than the unit, to a multiple of it |
| QueryTweaks.SpanChange | promql/testcases/expand.go:119-122 | one truncation changes the span by less than the unit |
| QueryTweaks.EndsAligned | promql/testcases/expand.go:123-126 | when nothing moves the range after its last alignment both ends are multiples of the resolution |
| ScrapeTest.ScrapeStyleTest.RecordScrape | promqle2e/promqle2e.go:173-214 | fails exactly when the span so far does not accept the time; otherwise the scrape is recorded at its time, and the fields are the span of all recorded times |
| ScrapeTest.HullExactly | promqle2e/promqle2e.go:176-197 | after any accepted scrapes min and max are exactly the range of the recorded times, at most ten hours apart, if and only if the zero time was not recorded, or last, or between times on both sides of it |
| ScrapeTest.AcceptsExactly | promqle2e/promqle2e.go:176-190 | without the zero time exactly the scrapes are accepted with which all times fit in ten hours |
| ScrapeTest.ZeroIsForgotten | promqle2e/promqle2e.go:177-190 | a run of accepted scrapes that spans twenty hours |
| ScrapeTest.ScrapeStyleTest.Expect | promqle2e/promqle2e.go:216-247 | refuses summaries and histograms; otherwise the stream of the metric ends with the value, at the current time in milliseconds rounded towards the epoch; each backend's matrix has one stream for each metric that was expected, with exactly its own values in call order, and the backend is registered by its first new stream |
| UnixTime.UnixMillisIs | promqle2e/promqle2e.go:228-231 | the timestamp of an expectation loses less than a millisecond and keeps the order of instants; it is what `Time.UnixMilli` says exactly from the Unix epoch on and for whole milliseconds |
| ScrapeTest.AppendedStream | promqle2e/promqle2e.go:233-238 | adding to an existing stream keeps the matrix what the calls say |
| ScrapeTest.ValuesExactly | promqle2e/promqle2e.go:233-238 | the values of a metric are those of the calls for it, one for each, in call order |
| ScrapeTest.ScrapeStyleTest.RegisterBackends | promqle2e/promqle2e.go:141-151 | fails exactly on a reference that is taken or named twice |
| ScrapeTest.RecordedGatherer.Gather | promqle2e/promqle2e.go:401-410 | hands out the next recording, or nothing before ingestion and after the last |
| ScrapeTest.RecordedGatherer.IngestSamples | promqle2e/promqle2e.go:463-483 | under any interleaving with scrapes the recordings are handed out in order, once each, and ingestion succeeds only when all were |

## Left out

- HTTP, JSON, YAML, protobuf and snappy, authentication, containers, process launching and all `main` functions.
- Locks and goroutines, except that steps may interleave in any order.
- The busy wait for a first write and sleeping between writes in the remote writer; how a batch is encoded.
- The latency of a GET between the timestamp of a check and the state it sees.
- `CheckRuleGroup` and `CheckMetrics`: the first needs PromQL parsing and template expansion, the second the timestamps of the ALERTS metric.
- PromQL evaluation beyond a threshold on the latest sample; the lookback of five minutes, which only concerns samples below every threshold at the end of the test cases.
- Expanding annotation templates in general: the templates of the test cases are written out with the values they show; the texts of the functions that format constants are taken from the tables.
- Parsing numbers and splitting notation strings, and the panics on malformed notation; NaN and other floating point effects; integer overflow of times.
- `validateOpts`: a chain of independent checks of the configuration.
- `areSamplesEqual` and `checkExpectedSamples`: the same comparison as for alerts, on fewer fields.
- `ExpandTestCases`: one loop around the variants and the tweaks.
- `promql/comparer`, `histogram` and `validateResponse` of the receiver helpers, the scenario tables and mock servers of the remote-write tests.
- Gathering a metrics registry and comparing query results in the scrape tests.
- The text of error messages and of the final description.
- AlertServer.AlertsServer.ServeHTTP: error records are values in a map; the source shares a pointer to each record, which it only ever appends to.
- AlertServer.AlertsServer.SkipOver: what is forgiven leaves no trace in the source; the model keeps it in a ghost variable so that conservation can be stated.
- CaseTables.PfrExpectedAlerts: the loops that differ only in their constants are one method that is called once for each.
- SymbolTable.ExtractLabels: stands for `extractExemplarLabels` too, which is the same function on an exemplar.
- SymbolTable.Table.SymbolizeLabels: references are unbounded naturals; the source has 32 bits.
- TestSuite.RunSuite: each decision of a loop is arbitrary; what the API checks answered is an input.
- TestSuite.TestSuite.CheckGroups: the three API loops share one body; fetching and parsing the response is left out, a failed fetch being an empty decision.
