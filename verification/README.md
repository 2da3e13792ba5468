# A verified model of the dispatcher and its log pipeline

The server hands queued jobs of a workflow run to runners under leases, skips jobs whose needs did
not succeed, rolls finished runs up, and carries job logs from runners to browsers.  This project
models that logic in Dafny and proves what it promises over whole runs.

The dispatcher is modelled at two grains.

- *One call at a time* (`Serial`, `SerialTheorems`, `StepHistory`).  `Service.Service` holds the
  handlers as imperative methods over the store classes.  Each is proved equal to a function on the
  database (`Handlers`), and the theorems range over every sequence of such calls from a freshly
  planned table: result, outputs, steps, run status, deadlines, stale leases.  `Statements`, `RunStatus`,
  `CallsExact` and `StartedRows` say what each statement and call leaves column by column, phase by
  phase and status by status, without using the functions the methods are proved against.
- *One SQL statement at a time* (`Interleaving`, `InterleavingTheorems`).  Any number of acquirers,
  gate scans, completions, reports, heartbeats and reaper ticks interleave between statements, each
  deciding on rows it read earlier.  Status, lease and gating claims are proved here, because ended
  rows never change status again (`Jobs.RowStatementsAge`) and so stale decisions stay true
  (`Gating.DecisionsAreStable`).  `Finishing` says which rows can be brought to an end at all,
  `RunClosing` when a run gets its final status, `StaleCalls` what the stale-lease fence is worth between
  two statements of one call, and `RecordedResults` what the result column then holds.  Every completion
  may report any of a set of results for its row, all of them included; only the claims that two
  schedules agree ask for rows with one report.

`SerialRefines` joins the two: every run of whole calls is one of the interleaved runs, whatever its
completions report.

The log pipeline is a store of chunks and subscribers (`LogStore`, `LogStream`), a machine in which
append, publish, subscribe, replay, live delivery, overflow, resync, finish, disconnect and resume
interleave freely (`LogBridge`, `LogBridgeTheorems`, `LogOrder`), the event stream as text together
with a reader for it (`SseFraming`, `SseTheorems`, `SseResume`), and the handler as an object each of
whose reads, receives and writes is one step of the machine (`SseHandler`).
`SseHandler.Handler.TextResumes` joins all of them: cut the text of a connection anywhere, and the
client resumes right after the prefix of the log it holds.

Where the code does less than its comments say, the model follows the code:

- The comment on `canonicalNeedRow` says that the choice never depends on the order of the rows; with
  no finished cell it does.  `NeedRow.OrderIndependentIffDecided` says exactly when.
- A retried `CompleteJob` rewrites result and finish time but not status.
  `SerialTheorems.ResultFollowsStatusIff` says exactly when result and status still agree, and
  `RecordedResults.ResultFollowsStatusIff` does so between statements; the claims about `needs_outputs`
  are stated for retries that repeat the same report.
- The replay-to-live bridge promises no gap and no duplicate.  For one lease that holds if and only if
  the chunks are appended in increasing seq order and published in the order appended
  (`LogOrder.DeliveredWholeIff`).  A job's log restarts at low seqs after a requeue, and an open
  connection then drops the new chunks as overlap (`LogOrder.NewLeaseIsHidden`); whatever a connection
  has passed is not written again unless the client asks from below (`LogOrder.PassedIsNeverWritten`).
- Only the first ten queued rows are looked at.  Ten rows that wait for an eleventh with a higher id
  stop a sound plan for ever (`SerialTheorems.TenWaitingRowsHideOne`), under any interleaving
  (`Finishing.TenWaitingRowsNeverFinish`).  `SerialTheorems.NeverMovesIff` says exactly when a planned
  database never moves, and `Finishing.EndsIff` exactly which rows of a plan can be ended.
- gateRun closes a run, acquire's own skip does not.  If acquire skips the last row after the last
  gate has read the run, the run stays open (`RunClosing.RunLeftOpen`); `RunClosing.ClosesIff` gives
  the exact condition.
- A completion resolves its lease and then writes by row id.  If the reaper takes the lease back in
  between, it ends the row under the next runner's lease (`StaleCalls.StaleCompletionEndsRow`) or
  writes a result into the queued row (`StaleCalls.StaleResultOnQueuedRow`), and the holder's own report
  then shows in the result column only (`StaleCalls.HolderIsOverruled`);
  `StaleCalls.FenceHoldsIff` gives the exact condition.
- Chunks are framed by splitting on LF only.  `SseTheorems.RoundTripIffCrFree` shows that the client
  gets the chunks back exactly when none of them holds a CR, and `SseResume.CutStreamResumesIff` that
  a stream can be cut and resumed anywhere exactly when besides none has the greatest 64-bit seq.
- Section 9.2.6 of the WHATWG HTML Living Standard starts every stream with an empty last event ID
  buffer, and the blank line after the `connected` comment copies that buffer.  A client that does so
  forgets its place when a reconnection is cut after that comment and before its first chunk
  (`SseResume.EmptyBufferForgets`, `SseResume.EmptyBufferResumesIff`).

Conventions: row, run, lease and runner ids are natural numbers in the order of the uuids they stand
for.  Clock readings, fresh ids and the outcome a runner reports are parameters; `clock(id)` is the
reading taken when row `id` is skipped.  Calls are already authorized and well formed.

## Model

| member | source | states |
|---|---|---|
| `Jobs.RowStatementsAge` | internal/store/job_store.go:217-291 | `TransitionStatus`, `Lease` and `SetResult` keep every row's run, yaml id, needs and `if`, and never change a terminal status, whatever arguments they get |
| `Jobs.BulkStatementsAge` | internal/store/job_store.go:254-278 | the same for `RenewLease` and `RequeueExpired` |
| `Statements.TransitionIsExact` | internal/store/job_store.go:217-232 | moves a row exactly for the ten legal pairs of statuses, from the status it has, and touches nothing else |
| `Statements.LeaseIsExact` | internal/store/job_store.go:234-252 | a queued row gets status, runner, lease and deadline, and a start time if it has none; nothing else changes |
| `Statements.RequeueIsExact` | internal/store/job_store.go:267-278 | exactly the leased rows past their deadline are queued again, without runner, lease and deadline |
| `Statements.RenewIsExact` | internal/store/job_store.go:254-265 | moves the deadline of the rows with that lease and nothing else |
| `Statements.ResultIsExact` | internal/store/job_store.go:280-291 | writes result and finish time of one row and nothing else |
| `Statements.SkipIsExact` | internal/dispatch/queue.go:218-226 | a queued row becomes skipped, with that result and time; no other row changes |
| `Statements.EndedIffNothingLeaves` | internal/dispatch/service.go:607-619 | success, failure, skipped and cancelled are the statuses that no transition leaves, and the only ones |
| `JobStore.Store.GetJob` | internal/store/job_store.go:151-159 | the row with that id, or none |
| `JobStore.Store.GetByLease` | internal/store/job_store.go:161-169 | none exactly when no row holds the lease, otherwise a row that holds it |
| `JobStore.Store.ListJobsForRun` | internal/store/job_store.go:171-192 | lists each row of the run once and nothing else, in an order left open |
| `JobStore.Store.ListQueuedJobs` | internal/store/job_store.go:194-215 | lists in ascending order exactly the queued rows preceded by fewer than `limit` queued rows |
| `JobStore.Store.TransitionStatus` | internal/store/job_store.go:217-232 | succeeds exactly on a legal transition from the row's actual status, and changes nothing otherwise |
| `JobStore.Store.Lease` | internal/store/job_store.go:234-252 | succeeds exactly on a queued row; sets runner, lease, deadline and a first start time |
| `JobStore.Store.RenewLease` | internal/store/job_store.go:254-265 | moves the deadline of the rows holding the lease and reports whether there was one |
| `JobStore.Store.RequeueExpired` | internal/store/job_store.go:267-278 | returns exactly the leased rows past their deadline to the queue, clearing lease, runner and deadline, and counts them |
| `JobStore.Store.SetResult` | internal/store/job_store.go:280-291 | writes result and finish time of an existing row whatever its status |
| `Service.RunStore.SetRunStatus` | internal/store/run_store.go:124-135 | overwrites the status of a known run and reports an unknown one |
| `Service.OutputStore.UpsertOutput` | internal/store/job_output_store.go:34-45 | the named output of the row has the last value, every other output stays |
| `Service.OutputStore.ListOutputs` | internal/store/job_output_store.go:47-68 | reads back exactly the row's output map, empty if nothing was written |
| `Service.StepStore.UpsertStep` | internal/store/step_store.go:44-62 | one row per (job, index); an existing row keeps its id and takes every other column |
| `Service.StepStore.ListStepsForJob` | internal/store/step_store.go:64-91 | lists exactly the steps stored for the job, in ascending index order |
| `Service.CarriedTimes` | internal/dispatch/service.go:383-393 | the times of the listed step with that index, none if it is not listed |
| `Snapshots.GroupJobsByJobID` | internal/dispatch/queue.go:114-120 | under each yaml id, exactly the listed rows with that id, in order |
| `Snapshots.GroupKeepsOrder` | internal/dispatch/queue.go:114-120 | each group keeps the order of the list |
| `Snapshots.NeedsSatisfied` | internal/dispatch/queue.go:89-108 | first result: every need has rows and all are terminal; second: some need row is terminal and not a success |
| `Snapshots.CheckIsExact` | internal/dispatch/queue.go:89-120 | both answers, taken on grouped rows, are the truth about the table the rows were read from |
| `Gating.DecisionsAreStable` | internal/dispatch/queue.go:386-433 | a verdict on needs, skip or run, reached on an old table holds of every later table |
| `Gating.ClosureIsClosed` | internal/dispatch/queue.go:163-199 | with the rows of `Closure` skipped, the rule asks for no further row of the run; with its definition as the intersection of all closed sets it is the least such set, for cyclic graphs too |
| `Gating.ClosureIsJustified` | internal/dispatch/queue.go:163-199 | every skipped row satisfies the rule in the final table, so no row is skipped without cause |
| `Gating.GateSettles` | internal/dispatch/queue.go:163-208 | after gating no row of the run is left to the rule, and gating again changes no row |
| `Gating.SettledIsClosure` | internal/dispatch/queue.go:163-199 | any part of the closure whose skipping leaves nothing to ask for is the whole closure: the order of the scans does not matter |
| `Gating.NoDeadlock` | internal/dispatch/queue.go:163-199 | with acyclic needs that all have rows, a gated run is finished, or a runner holds one of its rows, or one of them can be leased |
| `Gating.CyclicRunIsStuck` | internal/dispatch/queue.go:163-199 | a run with a needs cycle that gating leaves with no row ended, held or leasable; `Finishing.FinishesIff` has the exact condition |
| `Service.Service.constructor` | internal/dispatch/queue.go:281-284 | the lease time is heartbeat interval times miss limit |
| `Service.Service.SkipJob` | internal/dispatch/queue.go:218-226 | a queued row becomes skipped with its result and time; any other row is untouched and reported |
| `Service.Service.GatePass` | internal/dispatch/queue.go:166-198 | one scan, deciding on rows read at its start, skips exactly the rows the rule asked for then, and reports whether there were any |
| `Service.Service.GateRun` | internal/dispatch/queue.go:163-208 | terminates, skips exactly the least fixpoint of the rule for every needs graph and row order, then rolls the run up |
| `Service.Service.FinalizeRunIfComplete` | internal/dispatch/service.go:627-661 | sets the run's status to the roll-up exactly when all its rows are terminal |
| `Service.RollUpOfList` | internal/dispatch/service.go:633-655 | the flags computed by scanning the listed rows are the roll-up conditions over the table |
| `Service.Service.JobsByJobIDForRun` | internal/dispatch/queue.go:442-453 | a cached or fresh group map reflects the table as it was when the call began |
| `Service.Service.CheckCandidate` | internal/dispatch/queue.go:387-416 | the verdict is lease exactly for leasable rows and skip exactly for rule rows of the initial table |
| `Service.Service.AcquireOneQueuedJob` | internal/dispatch/queue.go:380-436 | leases the least leasable row if fewer than ten queued rows precede it, skips exactly the rule rows it passes, and otherwise changes nothing |
| `Service.Service.WriteOutputs` | internal/dispatch/service.go:490-494 | the row's outputs are the old ones overridden by the reported ones |
| `Service.Service.RecordResult` | internal/dispatch/service.go:472-488 | the three statements that end a row, in order; a transition that does not apply changes nothing |
| `Service.Service.CompleteJob` | internal/dispatch/service.go:441-512 | drops a stale lease, refuses a non-terminal phase, and otherwise records result, status and outputs of the holder and gates its run |
| `Service.Service.ResolveLeaseJob` | internal/dispatch/service.go:578-587 | finds the one row holding the lease, or none |
| `Service.Service.ReportStatus` | internal/dispatch/service.go:348-433 | a step report merges into its step row, a running report starts a leased job, anything else changes nothing |
| `Service.Service.RenewActiveLeases` | internal/dispatch/service.go:536-571 | in list order, renews each lease held by the pinging runner and skips every other |
| `Service.Service.ReapExpired` | internal/dispatch/queue.go:610-633 | one tick requeues the expired rows and wakes waiters exactly when there were some |
| `Service.Service.BuildNeedsOutputs` | internal/dispatch/queue.go:529-557 | an entry exactly for each need whose canonical row has a result, holding that row's result and outputs |
| `RunStatus.FinalizeIsExact` | internal/dispatch/service.go:627-661 | a known run whose rows have all ended gets failure if some row failed, success if all succeeded or were skipped, cancelled if none failed and some was cancelled; no other status changes |
| `CallsExact.GateIsExact` | internal/dispatch/queue.go:134-199 | gateRun skips a queued row of the run exactly when its needs have ended, one without success, and its `if` is absent, empty or "success()"; nothing else changes |
| `CallsExact.GateIsGrounded` | internal/dispatch/queue.go:163-199 | among any rows gateRun skips, one needs none of the others |
| `CallsExact.AcquireIsExact` | internal/dispatch/queue.go:380-436 | on any table: the first queued row that may run is leased if at most nine queued rows precede it; those before it, or in the first ten, that must be skipped are; all others stay |
| `CallsExact.CompletionIsExact` | internal/dispatch/service.go:464-502 | phase by phase: the four results are recorded in result and, for an open row, status; outputs are merged; only rows the rule skips change besides; the other three phases change nothing |
| `CallsExact.UnheldCompletesNothing` | internal/dispatch/service.go:452-459 | a completion under a lease no row holds changes nothing |
| `CallsExact.ReportIsExact` | internal/dispatch/service.go:404-433 | the holder becomes running exactly when it was leased and the phase is in progress, for step and job reports alike; every other row and column stays |
| `CallsExact.StepIsExact` | internal/dispatch/service.go:377-412 | the step row a report leaves, phase by phase, with carried times |
| `CallsExact.UnheldReportsNothing` | internal/dispatch/service.go:359-366 | a report under a lease no row holds changes nothing |
| `NeedRow.CanonicalNeedRow` | internal/dispatch/queue.go:571-600 | the loop returns the row chosen by `Canonical` |
| `NeedRow.CanonicalIsDocumented` | internal/dispatch/queue.go:559-600 | the choice is the last finished cell by (finish time, id); failing that the first with a result; failing that the first row; none for no rows |
| `NeedRow.OrderIndependentIffDecided` | internal/dispatch/queue.go:571-600 | for distinct ids, every reordering gives the same row if and only if some cell has finished, or at most one row could be chosen |
| `NeedRow.DecidedIsOrderIndependent` | internal/dispatch/queue.go:571-600 | every permutation of decided rows gives the same row |
| `NeedRow.UndecidedDepends` | internal/dispatch/queue.go:571-600 | undecided rows have a permutation with another choice |
| `Serial.AcquireWhenSettled` | internal/dispatch/queue.go:380-436 | with no rule row waiting, acquire skips nothing: it leases the one picked row or leaves the table alone |
| `Serial.HeartbeatIsExact` | internal/dispatch/service.go:536-571 | a whole ping moves the deadlines of exactly the rows it names and owns |
| `Serial.CompleteRowIsExact` | internal/dispatch/service.go:473-488 | on a held row the three statements leave a terminal status alone and turn any other into the result |
| `Serial.NextKeepsInv` | internal/dispatch/service.go:348-571 | every call keeps: lease and result columns fit the status, leases are unique and drawn, held rows may run, no rule row waits, run statuses agree |
| `SerialTheorems.RunsKeepInv` | internal/dispatch/queue.go:380-436 | that invariant holds after every sequence of calls with fresh lease ids |
| `SerialTheorems.RunStatusAgreement` | internal/dispatch/service.go:627-661 | between calls a run is terminal exactly when all its rows are, then shows their roll-up; no rule row waits, so acquire's own skip never fires |
| `SerialTheorems.RunStatusShowsRows` | internal/dispatch/service.go:627-661 | in every run of calls a run has a final status exactly when all its rows have ended, and that status shows them as the roll-up rule says |
| `SerialTheorems.RunStatusIsFinal` | internal/dispatch/service.go:627-661 | a terminal run status never changes in any continuation |
| `SerialTheorems.RunsAge` | internal/store/job_store.go:41-49 | over any continuation the plan columns and terminal statuses stay |
| `SerialTheorems.OnlyAcquireGrants` | internal/dispatch/queue.go:418-433 | a lease id becomes held only by the acquire that drew it |
| `SerialTheorems.ClearedStaysCleared` | internal/store/job_store.go:267-278 | a drawn lease id no row holds is never held again |
| `SerialTheorems.StaleLeaseFence` | internal/dispatch/service.go:348-366 | for the rest of every run, a report or completion under a cleared lease leaves the whole database as it is, and a heartbeat acts as if it did not name it |
| `SerialTheorems.DeadlineFollowsHistory` | internal/dispatch/service.go:536-571 | a held row's deadline is the time of its last grant or owner's heartbeat plus the lease time; other runners never move it |
| `SerialTheorems.TickRequeuesIff` | internal/store/job_store.go:267-278 | a tick takes a row back if and only if it is leased, not running, and that last touch is too old |
| `SerialTheorems.LeaseSurvives` | internal/dispatch/queue.go:281-284 | a lease touched in time before every tick is kept for any continuation |
| `SerialTheorems.AcquireServesIff` | internal/dispatch/queue.go:380-436 | acquire leases some row if and only if a leasable one is among the first ten queued rows |
| `SerialTheorems.SmallQueueIsServed` | internal/dispatch/queue.go:50-55 | with at most ten queued rows in the table a leasable row is always served |
| `SerialTheorems.NeverMovesIff` | internal/dispatch/queue.go:380-436 | a planned database stays as it is through every sequence of calls if and only if no leasable row is among the first ten queued rows |
| `SerialTheorems.TenWaitingRowsHideOne` | internal/dispatch/queue.go:50-55 | a freshly planned database with acyclic needs that all have rows, in which ten rows waiting for a leasable eleventh keep it from ever being picked: no sequence of calls changes anything |
| `SerialTheorems.NineWaitingRowsHideNone` | internal/dispatch/queue.go:51-56 | nine waiting rows do not keep a tenth from being leased |
| `SerialTheorems.RunsKeepRecords` | internal/dispatch/service.go:472-494 | with consistent reports, every ended row's result equals its status and its outputs are those reported for it, none for a skipped row |
| `SerialTheorems.LeaseCarriesNeeds` | internal/dispatch/queue.go:529-557 | every lease handed out carries exactly one entry per need, with the terminal status and reported outputs of its last-finished cell |
| `SerialTheorems.ResultFollowsStatusIff` | internal/dispatch/service.go:473-488 | after a completion result and status agree if and only if the row was still open or the retry repeats its status |
| `SerialTheorems.RetrySplitsResult` | internal/dispatch/service.go:473-488 | a run of one row completed twice with different results, after which status and result differ |
| `StepHistory.StepRowsSummarizeReports` | internal/dispatch/service.go:377-412 | after any run each step row has the id of the first accepted report, name and status of the last, start of the first running one and finish of the last terminal one |
| `StartedRows.ReportedRowIsKept` | internal/dispatch/service.go:404-433 | once an in-progress report was accepted under a lease, the row keeps that lease in every continuation, running or ended: no tick takes it back |
| `StartedRows.RunningIsKept` | internal/store/job_store.go:267-278 | in every interleaving a running row keeps its lease and is running or ended from then on |
| `StartedRows.StartTimeIsFirstGrant` | internal/store/job_store.go:234-252 | in every run of calls a row's start time is that of its first grant, through all requeues |
| `InterleavingTheorems.StepKeeps` | internal/dispatch/queue.go:163-226 | every statement of every call keeps: each row's status is explained by its needs and the results its completions may report, and each pending decision is still true |
| `InterleavingTheorems.HeldRowsMayRun` | internal/dispatch/queue.go:386-433 | in every state of every interleaving, whatever is reported, a leased or running row has rows for all its needs, all ended, and all successes if its `if` is absent, empty or "success()" |
| `InterleavingTheorems.SkippedRowsWereDue` | internal/dispatch/queue.go:163-226 | in every state of every interleaving the needs of a skipped row have rows and have ended; it was reported as skipped, or one of them did not succeed and its `if` is absent, empty or "success()" |
| `InterleavingTheorems.ScheduleIndependence` | internal/dispatch/queue.go:89-226 | for any set of rows that holds its own needs without a cycle and can each report one result only: every ended row of the set has the status a recursive evaluation of the graph gives it, in every interleaving, whatever other rows report |
| `InterleavingTheorems.SchedulesAgree` | internal/dispatch/queue.go:89-226 | for any needs graph, a row that ends in two interleavings of one plan ends alike, if it and all it depends on can each report one result only |
| `InterleavingTheorems.HandoffIsConserved` | internal/store/job_store.go:234-278 | no lease id is held by two rows, and for every row grants equal requeues plus one if it holds a lease |
| `InterleavingTheorems.LeaseIsBoundForever` | internal/dispatch/queue.go:418-433 | a lease id stays bound to one row and one runner, and once taken back is never held again |
| `Finishing.RunIsFeasible` | internal/dispatch/queue.go:380-436 | in every interleaving, whatever is reported, the moments at which rows left the queue are a feasible order for the results the rows ended with: each row's needs have rows that left before it, and a row the rule did not skip had fewer than ten lower rows that left no earlier |
| `Finishing.FinishedIsAcyclic` | internal/dispatch/queue.go:163-199 | in every interleaving, once all rows of a run have ended, the moments at which they left the queue number them so that every need comes first, and every need has a row |
| `Finishing.EndsIff` | internal/dispatch/queue.go:51-56 | for all results the runners may report and every lease time: some interleaving ends a given set of rows if and only if, for some choice of one reportable result per row, a feasible order of rows that holds them exists, with the limit of ten candidates in it; and if so, whole calls one after the other end them too |
| `Finishing.FinishesIff` | internal/dispatch/queue.go:51-56 | for all results the runners may report, some interleaving ends every row of a planned run if and only if its rows lie in a feasible order |
| `Finishing.SmallPlanFinishesIff` | internal/dispatch/queue.go:163-199 | with at most ten rows in the table, a run can be finished if and only if its needs are acyclic and all have rows |
| `Finishing.TenWaitingRowsNeverFinish` | internal/dispatch/queue.go:51-56 | a plan with acyclic needs that all have rows, which no interleaving finishes, whatever is reported |
| `StaleCalls.FenceHoldsIff` | internal/dispatch/service.go:452-488 | a pending completion or report still speaks for the holder exactly while its lease was not taken back; its next statement moves a row under a later lease if and only if it was and the row is held again in the status the statement expects; it changes any column of a row without its lease if and only if it was and the statement is the unguarded result write or finds the status it expects |
| `StaleCalls.StaleResultOnQueuedRow` | internal/dispatch/service.go:472-475 | from any plan, for any leasable row among the first ten: an interleaving in which a completion whose lease was taken back writes its result and finish time into the queued row |
| `StaleCalls.StaleCompletionEndsRow` | internal/dispatch/service.go:452-488 | from any plan, for any leasable row among the first ten: an interleaving in which a completion resolved under one lease ends the row under the next |
| `StaleCalls.HolderIsOverruled` | internal/dispatch/service.go:472-488 | from any plan, for any leasable row among the first ten and any two results: a stale completion ends the row with the first under the next lease, and that lease's own completion then leaves the status and writes the second into the result |
| `RecordedResults.ResultFollowsStatusIff` | internal/dispatch/service.go:472-488 | in every state of every interleaving, an ended row the rule did not skip shows in status the report of the completion that found it running and in result the last report written, so they agree if and only if those two reports do |
| `RecordedResults.SkippedShowsSkipped` | internal/dispatch/queue.go:218-226 | a row the rule applies to is never held, ends only as skipped, and shows no other result |
| `RecordedResults.OneReportAgrees` | internal/dispatch/service.go:472-488 | if the completions of a row can report one thing only, an ended row shows it in status and result, whatever is stale or retried |
| `RunClosing.RunStatusIsRight` | internal/dispatch/service.go:627-661 | in every state of every interleaving a run has the status it was planned with, or all its rows have ended and it has their roll-up |
| `RunClosing.RunStatusShowsRows` | internal/dispatch/service.go:627-661 | in every interleaving a run has its planned status, or all its rows have ended and the status shows them as the roll-up rule says |
| `RunClosing.ClosesIff` | internal/dispatch/queue.go:163-208 | once no gate of the run is left under way, the run is terminal if and only if some completion or gate of it was still under way when its last row ended, or began later |
| `RunClosing.OpenAfterAcquireSkip` | internal/dispatch/queue.go:404-411 | a run whose rows have all ended is left open only if the step that ended its last row was an acquire's own skip |
| `RunClosing.RunLeftOpen` | internal/dispatch/queue.go:163-208 | for every chain of three jobs whose first does not succeed: an interleaving in which all rows have ended and all calls have returned, and the run still has its planned status |
| `SerialRefines.GateAlone` | internal/dispatch/queue.go:163-208 | gateRun's statements without interruption skip exactly the rows the one-call model skips, and leave the run status it gives |
| `SerialRefines.CompleteAlone` | internal/dispatch/service.go:472-502 | the statements of a completion without interruption leave the jobs table and run status the one-call model gives |
| `SerialRefines.AcquireAlone` | internal/dispatch/queue.go:380-436 | the statements of an acquire without interruption, cache and skips on the way included, leave the table the one-call model gives |
| `SerialRefines.SerialIsInterleaved` | internal/dispatch/service.go:441-571 | every run of whole calls, whatever its completions and retries report, is matched by an interleaved run from the same plan to the same jobs table and run statuses |
| `SerialRefines.SerialAgreesWithAny` | internal/dispatch/queue.go:89-226 | a row that ends in a run of whole calls and in any interleaving of the same plan ends alike, if it and all it depends on can each report one result only |
| `LogStore.Store.Append` | internal/logstore/logstore.go:60-71 | inserts exactly when the (lease, seq) is new; the first payload stays |
| `LogStore.Store.Publish` | internal/logstore/logstore.go:78-97 | every subscriber of the job gets the chunk or, with a full buffer, is closed and removed; an empty set is removed |
| `LogStore.Store.Subscribe` | internal/logstore/logstore.go:104-113 | registers a new open empty channel for the job |
| `LogStore.Store.Cancel` | internal/logstore/logstore.go:115-131 | closes and removes the channel if still registered; repeating it changes nothing |
| `LogStore.Store.Receive` | internal/api/logs.go:347-362 | takes the oldest buffered chunk, also from a closed channel, without waiting |
| `LogStore.Store.ReplayFrom` | internal/logstore/logstore.go:141-167 | exactly the chunks of the job's current lease from the given seq on, ascending; none if the job has no lease |
| `LogStore.RegistryIsSound` | internal/logstore/logstore.go:78-133 | over every sequence of subscribe, publish, cancel and receive: a channel is open exactly while registered for its job, buffers stay within bounds, no empty set remains |
| `LogStore.SubscribersAreIndependent` | internal/logstore/logstore.go:78-133 | each subscriber's channel is what it would be if it were the only one |
| `LogStore.PublishIsExact` | internal/logstore/logstore.go:78-97 | an open channel of the job takes the chunk while it holds at most 255 and is closed otherwise; every other channel stays |
| `LogStore.ClosedStaysClosed` | internal/logstore/logstore.go:78-133 | a closed channel of the registry is never reopened or sent to in any continuation; its buffer only drains |
| `LogStream.StreamLogs` | internal/dispatch/service.go:268-335 | alone, the loop with its cache of resolved leases persists and publishes exactly what fresh lookups would |
| `LogStream.StreamPersists` | internal/dispatch/service.go:297-330 | after a stream exactly the old keys and those of messages under held leases are persisted; old ones unchanged, each new one with step, time and data of its first message, under the row that holds the lease |
| `LogStream.StreamDelivers` | internal/dispatch/service.go:323-333 | a subscriber stays open exactly while what it holds and what is new for its job fit into 256, and has then received exactly the new messages, in the order of their first sending |
| `LogStream.ResendIsIgnored` | internal/dispatch/service.go:323-333 | resending any part of a stream, in any order and with any payload, persists, overwrites and publishes nothing |
| `LogStream.StaleStreamIsDropped` | internal/dispatch/service.go:297-313 | a stream under leases no row holds changes nothing |
| `LogBridge.IdsIncrease` | internal/api/logs.go:237-312 | under any publisher order, duplicate, re-lease and resync: the seqs one connection writes strictly increase, and each (lease, seq) is appended once and published at most once |
| `LogBridge.FirstPayloadStays` | internal/logstore/logstore.go:60-71 | over the rest of every run a persisted (lease, seq) keeps the payload it first had, and the log only grows at its end |
| `LogBridgeTheorems.StepKeeps` | internal/api/logs.go:237-312 | with one lease and in-order appends every step keeps: the channel holds a stretch of the log, everything before it was sent, and a pending read continues what was sent |
| `LogBridgeTheorems.BridgeIsExact` | internal/api/logs.go:237-295 | at every moment a connection has written exactly the persisted chunks with start <= seq <= lastSeq, in order |
| `LogBridgeTheorems.ReconnectComposes` | internal/api/logs.go:125-143 | after any number of disconnects at any point, all the client received is a gap-free, duplicate-free prefix of the log from where it first asked |
| `LogBridgeTheorems.EndIsComplete` | internal/api/logs.go:332-384 | when the end event follows a successful final read, the client holds exactly the log as that read saw it |
| `LogOrder.DeliveredWholeIff` | internal/api/logs.go:237-295 | for every order of one lease's appends and publishes: every interleaving with a client that asked from at or below the lowest seq stays exact in every state if and only if each new append is above all earlier seqs and each publish takes the oldest unpublished chunk |
| `LogOrder.PassedIsNeverWritten` | internal/api/logs.go:284-291 | in every run, re-leases included: a chunk whose seq a connection has passed is written by no continuation of it and by no resume from above it |
| `LogOrder.ResumeWritesIff` | internal/api/logs.go:125-143 | a client that has just asked can still get a chunk persisted under the current lease exactly when it asked from at or below its seq |
| `LogOrder.LatePublishLeavesGap` | internal/api/logs.go:284-291 | a run with two chunks published in the other order than appended: the late one is passed, and in no continuation written unless the client asks from at or below it |
| `LogOrder.NewLeaseIsHidden` | internal/api/logs.go:284-291 | a run in which a new lease's low-numbered chunk is persisted and published but not written, nor in any continuation unless the client asks from at or below it |
| `SseHandler.DrainWritesUnsent` | internal/api/logs.go:346-362 | emptying the channel writes exactly the chunks above everything sent before them |
| `SseHandler.Handler.constructor` | internal/api/logs.go:225-242 | a new connection starts at the seq asked for, as the machine's last connect did |
| `SseHandler.Handler.Subscribe` | internal/api/logs.go:233-240 | writes the connected comment and registers the channel; one step of the machine |
| `SseHandler.Handler.ReadReplay` | internal/api/logs.go:244-248 | reads the log from the start asked for; one step of the machine |
| `SseHandler.Handler.WriteNext` | internal/api/logs.go:249-254 | writes the next chunk read and moves lastSeq to it; one step of the machine |
| `SseHandler.Handler.TakeLive` | internal/api/logs.go:269-291 | takes the oldest buffered chunk and writes it exactly when it is above lastSeq; one receive of the machine |
| `SseHandler.Handler.ReadResync` | internal/api/logs.go:270-283 | after the channel was closed and emptied, reads the log above lastSeq; one step of the machine |
| `SseHandler.Handler.KeepAlive` | internal/api/logs.go:296-299 | writes a comment and changes nothing else |
| `SseHandler.Handler.ReadRest` | internal/api/logs.go:364-371 | the final read of the log above lastSeq, or nothing if it fails; one step of the machine |
| `SseHandler.Handler.WriteTodo` | internal/api/logs.go:249-254 | the write loop writes exactly what was read, in order |
| `SseHandler.Handler.CatchUp` | internal/api/logs.go:244-255 | reads and writes exactly the log above lastSeq and leaves lastSeq at its end |
| `SseHandler.Handler.DrainBuffer` | internal/api/logs.go:346-362 | the loop empties the channel and writes exactly its unsent chunks, as the machine's receives do |
| `SseHandler.Handler.MaybeFinish` | internal/api/logs.go:332-384 | nothing is written for an open job; otherwise the unsent chunks, the rest of the log and the end event are written, in that order |
| `SseHandler.Handler.EndStream` | internal/api/logs.go:364-384 | writes the rest of the log and then the end event, also when the final read failed |
| `SseHandler.Handler.Appends` | internal/dispatch/service.go:327-330 | a runner's chunk is persisted between two steps of the handler; one step of the machine |
| `SseHandler.Handler.Publishes` | internal/dispatch/service.go:331-333 | a persisted chunk reaches this channel as the machine says, or closes it |
| `SseHandler.Handler.JobsChange` | internal/logstore/logstore.go:141-147 | a change of the job's current lease is a step of the machine, any other change of the jobs table is not |
| `SseHandler.Handler.TextResumes` | internal/api/logs.go:125-143 | whatever was interleaved with it, the text a connection has written can be cut at any character: the client holds a prefix of its log and resumes right after it |
| `SseFraming.Writer.WriteChunkEvent` | internal/api/logs.go:147-171 | appends the lines of one log event, with one data line per framed line |
| `SseFraming.Writer.WriteComment` | internal/api/logs.go:175-181 | appends one comment and a blank line |
| `SseFraming.Writer.WriteEnd` | internal/api/logs.go:185-200 | appends the end event, without an id line |
| `SseFraming.Writer.WriteChunks` | internal/api/logs.go:249-254 | appends the events of all chunks in order and returns the last seq |
| `SseTheorems.FramedJoins` | internal/api/logs.go:148-153 | the data lines, joined as a client joins them, are the chunk minus one trailing LF |
| `SseTheorems.RoundTripIffCrFree` | internal/api/logs.go:147-200 | for every list of chunks, comments and end events, the reader of sections 9.2.5 and 9.2.6 yields exactly the chunks in order with their seqs, and the end events, if and only if no chunk holds a CR |
| `SseTheorems.EndNamesStatus` | internal/api/logs.go:185-200 | a client reads the end event as JSON naming the job's final status |
| `SseTheorems.CutAnywhere` | internal/api/logs.go:147-200 | a stream cut at any character yields exactly the events of the items that lie wholly before the cut, and the id those items left |
| `SseTheorems.WholeIsExact` | internal/api/logs.go:147-200 | the items counted as whole end at or before the cut, and the next one ends after it |
| `SseResume.ResumesAfterIff` | internal/api/logs.go:125-143 | a printed id sent back as Last-Event-ID starts at the next seq, whatever `from_seq` says, if and only if it is not the greatest 64-bit value |
| `SseResume.StartIsAsAsked` | internal/api/logs.go:125-143 | a connection starts after the id sent back, else at `from_seq`, else at 0, with spaces around numbers ignored; what is no number is refused |
| `SseResume.PlusIsAccepted` | internal/api/logs.go:133-140 | a plus sign may stand before the number |
| `SseResume.LoneSignsAndGiantsAreRefused` | internal/api/logs.go:133-140 | a lone sign, a blank value and numbers beyond 64 bits are refused |
| `SseResume.NumeralsAreDecimal` | internal/api/logs.go:155-157 | printed ids are decimal numerals |
| `SseResume.CutStreamResumes` | internal/api/logs.go:125-143 | cut the text of any connection of any orderly run at any character, with CR-free chunks below the greatest seq: what the client holds is a prefix of its log, and the start seq computed from its Last-Event-ID is the one after what it holds |
| `SseResume.CutStreamResumesIff` | internal/api/logs.go:125-143 | cut and resume works at every character of a connection's text if and only if no chunk holds a CR and none has the greatest 64-bit seq |
| `SseResume.EmptyBufferResumesIff` | internal/api/logs.go:125-143 | for a client that empties its id buffer per connection, that start seq is right if and only if it held nothing before, or the cut falls within the first item, or a chunk's event ends before the cut |
| `SseResume.EmptyBufferForgets` | internal/api/logs.go:125-143 | an orderly run with one chunk received and a reconnection cut right after the connected comment: the server starts over where the client first asked |

## Left out

- Authentication, runner registration, RunReaper's runner statuses and the allow-lists.
- gRPC and HTTP plumbing, context cancellation, tickers, uuid parse errors and database errors; a failed replay is modelled as a break of the connection or as a final read with ok false.
- AcquireJob's waiting loop and the notifier: only the attempt each wake-up makes is modelled.
- buildJobLease apart from needs outputs: the other fields of a lease.
- The planner, webhooks, commit statuses, the web interface and logs.txt.
- Liveness of a running row whose runner died: nothing requeues it, so no claim says every job ends.
- Outputs and steps under interleaved statements: they are claimed between whole calls only, since CompleteJob ends the row before it writes outputs.
- LogBridge keeps one job and one connection at a time; other subscribers do not matter by `LogStore.SubscribersAreIndependent`.
- BridgeIsExact, ReconnectComposes and EndIsComplete are stated for one lease with chunks appended and published in increasing seq order, the exact condition by `LogOrder.DeliveredWholeIff`.
- SseResume.CutStreamResumes: stated for CR-free chunks below the greatest 64-bit seq, the exact condition by `SseResume.CutStreamResumesIff`.
- SseHandler.Handler.TextResumes: as CutStreamResumes, and for orderly runs, the exact condition by `LogOrder.DeliveredWholeIff`.
- LogBridge has unbounded seqs; the wrap at the greatest 64-bit seq is in `SseResume`.
- SseHandler.Handler has no select loop: its steps, and those of runners and dispatcher between them, may come in any order the machine allows; a failed write or first replay ends the object's use.
- UTF-8 decoding, the byte order mark and the retry field of event streams; data is a sequence of characters.
- EndPayload writes the JSON of the known status names and has no escaping for other strings.
- JobStore.Store.ListJobsForRun: leaves the whole order open, although the query sorts by yaml id, because no caller relies on more.
