/** What each dispatcher call does to the whole database when it runs alone: the specification the
    Service methods are proved against (internal/dispatch/queue.go, internal/dispatch/service.go). */
module Handlers {
  import opened Jobs
  import opened Gating
  import opened JobStore

  /** Row of the steps table; its key is (job row, step index). */
  datatype Step = Step(id: nat, name: string, status: Status, startedAt: Option<Time>, finishedAt: Option<Time>)

  type StepKey = (RowId, int)
  type Outputs = map<string, string>

  datatype State = State(
    rows: Table, runs: map<RunId, Status>, outputs: map<RowId, Outputs>, steps: map<StepKey, Step>)

  const CANDIDATE_BATCH_SIZE: nat := 10

  /* ---------- phases ---------- */

  datatype Phase = Unspecified | Pending | InProgress | Succeeded | Failed | SkippedPhase | CancelledPhase

  function PhaseToStatus(p: Phase): Option<Status> {
    match p
    case Unspecified => None
    case Pending => Some(Queued)
    case InProgress => Some(Running)
    case Succeeded => Some(Success)
    case Failed => Some(Failure)
    case SkippedPhase => Some(Skipped)
    case CancelledPhase => Some(Cancelled)
  }

  /* ---------- roll-up ---------- */

  ghost predicate AnyRow(t: Table, run: RunId, s: Status) {
    exists id :: id in t && t[id].run == run && t[id].status == s
  }

  ghost function RollUp(t: Table, run: RunId): Status {
    if AnyRow(t, run, Failure) then Failure
    else if forall id :: id in t && t[id].run == run ==> t[id].status == Success || t[id].status == Skipped then Success
    else Cancelled
  }

  function SetRunStatus(runs: map<RunId, Status>, run: RunId, s: Status): map<RunId, Status> {
    if run in runs then runs[run := s] else runs
  }

  ghost function Finalize(t: Table, runs: map<RunId, Status>, run: RunId): map<RunId, Status> {
    if RunDone(t, run) then SetRunStatus(runs, run, RollUp(t, run)) else runs
  }

  /* ---------- lease resolution ---------- */

  ghost predicate Held(t: Table, lease: LeaseId) {
    exists id :: Holds(t, id, lease)
  }

  ghost function HolderOf(t: Table, lease: LeaseId): RowId
    requires Held(t, lease)
  {
    var id :| Holds(t, id, lease); id
  }

  /* ---------- the handlers ---------- */

  /** The row acquire leases: the least leasable one, if it is among the first ten queued. */
  ghost predicate Picked(t: Table, id: RowId) {
    Leasable(t, id) && InBatch(t, CANDIDATE_BATCH_SIZE, id) && forall k :: Leasable(t, k) ==> id <= k
  }

  /** The rows acquire skips defensively on its way: those it looks at before the row it leases. */
  ghost predicate Passed(t: Table, k: RowId) {
    SkipByRule(t, k) && InBatch(t, CANDIDATE_BATCH_SIZE, k) && forall id :: Picked(t, id) ==> k < id
  }

  ghost function SkippedOnTheWay(t: Table): set<RowId> {
    set k | k in t && Passed(t, k)
  }

  ghost function AcquireRows(t: Table, runner: RunnerId, lease: LeaseId, ttl: Time, now: Time,
                             clock: RowId -> Time): Table {
    var u := SkipAll(t, SkippedOnTheWay(t), clock);
    if exists id :: Picked(t, id) then
      var id :| Picked(t, id);
      Lease(u, id, lease, runner, now + ttl, now)
    else u
  }

  function CompleteRow(t: Table, id: RowId, result: Status, now: Time): Table {
    TransitionStatus(TransitionStatus(SetResult(t, id, result, now), id, Leased, Running), id, Running, result)
  }

  function OutputsOf(o: map<RowId, Outputs>, id: RowId): Outputs {
    if id in o then o[id] else map[]
  }

  ghost function Complete(s: State, lease: LeaseId, phase: Phase, outs: Outputs, now: Time,
                          clock: RowId -> Time): State {
    var result := PhaseToStatus(phase);
    if !Held(s.rows, lease) || result.None? || !IsTerminal(result.value) then s else
      var id := HolderOf(s.rows, lease);
      var run := s.rows[id].run;
      var t := Gate(CompleteRow(s.rows, id, result.value, now), run, clock);
      s.(rows := t, runs := Finalize(t, s.runs, run),
         outputs := if outs == map[] then s.outputs else s.outputs[id := OutputsOf(s.outputs, id) + outs])
  }

  /** Times carried forward from the stored step, then stamped by the report. */
  function MergeStep(prev: Option<Step>, freshId: nat, name: string, status: Status, ts: Time): Step {
    var started := if prev.Some? then prev.value.startedAt else None;
    var finished := if prev.Some? then prev.value.finishedAt else None;
    Step(if prev.Some? then prev.value.id else freshId, name, status,
         if status == Running && started.None? then Some(ts) else started,
         if IsTerminal(status) then Some(ts) else finished)
  }

  function StepAt(steps: map<StepKey, Step>, key: StepKey): Option<Step> {
    if key in steps then Some(steps[key]) else None
  }

  /** stepLevel: the update names a step (step_id or step_name is set). */
  datatype Update = Update(stepLevel: bool, index: int, name: string, phase: Phase, ts: Time, freshId: nat)

  ghost function Report(s: State, lease: LeaseId, u: Update): State {
    var status := PhaseToStatus(u.phase);
    if !Held(s.rows, lease) || status.None? then s else
      var id := HolderOf(s.rows, lease);
      var rows := if status.value == Running then TransitionStatus(s.rows, id, Leased, Running) else s.rows;
      var steps :=
        if u.stepLevel
        then s.steps[(id, u.index) := MergeStep(StepAt(s.steps, (id, u.index)), u.freshId, u.name, status.value, u.ts)]
        else s.steps;
      s.(rows := rows, steps := steps)
  }

  ghost predicate OwnedBy(t: Table, lease: LeaseId, runner: RunnerId) {
    Held(t, lease) && t[HolderOf(t, lease)].runner == Some(runner)
  }

  ghost function RenewOwned(t: Table, runner: RunnerId, lease: LeaseId, deadline: Time): Table {
    if OwnedBy(t, lease, runner) then RenewLease(t, lease, deadline) else t
  }

  ghost function RenewAll(t: Table, runner: RunnerId, leases: seq<LeaseId>, deadline: Time): Table {
    if leases == [] then t
    else RenewOwned(RenewAll(t, runner, leases[..|leases| - 1], deadline), runner, leases[|leases| - 1], deadline)
  }

  ghost function Heartbeat(s: State, runner: RunnerId, leases: seq<LeaseId>, ttl: Time, now: Time): State {
    s.(rows := RenewAll(s.rows, runner, leases, now + ttl))
  }

  ghost function Tick(s: State, now: Time): State {
    s.(rows := RequeueExpired(s.rows, now))
  }
}
