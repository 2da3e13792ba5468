/** Job rows and the SQL statements that change them (internal/store/job_store.go).

    A table is a map from row id to row.  Every UPDATE of the store is one function from a table
    to a table: Postgres runs each of them as one atomic guarded update.  Ids are natural numbers
    in the order of the uuids they stand for; times are integers. */
module Jobs {
  datatype Option<+T> = None | Some(value: T)

  datatype Status = Queued | Leased | Running | Success | Failure | Skipped | Cancelled

  type RowId = nat
  type RunId = nat
  type LeaseId = nat
  type RunnerId = nat
  type Time = int

  datatype Job = Job(
    id: RowId, run: RunId, jobId: string, needs: seq<string>, ifExpr: Option<string>,
    status: Status, runner: Option<RunnerId>, lease: Option<LeaseId>, deadline: Option<Time>,
    result: Option<Status>, startedAt: Option<Time>, finishedAt: Option<Time>)

  type Table = map<RowId, Job>

  predicate IsTerminal(s: Status) {
    s == Success || s == Failure || s == Skipped || s == Cancelled
  }

  /** The state machine enforced by TransitionStatus. */
  predicate IsLegalTransition(from: Status, to: Status) {
    match from
    case Queued => to == Leased || to == Cancelled || to == Skipped
    case Leased => to == Running || to == Queued || to == Cancelled
    case Running => to == Success || to == Failure || to == Cancelled || to == Skipped
    case _ => false
  }

  /** No job-level `if:` override: absent, empty, or the planner's default. */
  predicate HasDefaultIfExpr(j: Job) {
    j.ifExpr == None || j.ifExpr == Some("") || j.ifExpr == Some("success()")
  }

  ghost predicate Keyed(t: Table) {
    forall id :: id in t ==> t[id].id == id
  }

  /* ---------- the statements ---------- */

  predicate CanTransition(t: Table, id: RowId, from: Status, to: Status) {
    IsLegalTransition(from, to) && id in t && t[id].status == from
  }

  function TransitionStatus(t: Table, id: RowId, from: Status, to: Status): Table {
    if CanTransition(t, id, from, to) then t[id := t[id].(status := to)] else t
  }

  predicate CanLease(t: Table, id: RowId) {
    id in t && t[id].status == Queued
  }

  function Coalesce(x: Option<Time>, now: Time): Option<Time> {
    if x.Some? then x else Some(now)
  }

  function Lease(t: Table, id: RowId, lease: LeaseId, runner: RunnerId, deadline: Time, now: Time): Table {
    if CanLease(t, id) then
      t[id := t[id].(status := Leased, runner := Some(runner), lease := Some(lease),
        deadline := Some(deadline), startedAt := Coalesce(t[id].startedAt, now))]
    else t
  }

  predicate Holds(t: Table, id: RowId, lease: LeaseId) {
    id in t && t[id].lease == Some(lease)
  }

  function Holders(t: Table, lease: LeaseId): (s: set<RowId>)
    ensures forall id :: id in s <==> Holds(t, id, lease)
  {
    set id | id in t && t[id].lease == Some(lease)
  }

  function RenewLease(t: Table, lease: LeaseId, deadline: Time): Table {
    map id | id in t :: if t[id].lease == Some(lease) then t[id].(deadline := Some(deadline)) else t[id]
  }

  predicate Expired(j: Job, now: Time) {
    j.status == Leased && j.deadline.Some? && j.deadline.value < now
  }

  function RequeueExpired(t: Table, now: Time): Table {
    map id | id in t ::
      if Expired(t[id], now)
      then t[id].(status := Queued, runner := None, lease := None, deadline := None) else t[id]
  }

  function SetResult(t: Table, id: RowId, result: Status, finishedAt: Time): Table {
    if id in t then t[id := t[id].(result := Some(result), finishedAt := Some(finishedAt))] else t
  }

  /** skipJob: queued -> skipped, and only if that wins, the result. */
  function SkipJob(t: Table, id: RowId, finishedAt: Time): Table {
    if CanTransition(t, id, Queued, Skipped)
    then SetResult(TransitionStatus(t, id, Queued, Skipped), id, Skipped, finishedAt) else t
  }

  /* ---------- what a table promises to later tables ---------- */

  /** The columns no statement writes. */
  ghost predicate SamePlan(a: Job, b: Job) {
    a.id == b.id && a.run == b.run && a.jobId == b.jobId && a.needs == b.needs && a.ifExpr == b.ifExpr
  }

  /** b is some later table: same rows, same plan, and a terminal status never changes again. */
  ghost predicate Older(a: Table, b: Table) {
    && a.Keys == b.Keys
    && (forall id :: id in a ==> SamePlan(a[id], b[id]))
    && (forall id :: id in a && IsTerminal(a[id].status) ==> b[id].status == a[id].status)
  }

  /** No lease id is held by two rows. */
  ghost predicate UniqueLeases(t: Table) {
    forall i, j, l :: Holds(t, i, l) && Holds(t, j, l) ==> i == j
  }

  lemma SelfOlder(t: Table)
    ensures Older(t, t)
  {
  }

  lemma OlderTransitive(a: Table, b: Table, c: Table)
    requires Older(a, b) && Older(b, c)
    ensures Older(a, c)
  {
    forall id | id in a ensures SamePlan(a[id], c[id]) {
      assert SamePlan(a[id], b[id]);
    }
  }

  /** Writing one row ages the table when the plan stays and a terminal status stays. */
  lemma UpdateAges(t: Table, id: RowId, j: Job)
    requires id in t && SamePlan(t[id], j)
    requires IsTerminal(t[id].status) ==> j.status == t[id].status
    ensures Older(t, t[id := j])
  {
  }

  /** Terminal statuses are absorbing for every statement of the store. */
  lemma RowStatementsAge(t: Table, id: RowId, from: Status, to: Status, l: LeaseId, r: RunnerId, d: Time, now: Time,
                         result: Status)
    ensures Older(t, TransitionStatus(t, id, from, to))
    ensures Older(t, Lease(t, id, l, r, d, now))
    ensures Older(t, SetResult(t, id, result, now))
  {
    if id in t {
      if CanTransition(t, id, from, to) {
        UpdateAges(t, id, t[id].(status := to));
      }
      if CanLease(t, id) {
        UpdateAges(t, id, Lease(t, id, l, r, d, now)[id]);
      }
      UpdateAges(t, id, t[id].(result := Some(result), finishedAt := Some(now)));
    }
  }

  lemma BulkStatementsAge(t: Table, l: LeaseId, d: Time, now: Time)
    ensures Older(t, RenewLease(t, l, d))
    ensures Older(t, RequeueExpired(t, now))
  {
  }
}
