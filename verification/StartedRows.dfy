/** Rows once started: a report of InProgress takes the row out of the reaper's reach, and the start time
    is that of the first grant (internal/dispatch/service.go:404-433, internal/store/job_store.go:234-278). */
module StartedRows {
  import opened Jobs
  import opened Gating
  import opened Handlers
  import opened Serial
  import opened SerialTheorems
  import CallsExact
  import Interleaving
  import InterleavingTheorems

  /* ---------- a reported start ---------- */

  /** The row is running or has ended. */
  ghost predicate Started(j: Job) {
    j.status in {Running, Success, Failure, Skipped, Cancelled}
  }

  /** A started row of a lease stays started and keeps the lease, in every call. */
  lemma StepKeepsStarted(s: State, e: Event, ttl: Time, drawn: set<LeaseId>, id: RowId, l: LeaseId)
    requires Inv(s, drawn) && Holds(s.rows, id, l) && Started(s.rows[id])
    ensures Holds(Next(s, e, ttl).rows, id, l) && Started(Next(s, e, ttl).rows[id])
  {
    hide Inv, Next;
    HeldRowKeepsLease(s, e, ttl, drawn, id, l);
    match e
    case Complete(_, _, _, _, _) => NextAges(s, e, ttl, drawn); CompleteKeepsStarted(s, e, ttl, drawn, id);
    case _ => OtherCallKeepsStarted(s, e, ttl, drawn, id);
  }

  lemma CompleteKeepsStarted(s: State, e: Event, ttl: Time, drawn: set<LeaseId>, id: RowId)
    requires Inv(s, drawn) && e.Complete? && id in s.rows && Started(s.rows[id])
    ensures id in Next(s, e, ttl).rows && Started(Next(s, e, ttl).rows[id])
  {
    hide Handlers.Complete, Ended, Gated, Settled, RunsAgree, UniqueLeases, Shape;
    CompleteUnfolds(s, e);
    if k: RowId :| Ends(s, e, k) {
      EndedRow(s.rows, k, PhaseToStatus(e.phase).value, e.now, e.clock, id);
    }
  }

  lemma OtherCallKeepsStarted(s: State, e: Event, ttl: Time, drawn: set<LeaseId>, id: RowId)
    requires Inv(s, drawn) && !e.Complete? && id in s.rows && Started(s.rows[id])
    ensures id in Next(s, e, ttl).rows && Started(Next(s, e, ttl).rows[id])
  {
    hide Gated, Settled, RunsAgree, AcquireRows, RenewAll, SkippedOnTheWay, Picked, UniqueLeases, Shape;
    match e
    case Acquire(r, m, now, clock) =>
      var got := AcquireWhenSettled(s.rows, r, m, ttl, now, clock);
      if got.Some? { PickedIsLeasable(s.rows, got.value); }
    case Report(m, u) =>
    case Heartbeat(r, ls, now) => HeartbeatIsExact(s.rows, r, ls, now + ttl);
    case Tick(now) =>
  }

  lemma {:induction false} StartedIsKept(s: State, es: seq<Event>, more: seq<Event>, ttl: Time, id: RowId, l: LeaseId)
    requires Planned(s) && FreshLeases(es + more)
    requires Holds(Exec(s, es, ttl).rows, id, l) && Started(Exec(s, es, ttl).rows[id])
    ensures Holds(Exec(s, es + more, ttl).rows, id, l) && Started(Exec(s, es + more, ttl).rows[id])
    decreases |more|
  {
    hide Inv, Planned, Next, Started;
    if more == [] {
      assert es + more == es;
    } else {
      var n := |more| - 1;
      var shorter, e := es + more[..n], more[n];
      assert (es + more)[..|es + more| - 1] == shorter && (es + more)[|es + more| - 1] == e;
      StartedIsKept(s, es, more[..n], ttl, id, l);
      RunsKeepInv(s, shorter, ttl);
      StepKeepsStarted(Exec(s, shorter, ttl), e, ttl, Drawn(shorter), id, l);
    }
  }

  /** Once a runner has reported under its lease that its work is in progress, for a step or for the job,
      no tick of any continuation takes the row back: it stays under that lease, running or ended. */
  lemma ReportedRowIsKept(s: State, es: seq<Event>, l: LeaseId, u: Update, more: seq<Event>, ttl: Time, id: RowId)
    requires Planned(s) && FreshLeases(es + [Event.Report(l, u)] + more)
    requires Holds(Exec(s, es, ttl).rows, id, l) && u.phase == InProgress
    ensures var v := Exec(s, es + [Event.Report(l, u)] + more, ttl).rows;
      id in v && v[id].lease == Some(l) && v[id].status in {Running, Success, Failure, Skipped, Cancelled}
  {
    hide Planned, Inv, Next, Started;
    var e := Event.Report(l, u);
    FreshPrefix(es + [e], more);
    FreshPrefix(es, [e]);
    RunsKeepInv(s, es, ttl);
    assert (es + [e])[..|es + [e]| - 1] == es;
    CallsExact.ReportIsExact(Exec(s, es, ttl), l, u, ttl, Drawn(es), id);
    ReportStarts(Exec(s, es, ttl), Drawn(es), id, l, Exec(s, es + [e], ttl).rows[id]);
    StartedIsKept(s, es + [e], more, ttl, id, l);
    StartedStatus(Exec(s, es + [e] + more, ttl).rows[id]);
  }

  lemma ReportStarts(s: State, drawn: set<LeaseId>, id: RowId, l: LeaseId, j: Job)
    requires Inv(s, drawn) && Holds(s.rows, id, l)
    requires j == if s.rows[id].status == Leased then s.rows[id].(status := Running) else s.rows[id]
    ensures Started(j) && j.lease == Some(l)
  {
    hide Gated, Settled, RunsAgree, UniqueLeases;
    assert RowShape(s.rows[id]);
  }

  lemma StartedStatus(j: Job)
    requires Started(j)
    ensures j.status in {Running, Success, Failure, Skipped, Cancelled}
  {
  }

  /** At statement grain as well: a running row keeps its lease in every interleaving, and is running or
      ended from then on. */
  lemma {:induction false} RunningIsKept(ws: seq<Interleaving.World>, rho: Interleaving.Outcomes, i: nat, j: nat,
                                         id: RowId)
    requires Interleaving.IsRun(ws, rho) && i <= j < |ws| && id in ws[i].rows && Started(ws[i].rows[id])
    ensures id in ws[j].rows && Started(ws[j].rows[id]) && ws[j].rows[id].lease == ws[i].rows[id].lease
    decreases j
  {
    hide Interleaving.Enabled, Interleaving.Apply, Started, InterleavingTheorems.RowsOk, InterleavingTheorems.CallsOk,
         Interleaving.Fresh;
    if i < j {
      RunningIsKept(ws, rho, i, j - 1, id);
      InterleavingTheorems.RunsStayOk(ws, rho, j - 1);
      assert Interleaving.Follows(ws[j - 1], ws[j - 1 + 1], rho);
      var a :| Interleaving.Enabled(ws[j - 1], a, rho) && ws[j] == Interleaving.Apply(ws[j - 1], a, rho);
      StatementKeepsStarted(ws[j - 1], a, rho, id);
    }
  }

  lemma StatementKeepsStarted(w: Interleaving.World, a: Interleaving.Action, rho: Interleaving.Outcomes, id: RowId)
    requires Interleaving.Enabled(w, a, rho) && InterleavingTheorems.CallsOk(w, rho) && id in w.rows
    requires Started(w.rows[id])
    ensures var u := Interleaving.Apply(w, a, rho).rows;
      id in u && Started(u[id]) && u[id].lease == w.rows[id].lease
  {
    hide Interleaving.DecidesSkip, Interleaving.DecidesLease, Interleaving.ListsBatch, Interleaving.FinalRead,
         Interleaving.AfterWrite, InterleavingTheorems.CallsOk, Older, RuleApplies, Runnable;
    match a
    case TrySkip(p) => InterleavingTheorems.SkipReads(w, p);
    case TryLease(p, _, _, _) => InterleavingTheorems.LeaseReads(w, p);
    case Write(p, _) => InterleavingTheorems.OneCall(w, p, rho);
    case _ =>
  }

  /* ---------- the start time ---------- */

  /** The time of the first acquire after which the row, queued before, is leased. */
  ghost function FirstGrant(s: State, es: seq<Event>, ttl: Time, id: RowId): Option<Time> {
    if es == [] then None else
      var rest, e := es[..|es| - 1], es[|es| - 1];
      var before := FirstGrant(s, rest, ttl, id);
      if before != None then before
      else if e.Acquire? && Granted(Exec(s, rest, ttl).rows, Exec(s, es, ttl).rows, id) then Some(e.now)
      else None
  }

  ghost predicate Granted(t: Table, u: Table, id: RowId) {
    id in t && id in u && t[id].status == Queued && u[id].status == Leased
  }

  /** In every run of calls a row planned without a start time has that of its first grant, through every
      requeue and later grant. */
  lemma {:induction false} StartTimeIsFirstGrant(s: State, es: seq<Event>, ttl: Time, id: RowId)
    requires Planned(s) && FreshLeases(es) && id in s.rows && s.rows[id].startedAt == None
    ensures id in Exec(s, es, ttl).rows && Exec(s, es, ttl).rows[id].startedAt == FirstGrant(s, es, ttl, id)
  {
    hide Inv, Planned, Next, Granted;
    if es != [] {
      var rest, e := es[..|es| - 1], es[|es| - 1];
      StartTimeIsFirstGrant(s, rest, ttl, id);
      RunsKeepInv(s, rest, ttl);
      StartTimeStep(Exec(s, rest, ttl), e, ttl, Drawn(rest), id);
    }
  }

  lemma StartTimeStep(s: State, e: Event, ttl: Time, drawn: set<LeaseId>, id: RowId)
    requires Inv(s, drawn) && id in s.rows
    ensures var u := Next(s, e, ttl).rows;
      && id in u
      && u[id].startedAt == if s.rows[id].startedAt == None && e.Acquire? && Granted(s.rows, u, id)
                            then Some(e.now) else s.rows[id].startedAt
  {
    hide Gated, Settled, RunsAgree, AcquireRows, RenewAll, SkippedOnTheWay, Picked, UniqueLeases, Shape, Ended,
         Handlers.Complete;
    match e
    case Acquire(r, m, now, clock) =>
      var got := AcquireWhenSettled(s.rows, r, m, ttl, now, clock);
      if got.Some? { PickedIsLeasable(s.rows, got.value); }
    case Report(m, u) =>
    case Complete(_, p, _, now, clock) =>
      CompleteUnfolds(s, e);
      if k: RowId :| Ends(s, e, k) { EndedKeepsStart(s.rows, k, PhaseToStatus(p).value, now, clock, id); }
    case Heartbeat(r, ls, now) => HeartbeatIsExact(s.rows, r, ls, now + ttl);
    case Tick(now) =>
  }

  lemma EndedKeepsStart(t: Table, k: RowId, result: Status, now: Time, clock: RowId -> Time, id: RowId)
    requires k in t && id in t
    ensures id in Ended(t, k, result, now, clock) && Ended(t, k, result, now, clock)[id].startedAt == t[id].startedAt
  {
    hide Closure;
  }
}
