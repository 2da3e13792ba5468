/** What each dispatcher call leaves, column by column and result by result: the specification functions
    of Handlers and Gating measured against the words of the code (internal/dispatch/queue.go,
    internal/dispatch/service.go). */
module CallsExact {
  import opened Jobs
  import opened Gating
  import opened JobStore
  import opened Handlers
  import opened Serial
  import SerialTheorems

  /* ---------- the rule ---------- */

  /** Every need has rows, and all of them have ended. */
  ghost predicate NeedsOver(t: Table, id: RowId)
    requires id in t
  {
    && (forall name :: name in t[id].needs ==> HasRow(t, t[id].run, name))
    && (forall k :: Needs(t, id, k) ==> t[k].status in {Success, Failure, Skipped, Cancelled})
  }

  /** No `if`, an empty one, or the one the planner stamps on every job without. */
  ghost predicate Plain(j: Job) {
    j.ifExpr in {None, Some(""), Some("success()")}
  }

  ghost predicate MustSkip(t: Table, id: RowId)
    requires id in t
  {
    NeedsOver(t, id) && Plain(t[id]) && exists k :: Needs(t, id, k) && t[k].status in {Failure, Skipped, Cancelled}
  }

  ghost predicate MayRun(t: Table, id: RowId)
    requires id in t
  {
    NeedsOver(t, id) && (Plain(t[id]) ==> forall k :: Needs(t, id, k) ==> t[k].status == Success)
  }

  lemma VerdictsAreExact(t: Table, id: RowId)
    requires id in t
    ensures RuleApplies(t, id) <==> MustSkip(t, id)
    ensures Runnable(t, id) <==> MayRun(t, id)
  {
    assert NeedsTerminal(t, id) <==> NeedsOver(t, id);
    assert HasDefaultIfExpr(t[id]) <==> Plain(t[id]);
    if k :| Blocking(t, id, k) {
      assert t[k].status in {Failure, Skipped, Cancelled};
    }
    if k :| Needs(t, id, k) && t[k].status in {Failure, Skipped, Cancelled} {
      assert Blocking(t, id, k);
    }
    if NeedsOver(t, id) && !NeedsBlocked(t, id) {
      forall k | Needs(t, id, k) ensures t[k].status == Success {
        assert !Blocking(t, id, k);
      }
    }
  }

  ghost function AsSkipped(j: Job, at: Time): Job {
    j.(status := Skipped, result := Some(Skipped), finishedAt := Some(at))
  }

  /* ---------- gateRun ---------- */

  /** After gateRun: a queued row of the run was skipped if and only if its needs are over, one of them is
      no success, and its `if` is absent, empty or "success()"; nothing else changed. */
  lemma GateIsExact(t: Table, run: RunId, clock: RowId -> Time, id: RowId)
    requires id in t
    ensures var u := Gate(t, run, clock);
      && u.Keys == t.Keys
      && (t[id].run != run || t[id].status != Queued ==> u[id] == t[id])
      && (t[id].run == run && t[id].status == Queued ==>
          u[id] == if MustSkip(u, id) then AsSkipped(t[id], clock(id)) else t[id])
  {
    hide Closure, RuleApplies, MustSkip;
    var u := Gate(t, run, clock);
    ClosureIsInRun(t, run);
    VerdictsAreExact(u, id);
    GateSettles(t, run, clock, clock);
    if id in Closure(t, run) { ClosureIsJustified(t, run, clock, id); }
    if t[id].run == run && t[id].status == Queued && id !in Closure(t, run) { assert !SkipByRule(u, id); }
  }

  /** The skips are grounded: among any rows that gateRun skips, one needs none of the others. */
  lemma GateIsGrounded(t: Table, run: RunId, clock: RowId -> Time, x: set<RowId>) returns (id: RowId)
    requires x != {}
    requires forall k :: k in x ==> k in t && t[k].status == Queued && Gate(t, run, clock)[k].status == Skipped
    ensures id in x && forall k :: Needs(t, id, k) ==> k !in x
  {
    hide RuleApplies;
    var c := Closure(t, run);
    forall k | k in x ensures k in c {}
    LessIsNotClosed(t, run, x);
    id :| id in t && t[id].run == run && t[id].status == Queued && RuleApplies(SkipAll(t, c - x, EPOCH), id)
          && id !in c - x;
    ClosureAbsorbs(t, run, c - x, EPOCH, id);
    RestIsOver(t, c - x, x, id);
  }

  lemma LessIsNotClosed(t: Table, run: RunId, x: set<RowId>)
    requires x != {} && x <= Closure(t, run)
    ensures !Closed(t, run, Closure(t, run) - x)
  {
    hide Closed;
    var k :| k in x;
    assert k in Closure(t, run) && k !in Closure(t, run) - x;
  }

  lemma RestIsOver(t: Table, rest: set<RowId>, x: set<RowId>, id: RowId)
    requires id in t && rest !! x && RuleApplies(SkipAll(t, rest, EPOCH), id)
    requires forall k :: k in x ==> k in t && t[k].status == Queued
    ensures forall k :: Needs(t, id, k) ==> k !in x
  {
    var u := SkipAll(t, rest, EPOCH);
    forall k | Needs(t, id, k) ensures k !in x {
      assert Needs(u, id, k) && IsTerminal(u[k].status);
    }
  }

  /* ---------- acquire ---------- */

  ghost function Before(t: Table, id: RowId): set<RowId> {
    set k | k in t && t[k].status == Queued && k < id
  }

  /** The row is queued behind at most nine others, may run, and none before it may. */
  ghost predicate IsServed(t: Table, id: RowId) {
    && id in t && t[id].status == Queued && MayRun(t, id)
    && |Before(t, id)| <= 9
    && forall k :: k in t && k < id && t[k].status == Queued ==> !MayRun(t, k)
  }

  /** The row is queued behind at most nine others, must be skipped, and comes before any row to be served. */
  ghost predicate IsPassed(t: Table, id: RowId) {
    && id in t && t[id].status == Queued && MustSkip(t, id)
    && |Before(t, id)| <= 9
    && forall k :: IsServed(t, k) ==> id < k
  }

  lemma LeasableIsExact(t: Table, id: RowId)
    ensures Leasable(t, id) <==> id in t && t[id].status == Queued && MayRun(t, id)
  {
    hide Runnable, MayRun;
    if id in t { VerdictsAreExact(t, id); }
  }

  lemma PickedIsExact(t: Table, id: RowId)
    ensures Picked(t, id) <==> IsServed(t, id)
  {
    hide Leasable, MayRun;
    forall k ensures Leasable(t, k) <==> k in t && t[k].status == Queued && MayRun(t, k) { LeasableIsExact(t, k); }
    assert QueuedBelow(t, id) == Before(t, id);
    if IsServed(t, id) {
      forall k: RowId | Leasable(t, k) ensures id <= k {}
    }
    if Picked(t, id) {
      forall k | k in t && k < id && t[k].status == Queued ensures !MayRun(t, k) { assert !Leasable(t, k); }
    }
  }

  lemma PassedIsExact(t: Table, id: RowId)
    ensures Passed(t, id) <==> IsPassed(t, id)
  {
    hide RuleApplies, Runnable, MayRun, MustSkip, Picked, IsServed;
    forall k ensures Picked(t, k) <==> IsServed(t, k) { PickedIsExact(t, k); }
    if id in t { VerdictsAreExact(t, id); }
    assert QueuedBelow(t, id) == Before(t, id);
  }

  /** acquireOneQueuedJob on any table: what becomes of each row. */
  lemma AcquireIsExact(t: Table, r: RunnerId, l: LeaseId, ttl: Time, now: Time, clock: RowId -> Time, id: RowId)
    requires id in t
    ensures var u := AcquireRows(t, r, l, ttl, now, clock);
      && u.Keys == t.Keys
      && u[id] ==
         if IsServed(t, id) then
           t[id].(status := Leased, runner := Some(r), lease := Some(l), deadline := Some(now + ttl),
                  startedAt := if t[id].startedAt == None then Some(now) else t[id].startedAt)
         else if IsPassed(t, id) then AsSkipped(t[id], clock(id)) else t[id]
  {
    hide Picked, IsServed, IsPassed, Passed, MayRun, MustSkip;
    forall k ensures Picked(t, k) <==> IsServed(t, k) { PickedIsExact(t, k); }
    PassedIsExact(t, id);
    ServedOnce(t);
    ServedIsQueued(t);
    PassedIsQueued(t, id);
  }

  lemma ServedOnce(t: Table)
    ensures forall a, b :: IsServed(t, a) && IsServed(t, b) ==> a == b
  {
    hide MayRun;
  }

  lemma ServedIsQueued(t: Table)
    ensures forall a :: IsServed(t, a) ==> a in t && t[a].status == Queued && !IsPassed(t, a)
  {
    hide MayRun, MustSkip;
  }

  lemma PassedIsQueued(t: Table, id: RowId)
    ensures IsPassed(t, id) ==> id in t && t[id].status == Queued
  {
    hide MayRun, MustSkip, IsServed;
  }

  /* ---------- completions ---------- */

  /** The row shows the result; its status follows if it was leased or running. */
  ghost predicate Leaves(j: Job, k: Job, x: Status, now: Time) {
    k == j.(result := Some(x), finishedAt := Some(now), status := if j.status in {Leased, Running} then x else j.status)
  }

  ghost predicate CompletionLeaves(s: State, u: State, e: Event, id: RowId, x: Status)
    requires e.Complete? && id in s.rows
  {
    && u.rows.Keys == s.rows.Keys && Leaves(s.rows[id], u.rows[id], x, e.now)
    && (forall k :: k in s.rows && k != id ==>
        u.rows[k] == s.rows[k] ||
        (s.rows[k].status == Queued && s.rows[k].run == s.rows[id].run
         && MustSkip(u.rows, k) && u.rows[k] == AsSkipped(s.rows[k], e.clock(k))))
    && u.steps == s.steps
    && u.outputs == (if e.outs == map[] then s.outputs
                     else s.outputs[id := (if id in s.outputs then s.outputs[id] else map[]) + e.outs])
  }

  /** CompleteJob under a held lease, phase by phase: the four results are recorded as reported, and the
      other three phases are refused. */
  lemma CompletionIsExact(s: State, e: Event, ttl: Time, drawn: set<LeaseId>, id: RowId)
    requires Inv(s, drawn) && e.Complete? && Holds(s.rows, id, e.lease)
    ensures var u := Next(s, e, ttl);
      && (e.phase == Succeeded ==> CompletionLeaves(s, u, e, id, Success))
      && (e.phase == Failed ==> CompletionLeaves(s, u, e, id, Failure))
      && (e.phase == SkippedPhase ==> CompletionLeaves(s, u, e, id, Skipped))
      && (e.phase == CancelledPhase ==> CompletionLeaves(s, u, e, id, Cancelled))
      && (e.phase in {Unspecified, Pending, InProgress} ==> u == s)
  {
    hide Inv, CompletionLeaves, Handlers.Complete;
    match e.phase
    case Succeeded => AcceptedIsExact(s, e, drawn, id, Success);
    case Failed => AcceptedIsExact(s, e, drawn, id, Failure);
    case SkippedPhase => AcceptedIsExact(s, e, drawn, id, Skipped);
    case CancelledPhase => AcceptedIsExact(s, e, drawn, id, Cancelled);
    case _ => RefusedIsExact(s, e);
  }

  lemma RefusedIsExact(s: State, e: Event)
    requires e.Complete? && e.phase in {Unspecified, Pending, InProgress}
    ensures Handlers.Complete(s, e.lease, e.phase, e.outs, e.now, e.clock) == s
  {
  }

  /** A lease that no row holds completes nothing. */
  lemma UnheldCompletesNothing(s: State, e: Event, ttl: Time)
    requires e.Complete? && forall id :: !Holds(s.rows, id, e.lease)
    ensures Next(s, e, ttl) == s
  {
  }

  lemma AcceptedIsExact(s: State, e: Event, drawn: set<LeaseId>, id: RowId, x: Status)
    requires Inv(s, drawn) && e.Complete? && Holds(s.rows, id, e.lease)
    requires PhaseToStatus(e.phase) == Some(x) && x in {Success, Failure, Skipped, Cancelled}
    ensures CompletionLeaves(s, Handlers.Complete(s, e.lease, e.phase, e.outs, e.now, e.clock), e, id, x)
  {
    hide Gated, Settled, RunsAgree, Shape, UniqueLeases, Handlers.Complete, Ended, Finalize, MustSkip, HeldWithin;
    AcceptedEnds(s, e, id);
    SerialTheorems.CompletionWrites(s, e, drawn, id);
    HeldIsLeft(s.rows, id, x, e.now, drawn, s);
    var u := Ended(s.rows, id, x, e.now, e.clock);
    EndedKeys(s.rows, id, x, e.now, e.clock);
    forall k | k in s.rows && k != id
      ensures u[k] == s.rows[k] || (s.rows[k].status == Queued && s.rows[k].run == s.rows[id].run
                                    && MustSkip(u, k) && u[k] == AsSkipped(s.rows[k], e.clock(k)))
    {
      OtherRowsEnd(s.rows, id, x, e.now, e.clock, k);
    }
  }

  lemma EndedKeys(t: Table, id: RowId, x: Status, now: Time, clock: RowId -> Time)
    requires id in t
    ensures Ended(t, id, x, now, clock).Keys == t.Keys
  {
    hide Closure;
  }

  lemma HeldIsLeft(t: Table, id: RowId, x: Status, now: Time, drawn: set<LeaseId>, s: State)
    requires Inv(s, drawn) && t == s.rows && id in t && t[id].lease.Some?
    ensures Leaves(t[id], Completed(t[id], x, now), x, now)
  {
    hide Gated, Settled, RunsAgree, UniqueLeases, HeldWithin;
    assert RowShape(t[id]);
  }

  lemma OtherRowsEnd(t: Table, id: RowId, x: Status, now: Time, clock: RowId -> Time, k: RowId)
    requires id in t && k in t && k != id
    ensures var u := Ended(t, id, x, now, clock);
      k in u && (u[k] == t[k] || (t[k].status == Queued && t[k].run == t[id].run
                                  && MustSkip(u, k) && u[k] == AsSkipped(t[k], clock(k))))
  {
    hide Gate, MustSkip;
    GateIsExact(t[id := Completed(t[id], x, now)], t[id].run, clock, k);
  }

  /* ---------- status reports ---------- */

  /** A report under a held lease: the row is running if it was leased and the phase is InProgress, for a
      step report and a job report alike; no other row, output or run status changes, and no step either
      unless the report names one and its phase is given. */
  lemma ReportIsExact(s: State, l: LeaseId, u: Update, ttl: Time, drawn: set<LeaseId>, id: RowId)
    requires Inv(s, drawn) && Holds(s.rows, id, l)
    ensures var v := Next(s, Event.Report(l, u), ttl);
      && v.rows == s.rows[id := if s.rows[id].status == Leased && u.phase == InProgress
                                then s.rows[id].(status := Running) else s.rows[id]]
      && v.runs == s.runs && v.outputs == s.outputs
      && (forall k :: k in s.steps && k != (id, u.index) ==> k in v.steps && v.steps[k] == s.steps[k])
      && (forall k :: k in v.steps && k != (id, u.index) ==> k in s.steps)
      && (!u.stepLevel || u.phase == Unspecified ==> v.steps == s.steps)
  {
    hide Gated, Settled, RunsAgree, Shape, HeldWithin;
    assert Held(s.rows, l) && HolderOf(s.rows, l) == id;
    assert s.rows[id := s.rows[id]] == s.rows;
  }

  /** The step row a report leaves, phase by phase. */
  lemma StepIsExact(s: State, l: LeaseId, u: Update, ttl: Time, drawn: set<LeaseId>, id: RowId)
    requires Inv(s, drawn) && Holds(s.rows, id, l) && u.stepLevel && u.phase != Unspecified
    ensures var key := (id, u.index); var v := Next(s, Event.Report(l, u), ttl).steps;
      && key in v && v[key].name == u.name
      && v[key].id == (if key in s.steps then s.steps[key].id else u.freshId)
      && (u.phase == Pending ==> v[key].status == Queued)
      && (u.phase == InProgress ==> v[key].status == Running)
      && (u.phase == Succeeded ==> v[key].status == Success)
      && (u.phase == Failed ==> v[key].status == Failure)
      && (u.phase == SkippedPhase ==> v[key].status == Skipped)
      && (u.phase == CancelledPhase ==> v[key].status == Cancelled)
      && v[key].startedAt == (if key in s.steps && s.steps[key].startedAt != None then s.steps[key].startedAt
                              else if u.phase == InProgress then Some(u.ts) else None)
      && v[key].finishedAt == (if u.phase in {Succeeded, Failed, SkippedPhase, CancelledPhase} then Some(u.ts)
                               else if key in s.steps then s.steps[key].finishedAt else None)
  {
    hide Gated, Settled, RunsAgree, Shape, HeldWithin;
    assert Held(s.rows, l) && HolderOf(s.rows, l) == id;
  }

  /** A report under a lease that no row holds changes nothing. */
  lemma UnheldReportsNothing(s: State, l: LeaseId, u: Update, ttl: Time)
    requires forall id :: !Holds(s.rows, id, l)
    ensures Next(s, Event.Report(l, u), ttl) == s
  {
  }
}
