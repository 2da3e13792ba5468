/** Whole runs of the dispatcher, one call at a time: any sequence of acquires, status reports,
    completions, heartbeats and reaper ticks, from a freshly planned table. */
module Serial {
  import opened Jobs
  import opened Gating
  import opened JobStore
  import opened Handlers

  datatype Event =
    | Acquire(runner: RunnerId, lease: LeaseId, now: Time, clock: RowId -> Time)
    | Report(lease: LeaseId, update: Update)
    | Complete(lease: LeaseId, phase: Phase, outs: Outputs, now: Time, clock: RowId -> Time)
    | Heartbeat(runner: RunnerId, leases: seq<LeaseId>, now: Time)
    | Tick(now: Time)

  ghost function Next(s: State, e: Event, ttl: Time): State {
    match e
    case Acquire(r, l, now, clock) => s.(rows := AcquireRows(s.rows, r, l, ttl, now, clock))
    case Report(l, u) => Handlers.Report(s, l, u)
    case Complete(l, p, outs, now, clock) => Handlers.Complete(s, l, p, outs, now, clock)
    case Heartbeat(r, ls, now) => Handlers.Heartbeat(s, r, ls, ttl, now)
    case Tick(now) => Handlers.Tick(s, now)
  }

  ghost function Exec(s: State, es: seq<Event>, ttl: Time): State {
    if es == [] then s else Next(Exec(s, es[..|es| - 1], ttl), es[|es| - 1], ttl)
  }

  /** A planned table: every row queued and untouched, its run known and open. */
  ghost predicate Planned(s: State) {
    && Keyed(s.rows)
    && (forall id :: id in s.rows ==>
        Untouched(s.rows[id]) && s.rows[id].run in s.runs && !IsTerminal(s.runs[s.rows[id].run]))
    && s.outputs == map[] && s.steps == map[]
  }

  ghost predicate Untouched(j: Job) {
    j.status == Queued && j.runner == None && j.lease == None && j.deadline == None && j.result == None &&
        j.finishedAt == None
  }

  /** The lease ids drawn so far; uuid.New never repeats one. */
  ghost function Drawn(es: seq<Event>): set<LeaseId> {
    if es == [] then {} else
      Drawn(es[..|es| - 1]) + if es[|es| - 1].Acquire? then {es[|es| - 1].lease} else {}
  }

  ghost predicate FreshLeases(es: seq<Event>) {
    es != [] ==>
      && FreshLeases(es[..|es| - 1])
      && (es[|es| - 1].Acquire? ==> es[|es| - 1].lease !in Drawn(es[..|es| - 1]))
  }

  /* ---------- what holds between calls ---------- */

  ghost predicate RowShape(j: Job) {
    && (j.status == Queued ==> j.lease == None)
    && (Busy(j) ==> j.lease.Some?)
    && (j.lease.Some? ==> j.runner.Some? && j.deadline.Some?)
    && (j.result.Some? <==> IsTerminal(j.status))
    && (j.finishedAt.Some? <==> IsTerminal(j.status))
  }

  ghost predicate Shape(t: Table) {
    forall id :: id in t ==> t[id].id == id && RowShape(t[id])
  }

  /** Every row a runner holds may run. */
  ghost predicate Gated(t: Table) {
    forall id :: id in t && Busy(t[id]) ==> Runnable(t, id)
  }

  /** No row is left waiting for the rule. */
  ghost predicate Settled(t: Table) {
    forall id :: !SkipByRule(t, id)
  }

  ghost predicate RunAgrees(t: Table, runs: map<RunId, Status>, run: RunId) {
    && run in runs
    && (IsTerminal(runs[run]) <==> RunDone(t, run))
    && (RunDone(t, run) ==> runs[run] == RollUp(t, run))
  }

  ghost predicate RunsAgree(t: Table, runs: map<RunId, Status>) {
    forall id :: id in t ==> RunAgrees(t, runs, t[id].run)
  }

  ghost predicate HeldWithin(t: Table, drawn: set<LeaseId>) {
    forall id, l :: Holds(t, id, l) ==> l in drawn
  }

  ghost predicate Inv(s: State, drawn: set<LeaseId>) {
    && Shape(s.rows) && UniqueLeases(s.rows) && HeldWithin(s.rows, drawn)
    && Gated(s.rows) && Settled(s.rows) && RunsAgree(s.rows, s.runs)
  }

  /* ---------- steps that end no row ---------- */

  /** b changes no terminal status of a, requeues only leased rows and starts only leasable ones. */
  ghost predicate Quiet(a: Table, b: Table) {
    && Older(a, b) && Older(b, a)
    && (forall id :: id in a && b[id].status == Queued ==> a[id].status == Queued || a[id].status == Leased)
    && (forall id :: id in a && Busy(b[id]) ==> Busy(a[id]) || Leasable(a, id))
  }

  lemma QuietKeeps(a: Table, b: Table, runs: map<RunId, Status>)
    requires Gated(a) && Settled(a) && RunsAgree(a, runs) && Quiet(a, b)
    ensures Gated(b) && Settled(b) && RunsAgree(b, runs)
  {
    hide RuleApplies, Runnable, RunAgrees;
    forall id | id in b && Busy(b[id]) ensures Runnable(b, id) {
      RunnableIsStable(a, b, id);
    }
    forall id ensures !SkipByRule(b, id) {
      if id in a && b[id].status == Queued {
        RuleIsSame(a, b, id);
        RuleExcludesRun(a, id);
        assert !SkipByRule(a, id);
      }
    }
    forall id | id in b ensures RunAgrees(b, runs, b[id].run) {
      assert SamePlan(a[id], b[id]);
      SameStatusesAgree(a, b, runs, a[id].run);
    }
  }

  lemma RunnableIsStable(a: Table, b: Table, id: RowId)
    requires Older(a, b) && id in a && Runnable(a, id)
    ensures Runnable(b, id)
  {
    DecisionsAreStable(a, b, id);
  }

  lemma RuleIsSame(a: Table, b: Table, id: RowId)
    requires Older(a, b) && Older(b, a) && id in a
    ensures RuleApplies(a, id) <==> RuleApplies(b, id)
  {
    DecisionsAreStable(a, b, id);
    DecisionsAreStable(b, a, id);
  }

  lemma RuleExcludesRun(t: Table, id: RowId)
    requires id in t
    ensures !(RuleApplies(t, id) && Runnable(t, id))
  {
  }

  lemma SameStatusesAgree(a: Table, b: Table, runs: map<RunId, Status>, run: RunId)
    requires Older(a, b) && Older(b, a) && RunAgrees(a, runs, run)
    ensures RunAgrees(b, runs, run)
  {
    assert forall id :: id in a ==> SamePlan(a[id], b[id]);
    assert RunDone(a, run) <==> RunDone(b, run);
    if RunDone(a, run) {
      RollUpIsStable(a, b, run);
    }
  }

  lemma RollUpIsStable(a: Table, b: Table, run: RunId)
    requires Older(a, b) && RunDone(a, run)
    ensures RunDone(b, run) && RollUp(b, run) == RollUp(a, run)
  {
    assert forall id :: id in a ==> SamePlan(a[id], b[id]);
    assert forall id :: id in a && a[id].run == run ==> b[id].status == a[id].status;
    if AnyRow(a, run, Failure) {
      var id :| id in a && a[id].run == run && a[id].status == Failure;
      assert b[id].status == Failure;
    }
    if AnyRow(b, run, Failure) {
      var id :| id in b && b[id].run == run && b[id].status == Failure;
      assert a[id].status == Failure;
    }
  }

  /** Row shape is kept, and every held lease is drawn and held once. */
  ghost predicate Tidy(t: Table, drawn: set<LeaseId>) {
    Shape(t) && UniqueLeases(t) && HeldWithin(t, drawn)
  }

  /* acquire */

  /** In a settled table acquire skips nothing: it leases the picked row or does nothing. */
  lemma AcquireWhenSettled(t: Table, r: RunnerId, l: LeaseId, ttl: Time, now: Time, clock: RowId -> Time)
    returns (got: Option<RowId>)
    requires Settled(t)
    ensures SkippedOnTheWay(t) == {}
    ensures got.None? ==> (forall id :: !Picked(t, id)) && AcquireRows(t, r, l, ttl, now, clock) == t
    ensures got.Some? ==>
        Picked(t, got.value) && AcquireRows(t, r, l, ttl, now, clock) == Lease(t, got.value, l, r, now + ttl, now)
    ensures got.Some? ==> forall id :: Picked(t, id) ==> id == got.value
  {
    hide SkipByRule, Leasable, InBatch;
    assert SkippedOnTheWay(t) == {};
    assert SkipAll(t, {}, clock) == t;
    if id: RowId :| Picked(t, id) {
      assert forall k :: Picked(t, k) ==> k == id;
      got := Some(id);
    } else {
      got := None;
    }
  }

  lemma LeaseIsQuiet(t: Table, id: RowId, l: LeaseId, r: RunnerId, d: Time, now: Time)
    requires Leasable(t, id)
    ensures Quiet(t, Lease(t, id, l, r, d, now))
  {
    hide Runnable;
  }

  lemma LeaseIsTidy(t: Table, id: RowId, l: LeaseId, r: RunnerId, d: Time, now: Time, drawn: set<LeaseId>)
    requires Tidy(t, drawn) && l !in drawn && CanLease(t, id)
    ensures Tidy(Lease(t, id, l, r, d, now), drawn + {l})
  {
    var u := Lease(t, id, l, r, d, now);
    assert forall k, m :: Holds(u, k, m) ==> (k == id && m == l) || Holds(t, k, m);
  }

  /* report, heartbeat, tick */

  lemma StartIsQuiet(t: Table, id: RowId)
    ensures Quiet(t, TransitionStatus(t, id, Leased, Running))
  {
    hide Leasable;
  }

  lemma StartIsTidy(t: Table, id: RowId, drawn: set<LeaseId>)
    requires Tidy(t, drawn)
    ensures Tidy(TransitionStatus(t, id, Leased, Running), drawn)
  {
    assert forall k, m :: Holds(TransitionStatus(t, id, Leased, Running), k, m) <==> Holds(t, k, m);
  }

  lemma TickIsQuiet(t: Table, now: Time)
    ensures Quiet(t, RequeueExpired(t, now))
  {
    hide Leasable;
  }

  lemma TickIsTidy(t: Table, now: Time, drawn: set<LeaseId>)
    requires Tidy(t, drawn)
    ensures Tidy(RequeueExpired(t, now), drawn)
  {
    assert forall k, m :: Holds(RequeueExpired(t, now), k, m) ==> Holds(t, k, m);
  }

  /** The row a heartbeat touches: one whose lease it names, held by the runner that sends it. */
  ghost predicate Renews(j: Job, runner: RunnerId, leases: seq<LeaseId>) {
    j.lease.Some? && j.lease.value in leases && j.runner == Some(runner)
  }

  ghost function Renewed(t: Table, runner: RunnerId, leases: seq<LeaseId>, d: Time): Table {
    map id | id in t :: if Renews(t[id], runner, leases) then t[id].(deadline := Some(d)) else t[id]
  }

  /** A heartbeat moves the deadlines of exactly the rows it names and owns, and nothing else. */
  lemma {:induction false} HeartbeatIsExact(t: Table, runner: RunnerId, leases: seq<LeaseId>, d: Time)
    requires UniqueLeases(t)
    ensures RenewAll(t, runner, leases, d) == Renewed(t, runner, leases, d)
  {
    if leases == [] {
      assert Renewed(t, runner, [], d) == t;
    } else {
      var rest, l := leases[..|leases| - 1], leases[|leases| - 1];
      HeartbeatIsExact(t, runner, rest, d);
      assert leases == rest + [l];
      RenewOneMore(t, runner, rest, l, d);
    }
  }

  lemma RenewOneMore(t: Table, runner: RunnerId, rest: seq<LeaseId>, l: LeaseId, d: Time)
    requires UniqueLeases(t)
    ensures RenewOwned(Renewed(t, runner, rest, d), runner, l, d) == Renewed(t, runner, rest + [l], d)
  {
    var u := Renewed(t, runner, rest, d);
    assert forall id, m :: Holds(u, id, m) <==> Holds(t, id, m);
    if OwnedBy(u, l, runner) {
      var h := HolderOf(u, l);
      assert forall id :: id in t && t[id].lease == Some(l) ==> id == h by {
        assert forall id :: id in t && t[id].lease == Some(l) ==> Holds(t, id, l);
      }
    } else {
      assert forall id :: id in t && t[id].lease == Some(l) ==> t[id].runner != Some(runner) by {
        forall id | id in t && t[id].lease == Some(l) ensures t[id].runner != Some(runner) {
          assert Holds(u, id, l) && HolderOf(u, l) == id;
        }
      }
    }
  }

  lemma HeartbeatIsQuiet(t: Table, runner: RunnerId, leases: seq<LeaseId>, d: Time)
    requires UniqueLeases(t)
    ensures Quiet(t, RenewAll(t, runner, leases, d))
  {
    hide Renewed, RenewAll, Quiet, UniqueLeases;
    HeartbeatIsExact(t, runner, leases, d);
    RenewedIsQuiet(t, runner, leases, d);
  }

  lemma RenewedIsQuiet(t: Table, runner: RunnerId, leases: seq<LeaseId>, d: Time)
    ensures Quiet(t, Renewed(t, runner, leases, d))
  {
    hide Leasable, Renews;
  }

  lemma HeartbeatIsTidy(t: Table, runner: RunnerId, leases: seq<LeaseId>, d: Time, drawn: set<LeaseId>)
    requires Tidy(t, drawn)
    ensures Tidy(RenewAll(t, runner, leases, d), drawn)
  {
    HeartbeatIsExact(t, runner, leases, d);
    assert forall k, m :: Holds(RenewAll(t, runner, leases, d), k, m) <==> Holds(t, k, m);
  }

  /* complete */

  ghost function Completed(j: Job, result: Status, now: Time): Job {
    j.(result := Some(result), finishedAt := Some(now), status := if IsTerminal(j.status) then j.status else result)
  }

  /** On a held row the three statements amount to one: a terminal status stays, any other becomes the result. */
  lemma CompleteRowIsExact(t: Table, id: RowId, result: Status, now: Time)
    requires Shape(t) && id in t && t[id].lease.Some? && IsTerminal(result)
    ensures CompleteRow(t, id, result, now) == t[id := Completed(t[id], result, now)]
  {
  }

  /** The table after a completion and the gating it triggers. */
  ghost function Ended(t: Table, id: RowId, result: Status, now: Time, clock: RowId -> Time): Table
    requires id in t
  {
    Gate(t[id := Completed(t[id], result, now)], t[id].run, clock)
  }

  lemma EndedAges(t: Table, id: RowId, result: Status, now: Time, clock: RowId -> Time)
    requires id in t && IsTerminal(result)
    ensures Older(t, Ended(t, id, result, now, clock))
  {
    hide Closure;
    var u := t[id := Completed(t[id], result, now)];
    UpdateAges(t, id, u[id]);
    SkipAllAges(u, Closure(u, t[id].run), clock);
    OlderTransitive(t, u, Gate(u, t[id].run, clock));
  }

  lemma ClosureIsInRun(t: Table, run: RunId)
    ensures forall id :: id in Closure(t, run) ==> id in t && t[id].run == run && t[id].status == Queued
  {
  }

  lemma EndedIsTidy(t: Table, id: RowId, result: Status, now: Time, clock: RowId -> Time, drawn: set<LeaseId>)
    requires Tidy(t, drawn) && id in t && t[id].lease.Some? && IsTerminal(result)
    ensures Tidy(Ended(t, id, result, now, clock), drawn)
  {
    hide Closure, UniqueLeases, HeldWithin, Shape;
    EndedSameHolders(t, id, result, now, clock);
    EndedIsShaped(t, id, result, now, clock);
    HoldersAreTidy(t, Ended(t, id, result, now, clock), drawn);
  }

  lemma EndedSameHolders(t: Table, id: RowId, result: Status, now: Time, clock: RowId -> Time)
    requires id in t
    ensures forall k, m :: Holds(Ended(t, id, result, now, clock), k, m) <==> Holds(t, k, m)
  {
    hide Closure;
  }

  lemma EndedIsShaped(t: Table, id: RowId, result: Status, now: Time, clock: RowId -> Time)
    requires Shape(t) && id in t && t[id].lease.Some? && IsTerminal(result)
    ensures Shape(Ended(t, id, result, now, clock))
  {
    hide Closure;
  }

  lemma HoldersAreTidy(t: Table, u: Table, drawn: set<LeaseId>)
    requires UniqueLeases(t) && HeldWithin(t, drawn) && forall k, m :: Holds(u, k, m) <==> Holds(t, k, m)
    ensures UniqueLeases(u) && HeldWithin(u, drawn)
  {
    hide Holds;
  }

  ghost predicate SameRun(a: Table, b: Table, run: RunId) {
    && a.Keys == b.Keys
    && (forall id :: id in a ==> a[id].run == b[id].run)
    && (forall id :: id in a && a[id].run == run ==> a[id] == b[id])
  }

  lemma RuleIsLocal(a: Table, b: Table, id: RowId)
    requires id in a && SameRun(a, b, a[id].run)
    ensures RuleApplies(a, id) <==> RuleApplies(b, id)
    ensures Runnable(a, id) <==> Runnable(b, id)
    ensures SkipByRule(a, id) <==> SkipByRule(b, id)
  {
    var run := a[id].run;
    assert forall k :: Needs(a, id, k) <==> Needs(b, id, k);
    assert forall k :: Blocking(a, id, k) <==> Blocking(b, id, k);
    forall name ensures HasRow(a, run, name) <==> HasRow(b, run, name) {
      if k :| k in a && a[k].run == run && a[k].jobId == name { assert b[k] == a[k]; }
      if k :| k in b && b[k].run == run && b[k].jobId == name { assert b[k] == a[k]; }
    }
  }

  lemma EndedElsewhere(t: Table, id: RowId, result: Status, now: Time, clock: RowId -> Time, run: RunId)
    requires id in t && t[id].run != run
    ensures SameRun(t, Ended(t, id, result, now, clock), run)
  {
    hide Closure;
    ClosureIsInRun(t[id := Completed(t[id], result, now)], t[id].run);
  }

  lemma EndedIsGated(t: Table, id: RowId, result: Status, now: Time, clock: RowId -> Time)
    requires Gated(t) && id in t && IsTerminal(result)
    ensures Gated(Ended(t, id, result, now, clock))
  {
    hide Closure, Runnable, Older;
    var b := Ended(t, id, result, now, clock);
    EndedAges(t, id, result, now, clock);
    forall k | k in b && Busy(b[k]) ensures Runnable(b, k) {
      assert Busy(t[k]);
      RunnableIsStable(t, b, k);
    }
  }

  lemma EndedIsSettled(t: Table, id: RowId, result: Status, now: Time, clock: RowId -> Time)
    requires Settled(t) && id in t
    ensures Settled(Ended(t, id, result, now, clock))
  {
    hide Closure, RuleApplies, SkipByRule, SameRun;
    var b := Ended(t, id, result, now, clock);
    var run := t[id].run;
    var u := t[id := Completed(t[id], result, now)];
    GateSettles(u, run, clock, clock);
    forall k ensures !SkipByRule(b, k) {
      if k in t && t[k].run != run {
        EndedElsewhere(t, id, result, now, clock, t[k].run);
        RuleIsLocal(t, b, k);
      } else if k !in t {
        NoRowNoRule(b, k);
      } else {
        assert u[k].run == run;
      }
    }
  }

  lemma NoRowNoRule(t: Table, k: RowId)
    requires k !in t
    ensures !SkipByRule(t, k)
  {
  }

  lemma SameRunAgrees(a: Table, b: Table, runs: map<RunId, Status>, run: RunId)
    requires SameRun(a, b, run) && RunAgrees(a, runs, run)
    ensures RunAgrees(b, runs, run)
  {
    assert RunDone(a, run) <==> RunDone(b, run);
    assert AnyRow(a, run, Failure) <==> AnyRow(b, run, Failure);
  }

  lemma EndedRunsAgree(t: Table, runs: map<RunId, Status>, id: RowId, result: Status, now: Time, clock: RowId -> Time)
    requires RunsAgree(t, runs) && id in t && IsTerminal(result)
    ensures var b := Ended(t, id, result, now, clock);
            RunsAgree(b, Finalize(b, runs, t[id].run))
  {
    hide Closure, SameRun, RollUp;
    var b := Ended(t, id, result, now, clock);
    var run := t[id].run;
    var runs' := Finalize(b, runs, run);
    EndedAges(t, id, result, now, clock);
    RollUpIsTerminal(b, run);
    assert RunAgrees(t, runs, run);
    assert RunDone(t, run) ==> RunDone(b, run) by {
      if RunDone(t, run) { RollUpIsStable(t, b, run); }
    }
    forall k | k in b ensures RunAgrees(b, runs', b[k].run) {
      assert SamePlan(t[k], b[k]) && RunAgrees(t, runs, t[k].run);
      if t[k].run != run {
        EndedElsewhere(t, id, result, now, clock, t[k].run);
        SameRunAgrees(t, b, runs, t[k].run);
      }
    }
  }

  lemma RollUpIsTerminal(t: Table, run: RunId)
    ensures IsTerminal(RollUp(t, run))
  {
  }

  /* ---------- every run ---------- */

  lemma CompleteUnfolds(s: State, e: Event)
    requires e.Complete? && Shape(s.rows) && UniqueLeases(s.rows)
    ensures Handlers.Complete(s, e.lease, e.phase, e.outs, e.now, e.clock) == s
      || exists id :: Ends(s, e, id)
  {
    if Held(s.rows, e.lease) && PhaseToStatus(e.phase).Some? && IsTerminal(PhaseToStatus(e.phase).value) {
      var id := HolderOf(s.rows, e.lease);
      CompleteRowIsExact(s.rows, id, PhaseToStatus(e.phase).value, e.now);
      assert Ends(s, e, id);
    }
  }

  /** The completion e is accepted for row id in s. */
  ghost predicate Ends(s: State, e: Event, id: RowId) {
    && e.Complete? && Holds(s.rows, id, e.lease)
    && PhaseToStatus(e.phase).Some? && IsTerminal(PhaseToStatus(e.phase).value)
    && var t := Ended(s.rows, id, PhaseToStatus(e.phase).value, e.now, e.clock);
       Handlers.Complete(s, e.lease, e.phase, e.outs, e.now, e.clock) ==
       s.(rows := t, runs := Finalize(t, s.runs, s.rows[id].run),
          outputs := if e.outs == map[] then s.outputs else s.outputs[id := OutputsOf(s.outputs, id) + e.outs])
  }

  lemma AcceptedEnds(s: State, e: Event, id: RowId)
    requires Shape(s.rows) && UniqueLeases(s.rows) && e.Complete? && Holds(s.rows, id, e.lease)
    requires PhaseToStatus(e.phase).Some? && IsTerminal(PhaseToStatus(e.phase).value)
    ensures Ends(s, e, id)
  {
    hide Gate, Finalize;
    assert Held(s.rows, e.lease) && HolderOf(s.rows, e.lease) == id;
    CompleteRowIsExact(s.rows, id, PhaseToStatus(e.phase).value, e.now);
  }

  lemma CompleteKeepsInv(s: State, e: Event, drawn: set<LeaseId>)
    requires Inv(s, drawn) && e.Complete?
    ensures Inv(Handlers.Complete(s, e.lease, e.phase, e.outs, e.now, e.clock), drawn)
  {
    hide Handlers.Complete, Ended, Shape, UniqueLeases, HeldWithin, Gated, Settled, RunsAgree, Finalize;
    CompleteUnfolds(s, e);
    if id: RowId :| Ends(s, e, id) {
      var result := PhaseToStatus(e.phase).value;
      EndedIsTidy(s.rows, id, result, e.now, e.clock, drawn);
      EndedIsGated(s.rows, id, result, e.now, e.clock);
      EndedIsSettled(s.rows, id, result, e.now, e.clock);
      EndedRunsAgree(s.rows, s.runs, id, result, e.now, e.clock);
    }
  }

  lemma NextKeepsInv(s: State, e: Event, ttl: Time, drawn: set<LeaseId>)
    requires Inv(s, drawn) && (e.Acquire? ==> e.lease !in drawn)
    ensures Inv(Next(s, e, ttl), drawn + if e.Acquire? then {e.lease} else {})
  {
    hide Shape, UniqueLeases, HeldWithin, Gated, Settled, RunsAgree, Quiet, AcquireRows, RenewAll, RequeueExpired,
         SkippedOnTheWay, Picked, TransitionStatus, Handlers.Complete;
    var t := s.rows;
    match e
    case Acquire(r, l, now, clock) =>
      var got := AcquireWhenSettled(t, r, l, ttl, now, clock);
      if got.Some? {
        PickedIsLeasable(t, got.value);
        LeaseIsQuiet(t, got.value, l, r, now + ttl, now);
        LeaseIsTidy(t, got.value, l, r, now + ttl, now, drawn);
        QuietKeeps(t, Next(s, e, ttl).rows, s.runs);
      } else {
        HeldGrows(t, drawn, drawn + {l});
      }
    case Report(l, u) =>
      if Held(t, l) {
        var id := HolderOf(t, l);
        StartIsQuiet(t, id);
        StartIsTidy(t, id, drawn);
        QuietKeeps(t, TransitionStatus(t, id, Leased, Running), s.runs);
      }
      HeldGrows(t, drawn, drawn + {});
      assert drawn + {} == drawn;
    case Complete(l, p, outs, now, clock) =>
      CompleteKeepsInv(s, e, drawn);
      assert drawn + {} == drawn;
    case Heartbeat(r, ls, now) =>
      HeartbeatIsQuiet(t, r, ls, now + ttl);
      HeartbeatIsTidy(t, r, ls, now + ttl, drawn);
      QuietKeeps(t, RenewAll(t, r, ls, now + ttl), s.runs);
      assert drawn + {} == drawn;
    case Tick(now) =>
      TickIsQuiet(t, now);
      TickIsTidy(t, now, drawn);
      QuietKeeps(t, RequeueExpired(t, now), s.runs);
      assert drawn + {} == drawn;
  }

  lemma PickedIsLeasable(t: Table, id: RowId)
    requires Picked(t, id)
    ensures Leasable(t, id) && CanLease(t, id)
  {
  }

  lemma HeldGrows(t: Table, a: set<LeaseId>, b: set<LeaseId>)
    requires HeldWithin(t, a) && a <= b
    ensures HeldWithin(t, b)
  {
  }
}
