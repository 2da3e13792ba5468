/** The dispatcher with its calls interleaved: every SQL statement on the jobs table is one atomic
    step, and between two statements of one call any other call may run (internal/dispatch/queue.go,
    internal/dispatch/service.go, internal/store/job_store.go).

    A call that has read rows keeps them as a snapshot, however old.  A snapshot is stored as the
    whole table at the time of the read; the rule only ever looks at rows of one run in it. */
module Interleaving {
  import opened Jobs
  import opened Gating
  import opened JobStore
  import opened Handlers

  type Pid = nat

  /** The results the runners of a row may report; every completion is free to report any of them. */
  type Outcomes = RowId -> set<Status>

  /** Any report at all. */
  const ANY: Outcomes := (_: RowId) => {Success, Failure, Skipped, Cancelled}

  /** Every completion of a row reports the one result given for it. */
  function Only(f: RowId -> Status): Outcomes {
    (id: RowId) => {f(id)}
  }

  /** Where a call stands between two of its statements. */
  datatype Call =
    /** acquireOneQueuedJob: candidates still to look at, runs read so far. */
    | Acquiring(runner: RunnerId, todo: seq<RowId>, cache: map<RunId, Table>)
    /** skipJob after its transition won: the result is still to be written. */
    | Stamping(id: RowId, next: Call)
    /** gateRun about to read the run. */
    | Gating(run: RunId)
    /** gateRun scanning the rows it read. */
    | Scanning(run: RunId, snap: Table, todo: seq<RowId>, progressed: bool)
    /** finalizeRunIfComplete about to read the run. */
    | Closing(run: RunId)
    /** finalizeRunIfComplete with every row it read ended: the roll-up is still to be written. */
    | RollingUp(run: RunId, status: Status)
    /** CompleteJob after resolving its lease: statements written so far. */
    | Completing(id: RowId, lease: LeaseId, result: Status, written: nat)
    /** ReportStatus after resolving its lease. */
    | Reporting(id: RowId, lease: LeaseId)
    /** renewActiveLeases after resolving and checking one lease. */
    | Renewing(lease: LeaseId, deadline: Time)
    | Done

  /** granted and requeued record, for every lease id ever granted, its row and runner, and whether
      the reaper took it back. */
  datatype World = World(
    rows: Table, runs: map<RunId, Status>, calls: map<Pid, Call>, granted: map<LeaseId, (RowId, RunnerId)>,
    requeued: set<LeaseId>)

  datatype Action =
    | BeginAcquire(p: Pid, runner: RunnerId, todo: seq<RowId>)
    | BeginComplete(p: Pid, id: RowId, lease: LeaseId, result: Status)
    | BeginReport(p: Pid, id: RowId, lease: LeaseId)
    | BeginRenew(p: Pid, id: RowId, lease: LeaseId, runner: RunnerId, deadline: Time)
    | Reap(now: Time)
    | ReadRun(p: Pid)
    | PassOver(p: Pid)
    | TrySkip(p: Pid)
    | TryLease(p: Pid, lease: LeaseId, deadline: Time, now: Time)
    | Stamp(p: Pid, now: Time)
    | ScanRun(p: Pid, todo: seq<RowId>)
    | EndScan(p: Pid)
    | ReadFinal(p: Pid)
    | SetRun(p: Pid)
    | Write(p: Pid, now: Time)

  /* ---------- decisions on what a call has read ---------- */

  /** The candidate's own columns in the decision are the immutable ones. */
  ghost predicate HasRead(c: Call, t: Table, id: RowId) {
    id in t && (c.Acquiring? ==> t[id].needs == [] || t[id].run in c.cache)
  }

  ghost function View(c: Call, t: Table, id: RowId): Table
    requires HasRead(c, t, id) && (c.Acquiring? || c.Scanning?) && (c.Acquiring? ==> t[id].needs != [])
  {
    if c.Acquiring? then c.cache[t[id].run] else c.snap
  }

  ghost predicate Todo(c: Call) {
    (c.Acquiring? || c.Scanning?) && c.todo != []
  }

  function Tail(c: Call): Call
    requires (c.Acquiring? || c.Scanning?) && c.todo != []
  {
    c.(todo := c.todo[1..])
  }

  /** The call decides that its next row must be skipped. */
  ghost predicate DecidesSkip(c: Call, t: Table) {
    && Todo(c) && HasRead(c, t, c.todo[0]) && t[c.todo[0]].needs != []
    && var v := View(c, t, c.todo[0]);
       c.todo[0] in v && (c.Scanning? ==> v[c.todo[0]].status == Queued) && RuleApplies(v, c.todo[0])
  }

  /** The call decides that its next row may be leased. */
  ghost predicate DecidesLease(c: Call, t: Table) {
    && Todo(c) && c.Acquiring? && HasRead(c, t, c.todo[0])
    && (t[c.todo[0]].needs == [] ||
        var v := View(c, t, c.todo[0]); c.todo[0] in v && Runnable(v, c.todo[0]))
  }

  /* ---------- the steps ---------- */

  /** ListQueuedJobs as acquire calls it: the first ten queued rows by id, in ascending order. */
  ghost predicate ListsBatch(ids: seq<RowId>, t: Table) {
    && (forall id :: id in ids <==> InBatch(t, CANDIDATE_BATCH_SIZE, id))
    && (forall i, j :: 0 <= i < j < |ids| ==> ids[i] < ids[j])
  }

  /** rho says what completions may report. */
  ghost predicate Enabled(w: World, a: Action, rho: Outcomes) {
    match a
    case BeginAcquire(p, r, todo) => p !in w.calls && ListsBatch(todo, w.rows)
    case BeginComplete(p, id, l, result) =>
        p !in w.calls && Holds(w.rows, id, l) && result in rho(id) && IsTerminal(result)
    case BeginReport(p, id, l) => p !in w.calls && Holds(w.rows, id, l)
    case BeginRenew(p, id, l, r, d) => p !in w.calls && Holds(w.rows, id, l) && w.rows[id].runner == Some(r)
    case Reap(now) => true
    case ReadRun(p) => p in w.calls && w.calls[p].Acquiring? && w.calls[p].todo != [] && w.calls[p].todo[0] in w.rows
    case PassOver(p) => p in w.calls && Todo(w.calls[p]) && HasRead(w.calls[p], w.rows, w.calls[p].todo[0])
        && !DecidesSkip(w.calls[p], w.rows) && !DecidesLease(w.calls[p], w.rows)
    case TrySkip(p) => p in w.calls && DecidesSkip(w.calls[p], w.rows)
    case TryLease(p, l, d, now) => p in w.calls && DecidesLease(w.calls[p], w.rows) && l !in w.granted
    case Stamp(p, now) => p in w.calls && w.calls[p].Stamping?
    case ScanRun(p, todo) => p in w.calls && w.calls[p].Gating?
        && forall id :: id in todo <==> id in w.rows && w.rows[id].run == w.calls[p].run
    case EndScan(p) => p in w.calls && w.calls[p].Scanning? && w.calls[p].todo == []
    case ReadFinal(p) => p in w.calls && w.calls[p].Closing?
    case SetRun(p) => p in w.calls && w.calls[p].RollingUp?
    case Write(p, now) => p in w.calls && (w.calls[p].Completing? || w.calls[p].Reporting? || w.calls[p].Renewing?)
  }

  /** The statements of CompleteJob in order, then gateRun of the row's run. */
  function WriteRows(t: Table, c: Call, now: Time): Table {
    match c
    case Completing(id, _, result, 0) => SetResult(t, id, result, now)
    case Completing(id, _, _, 1) => TransitionStatus(t, id, Leased, Running)
    case Completing(id, _, result, _) => TransitionStatus(t, id, Running, result)
    case Reporting(id, _) => TransitionStatus(t, id, Leased, Running)
    case Renewing(l, d) => RenewLease(t, l, d)
    case _ => t
  }

  function AfterWrite(t: Table, c: Call): Call {
    if c.Completing? && c.written < 2 then c.(written := c.written + 1)
    else if c.Completing? && c.id in t then Gating(t[c.id].run)
    else Done
  }

  function EndedScan(c: Call): Call
    requires c.Scanning?
  {
    if c.progressed then Gating(c.run) else Closing(c.run)
  }

  ghost function FinalRead(t: Table, run: RunId): Call {
    if RunDone(t, run) then RollingUp(run, RollUp(t, run)) else Done
  }

  ghost function Skipping(w: World, p: Pid): World
    requires p in w.calls && Todo(w.calls[p])
  {
    var c := w.calls[p];
    var id := c.todo[0];
    if CanTransition(w.rows, id, Queued, Skipped)
    then w.(rows := TransitionStatus(w.rows, id, Queued, Skipped),
            calls := w.calls[p := Stamping(id, if c.Scanning? then Tail(c).(progressed := true) else Tail(c))])
    else w.(calls := w.calls[p := Tail(c)])
  }

  ghost function Leasing(w: World, p: Pid, lease: LeaseId, d: Time, now: Time): World
    requires p in w.calls && w.calls[p].Acquiring? && w.calls[p].todo != []
  {
    var c := w.calls[p];
    var id := c.todo[0];
    if CanLease(w.rows, id)
    then w.(rows := Lease(w.rows, id, lease, c.runner, d, now), calls := w.calls[p := Done],
            granted := w.granted[lease := (id, c.runner)])
    else w.(calls := w.calls[p := Tail(c)])
  }

  ghost function TakenBack(t: Table, now: Time): set<LeaseId> {
    set id | id in t && Expired(t[id], now) && t[id].lease.Some? :: t[id].lease.value
  }

  ghost function Apply(w: World, a: Action, rho: Outcomes): World
    requires Enabled(w, a, rho)
  {
    match a
    case BeginAcquire(p, r, todo) => w.(calls := w.calls[p := Acquiring(r, todo, map[])])
    case BeginComplete(p, id, l, result) => w.(calls := w.calls[p := Completing(id, l, result, 0)])
    case BeginReport(p, id, l) => w.(calls := w.calls[p := Reporting(id, l)])
    case BeginRenew(p, id, l, r, d) => w.(calls := w.calls[p := Renewing(l, d)])
    case Reap(now) => w.(rows := RequeueExpired(w.rows, now), requeued := w.requeued + TakenBack(w.rows, now))
    case ReadRun(p) =>
      var c := w.calls[p];
      var run := w.rows[c.todo[0]].run;
      w.(calls := w.calls[p := c.(cache := if run in c.cache then c.cache else c.cache[run := w.rows])])
    case PassOver(p) => w.(calls := w.calls[p := Tail(w.calls[p])])
    case TrySkip(p) => Skipping(w, p)
    case TryLease(p, l, d, now) => Leasing(w, p, l, d, now)
    case Stamp(p, now) =>
      w.(rows := SetResult(w.rows, w.calls[p].id, Skipped, now), calls := w.calls[p := w.calls[p].next])
    case ScanRun(p, todo) => w.(calls := w.calls[p := Scanning(w.calls[p].run, w.rows, todo, false)])
    case EndScan(p) => w.(calls := w.calls[p := EndedScan(w.calls[p])])
    case ReadFinal(p) => w.(calls := w.calls[p := FinalRead(w.rows, w.calls[p].run)])
    case SetRun(p) =>
      w.(runs := SetRunStatus(w.runs, w.calls[p].run, w.calls[p].status), calls := w.calls[p := Done])
    case Write(p, now) =>
      w.(rows := WriteRows(w.rows, w.calls[p], now), calls := w.calls[p := AfterWrite(w.rows, w.calls[p])])
  }

  /** ws is a run: it starts planned, and each world follows from the one before by one step. */
  ghost predicate IsRun(ws: seq<World>, rho: Outcomes) {
    && |ws| > 0 && Fresh(ws[0])
    && forall i :: 0 <= i < |ws| - 1 ==> Follows(ws[i], ws[i + 1], rho)
  }

  ghost predicate Follows(w: World, w': World, rho: Outcomes) {
    exists a :: Enabled(w, a, rho) && w' == Apply(w, a, rho)
  }

  /** Every row queued and without a result, its run known and open, and no call under way. */
  ghost predicate Fresh(w: World) {
    && Keyed(w.rows)
    && (forall id :: id in w.rows ==>
        w.rows[id].status == Queued && w.rows[id].lease == None && w.rows[id].result == None)
    && (forall id :: id in w.rows ==> w.rows[id].run in w.runs && !IsTerminal(w.runs[w.rows[id].run]))
    && w.calls == map[] && w.granted == map[] && w.requeued == {}
  }

  /* ---------- building runs ---------- */

  ghost predicate Reaches(ws: seq<World>, start: World, rho: Outcomes, w: World) {
    IsRun(ws, rho) && ws[0] == start && ws[|ws| - 1] == w
  }

  lemma StartsRun(w: World, rho: Outcomes)
    requires Fresh(w)
    ensures Reaches([w], w, rho, w)
  {
  }

  lemma Extend(ws: seq<World>, start: World, rho: Outcomes, w: World, a: Action) returns (more: seq<World>)
    requires Reaches(ws, start, rho, w) && Enabled(w, a, rho)
    ensures Reaches(more, start, rho, Apply(w, a, rho)) && more == ws + [Apply(w, a, rho)]
  {
    hide Enabled, Apply, Fresh;
    more := ws + [Apply(w, a, rho)];
    assert Follows(w, Apply(w, a, rho), rho);
    forall i | 0 <= i < |more| - 1 ensures Follows(more[i], more[i + 1], rho) {
      if i < |ws| - 1 { assert Follows(ws[i], ws[i + 1], rho); }
    }
  }

  /** Ids not in use yet. */
  lemma {:induction false} Unused(s: set<nat>) returns (n: nat)
    ensures forall k :: k in s ==> k < n
  {
    if s == {} {
      n := 0;
    } else {
      var k :| k in s;
      var m := Unused(s - {k});
      n := if k < m then m else k + 1;
      assert forall j :: j in s ==> j == k || j in s - {k};
    }
  }

  /** The single steps, with the world each of them leaves. */
  lemma Begins(ws: seq<World>, start: World, rho: Outcomes, w: World, p: Pid, r: RunnerId, todo: seq<RowId>)
    returns (more: seq<World>, u: World)
    requires Reaches(ws, start, rho, w) && p !in w.calls && ListsBatch(todo, w.rows)
    ensures Reaches(more, start, rho, u) && u == w.(calls := w.calls[p := Acquiring(r, todo, map[])])
  {
    hide Reaches, ListsBatch;
    more := Extend(ws, start, rho, w, BeginAcquire(p, r, todo));
    u := Apply(w, BeginAcquire(p, r, todo), rho);
  }

  lemma Completes(ws: seq<World>, start: World, rho: Outcomes, w: World, p: Pid, id: RowId, l: LeaseId,
                  result: Status)
    returns (more: seq<World>, u: World)
    requires Reaches(ws, start, rho, w) && p !in w.calls && Holds(w.rows, id, l)
    requires result in rho(id) && IsTerminal(result)
    ensures Reaches(more, start, rho, u) && u == w.(calls := w.calls[p := Completing(id, l, result, 0)])
  {
    hide Reaches;
    more := Extend(ws, start, rho, w, BeginComplete(p, id, l, result));
    u := Apply(w, BeginComplete(p, id, l, result), rho);
  }

  lemma Reads(ws: seq<World>, start: World, rho: Outcomes, w: World, p: Pid)
    returns (more: seq<World>, u: World)
    requires Reaches(ws, start, rho, w) && Enabled(w, ReadRun(p), rho)
    ensures Reaches(more, start, rho, u)
    ensures var c := w.calls[p]; var run := w.rows[c.todo[0]].run;
      u == w.(calls := w.calls[p := if run in c.cache then c else c.(cache := c.cache[run := w.rows])])
  {
    hide Reaches;
    more := Extend(ws, start, rho, w, ReadRun(p));
    u := Apply(w, ReadRun(p), rho);
  }

  lemma Passes(ws: seq<World>, start: World, rho: Outcomes, w: World, p: Pid)
    returns (more: seq<World>, u: World)
    requires Reaches(ws, start, rho, w) && p in w.calls && Todo(w.calls[p])
    requires HasRead(w.calls[p], w.rows, w.calls[p].todo[0])
    requires !DecidesSkip(w.calls[p], w.rows) && !DecidesLease(w.calls[p], w.rows)
    ensures Reaches(more, start, rho, u) && u == w.(calls := w.calls[p := Tail(w.calls[p])])
  {
    hide Reaches, DecidesSkip, DecidesLease;
    more := Extend(ws, start, rho, w, PassOver(p));
    u := Apply(w, PassOver(p), rho);
  }

  lemma Leases(ws: seq<World>, start: World, rho: Outcomes, w: World, p: Pid, l: LeaseId, d: Time, now: Time)
    returns (more: seq<World>, u: World)
    requires Reaches(ws, start, rho, w) && p in w.calls && DecidesLease(w.calls[p], w.rows) && l !in w.granted
    requires CanLease(w.rows, w.calls[p].todo[0])
    ensures Reaches(more, start, rho, u)
    ensures var c := w.calls[p];
      u == w.(rows := Lease(w.rows, c.todo[0], l, c.runner, d, now), calls := w.calls[p := Done],
              granted := w.granted[l := (c.todo[0], c.runner)])
  {
    hide Reaches, Runnable;
    more := Extend(ws, start, rho, w, TryLease(p, l, d, now));
    u := Apply(w, TryLease(p, l, d, now), rho);
  }

  /** skipJob without interruption: the call decides to skip its next row, and stamps it. */
  lemma Skips(ws: seq<World>, start: World, rho: Outcomes, w: World, p: Pid, now: Time)
    returns (more: seq<World>, u: World)
    requires Reaches(ws, start, rho, w) && p in w.calls && DecidesSkip(w.calls[p], w.rows)
    requires CanTransition(w.rows, w.calls[p].todo[0], Queued, Skipped)
    ensures Reaches(more, start, rho, u)
    ensures var c := w.calls[p];
      u == w.(rows := SkipJob(w.rows, c.todo[0], now),
              calls := w.calls[p := if c.Scanning? then Tail(c).(progressed := true) else Tail(c)])
  {
    hide Reaches, RuleApplies;
    more := Extend(ws, start, rho, w, TrySkip(p));
    u := Apply(w, TrySkip(p), rho);
    more := Extend(more, start, rho, u, Stamp(p, now));
    u := Apply(u, Stamp(p, now), rho);
  }

  /** skipJob after another call moved the row. */
  lemma SkipLoses(ws: seq<World>, start: World, rho: Outcomes, w: World, p: Pid)
    returns (more: seq<World>, u: World)
    requires Reaches(ws, start, rho, w) && p in w.calls && DecidesSkip(w.calls[p], w.rows)
    requires !CanTransition(w.rows, w.calls[p].todo[0], Queued, Skipped)
    ensures Reaches(more, start, rho, u) && u == w.(calls := w.calls[p := Tail(w.calls[p])])
  {
    hide Reaches, RuleApplies;
    more := Extend(ws, start, rho, w, TrySkip(p));
    u := Apply(w, TrySkip(p), rho);
  }

  lemma Scans(ws: seq<World>, start: World, rho: Outcomes, w: World, p: Pid, run: RunId, todo: seq<RowId>)
    returns (more: seq<World>, u: World)
    requires Reaches(ws, start, rho, w) && p in w.calls && w.calls[p] == Call.Gating(run)
    requires forall id :: id in todo <==> id in w.rows && w.rows[id].run == run
    ensures Reaches(more, start, rho, u) && u == w.(calls := w.calls[p := Scanning(run, w.rows, todo, false)])
  {
    hide Reaches;
    more := Extend(ws, start, rho, w, ScanRun(p, todo));
    u := Apply(w, ScanRun(p, todo), rho);
  }

  lemma EndsScan(ws: seq<World>, start: World, rho: Outcomes, w: World, p: Pid)
    returns (more: seq<World>, u: World)
    requires Reaches(ws, start, rho, w) && p in w.calls && w.calls[p].Scanning? && w.calls[p].todo == []
    ensures Reaches(more, start, rho, u) && u == w.(calls := w.calls[p := EndedScan(w.calls[p])])
  {
    hide Reaches;
    more := Extend(ws, start, rho, w, EndScan(p));
    u := Apply(w, EndScan(p), rho);
  }

  lemma Closes(ws: seq<World>, start: World, rho: Outcomes, w: World, p: Pid, run: RunId)
    returns (more: seq<World>, u: World)
    requires Reaches(ws, start, rho, w) && p in w.calls && w.calls[p] == Closing(run)
    ensures Reaches(more, start, rho, u) && u == w.(calls := w.calls[p := FinalRead(w.rows, run)])
  {
    hide Reaches, FinalRead;
    more := Extend(ws, start, rho, w, ReadFinal(p));
    u := Apply(w, ReadFinal(p), rho);
  }

  lemma Writes(ws: seq<World>, start: World, rho: Outcomes, w: World, p: Pid, now: Time)
    returns (more: seq<World>, u: World)
    requires Reaches(ws, start, rho, w) && p in w.calls
    requires w.calls[p].Completing? || w.calls[p].Reporting? || w.calls[p].Renewing?
    ensures Reaches(more, start, rho, u) && more == ws + [u]
    ensures var c := w.calls[p];
      u == w.(rows := WriteRows(w.rows, c, now), calls := w.calls[p := AfterWrite(w.rows, c)])
  {
    hide Reaches, WriteRows, AfterWrite;
    more := Extend(ws, start, rho, w, Write(p, now));
    u := Apply(w, Write(p, now), rho);
  }
}
