/** The dispatcher (internal/dispatch/queue.go, internal/dispatch/service.go) over its stores. */
module Service {
  import opened Jobs
  import opened Gating
  import opened JobStore
  import opened Snapshots
  import opened NeedRow
  import opened Handlers
  import opened RunStatus

  /** workflow_runs, as far as the dispatcher writes it. */
  class RunStore {
    var status: map<RunId, Status>

    method SetRunStatus(run: RunId, s: Status) returns (found: bool)
      modifies this
      ensures found == (run in old(status)) && status == Handlers.SetRunStatus(old(status), run, s)
    {
      found := run in status;
      if found { status := status[run := s]; }
    }
  }

  /** job_outputs (internal/store/job_output_store.go). */
  class OutputStore {
    var byRow: map<RowId, Outputs>

    method UpsertOutput(id: RowId, key: string, value: string)
      modifies this
      ensures byRow == old(byRow)[id := OutputsOf(old(byRow), id)[key := value]]
    {
      byRow := byRow[id := OutputsOf(byRow, id)[key := value]];
    }

    method ListOutputs(id: RowId) returns (outs: Outputs)
      ensures outs == OutputsOf(byRow, id)
    {
      outs := map[];
      var rows := OutputsOf(byRow, id);
      var rest := rows.Keys;
      while rest != {}
        invariant rest <= rows.Keys && outs.Keys == rows.Keys - rest
        invariant forall k :: k in outs ==> outs[k] == rows[k]
        decreases rest
      {
        var k :| k in rest;
        rest := rest - {k};
        outs := outs[k := rows[k]];
      }
    }
  }

  /** steps (internal/store/step_store.go). */
  class StepStore {
    var rows: map<StepKey, Step>

    /** INSERT ... ON CONFLICT DO UPDATE: every column but the id of an existing row is overwritten. */
    method UpsertStep(key: StepKey, st: Step)
      modifies this
      ensures rows == old(rows)[key := if key in old(rows) then st.(id := old(rows)[key].id) else st]
    {
      rows := rows[key := if key in rows then st.(id := rows[key].id) else st];
    }

    /** ORDER BY step_index. */
    method ListStepsForJob(job: RowId) returns (found: seq<(int, Step)>)
      ensures forall p :: p in found <==> (job, p.0) in rows && rows[(job, p.0)] == p.1
      ensures forall i, j :: 0 <= i < j < |found| ==> found[i].0 < found[j].0
    {
      found := [];
      var rest := set k | k in rows && k.0 == job;
      while rest != {}
        invariant forall k :: k in rest ==> k in rows && k.0 == job
        invariant forall p :: p in found <==> (job, p.0) in rows && (job, p.0) !in rest && rows[(job, p.0)] == p.1
        invariant forall i, k :: 0 <= i < |found| && k in rest ==> found[i].0 < k.1
        invariant forall i, j :: 0 <= i < j < |found| ==> found[i].0 < found[j].0
        decreases rest
      {
        var k := LeastIndex(rest, job);
        rest := rest - {k};
        found := found + [(k.1, rows[k])];
      }
    }
  }

  method LeastIndex(s: set<StepKey>, job: RowId) returns (m: StepKey)
    requires s != {} && forall k :: k in s ==> k.0 == job
    ensures m in s && forall k :: k in s && k != m ==> m.1 < k.1
  {
    m :| m in s;
    var rest := s - {m};
    while rest != {}
      invariant m in s && rest <= s
      invariant forall k :: k in s && k !in rest && k != m ==> m.1 < k.1
      decreases rest
    {
      var k :| k in rest;
      rest := rest - {k};
      if k.1 < m.1 { m := k; }
    }
  }

  /** The times of the stored step with that index, none if there is none. */
  method CarriedTimes(existing: seq<(int, Step)>, index: int)
    returns (startedAt: Option<Time>, finishedAt: Option<Time>)
    requires forall i, j :: 0 <= i < j < |existing| ==> existing[i].0 != existing[j].0
    ensures forall p :: p in existing && p.0 == index ==> startedAt == p.1.startedAt && finishedAt == p.1.finishedAt
    ensures (forall p :: p in existing ==> p.0 != index) ==> startedAt == None && finishedAt == None
  {
    startedAt, finishedAt := None, None;
    for i := 0 to |existing|
      invariant forall j :: 0 <= j < i ==> existing[j].0 != index
      invariant startedAt == None && finishedAt == None
    {
      if existing[i].0 == index {
        return existing[i].1.startedAt, existing[i].1.finishedAt;
      }
    }
  }

  class Service {
    const jobs: Store
    const runs: RunStore
    const outputs: OutputStore
    const steps: StepStore
    const leaseTTL: Time

    /** HeartbeatIntervalSeconds * HeartbeatMissLimit. */
    constructor (jobs: Store, runs: RunStore, outputs: OutputStore, steps: StepStore, interval: nat, missLimit: nat)
      ensures this.jobs == jobs && this.runs == runs && this.outputs == outputs && this.steps == steps
      ensures leaseTTL == interval * missLimit
    {
      this.jobs, this.runs, this.outputs, this.steps := jobs, runs, outputs, steps;
      leaseTTL := interval * missLimit;
    }

    ghost function Db(): State
      reads this, jobs, runs, outputs, steps
    {
      State(jobs.rows, runs.status, outputs.byRow, steps.rows)
    }

    method SkipJob(id: RowId, finishedAt: Time) returns (ok: bool)
      modifies jobs
      ensures ok == old(CanTransition(jobs.rows, id, Queued, Skipped))
      ensures jobs.rows == Jobs.SkipJob(old(jobs.rows), id, finishedAt)
    {
      ok := jobs.TransitionStatus(id, Queued, Skipped);
      if ok {
        var _ := jobs.SetResult(id, Skipped, finishedAt);
      }
    }

    method ListGrouped(run: RunId) returns (listed: seq<Job>, g: Groups)
      requires Keyed(jobs.rows)
      ensures Loaded(listed, g, jobs.rows, run)
    {
      listed := jobs.ListJobsForRun(run);
      g := GroupJobsByJobID(listed);
      GroupsReflect(listed, g, jobs.rows, run);
    }

    /** The decision on one row, taken on rows read earlier, and the skip it may lead to. */
    method GateRow(j: Job, g: Groups, clock: RowId -> Time, ghost snap: Table, ghost asked: set<RowId>)
      returns (skipped: bool)
      requires Decides(j, g, snap, asked)
      modifies jobs
      ensures skipped <==> j.id in asked && old(CanTransition(jobs.rows, j.id, Queued, Skipped))
      ensures jobs.rows == if j.id in asked then Jobs.SkipJob(old(jobs.rows), j.id, clock(j.id)) else old(jobs.rows)
    {
      CheckIsExact(g, snap, j.id);
      if j.status != Queued || |j.needs| == 0 {
        return false;
      }
      var allTerminal, anyBlocking := NeedsSatisfied(j, g);
      if !allTerminal || !anyBlocking || !HasDefaultIfExpr(j) {
        return false;
      }
      skipped := SkipJob(j.id, clock(j.id));
    }

    /** One scan of gateRun: every decision is taken on the rows read at the start of the scan. */
    method GatePass(run: RunId, clock: RowId -> Time) returns (progressed: bool)
      requires Keyed(jobs.rows)
      modifies jobs
      ensures jobs.rows == SkipAll(old(jobs.rows), Asked(old(jobs.rows), run), clock)
      ensures progressed <==> Asked(old(jobs.rows), run) != {}
    {
      hide Asked, Reflects, ListsRun, Keyed;
      ghost var snap := jobs.rows;
      ghost var asked := Asked(snap, run);
      AskedRows(snap, run);
      var listed, g := ListGrouped(run);
      ListedRows(listed, g, snap, run);
      ghost var done: set<RowId> := {};
      assert SkipAll(snap, {}, clock) == snap;
      progressed := false;
      for i := 0 to |listed|
        invariant jobs.rows == SkipAll(snap, done, clock)
        invariant progressed <==> done != {}
        invariant done <= asked
        invariant forall j :: 0 <= j < i && listed[j].id in asked ==> listed[j].id in done
        invariant forall j :: i <= j < |listed| ==> listed[j].id !in done
      {
        var j := listed[i];
        if j.id in asked {
          SkipOneMore(snap, done, clock, j.id);
        }
        var ok := GateRow(j, g, clock, snap, asked);
        if ok {
          progressed := true;
          done := done + {j.id};
        }
      }
      forall id | id in asked ensures id in done {
        var i := RowIsListed(listed, g, snap, run, id);
      }
    }

    /** gateRun alone: skips exactly the least fixpoint of the rule, then rolls the run up. */
    method GateRun(run: RunId, clock: RowId -> Time) returns (changed: bool)
      requires Keyed(jobs.rows)
      modifies jobs, runs
      ensures jobs.rows == Gate(old(jobs.rows), run, clock)
      ensures runs.status == Finalize(jobs.rows, old(runs.status), run)
      ensures changed <==> Closure(old(jobs.rows), run) != {}
    {
      hide Asked, Closure;
      ghost var t, closure := jobs.rows, Closure(jobs.rows, run);
      ghost var done: set<RowId> := {};
      assert SkipAll(t, {}, clock) == t;
      changed := false;
      while true
        invariant Keyed(jobs.rows) && jobs.rows == SkipAll(t, done, clock) && done <= closure
        invariant changed <==> done != {}
        invariant runs.status == old(runs.status)
        decreases closure - done
      {
        ghost var asked := Asked(jobs.rows, run);
        ScanStaysInClosure(t, run, done, clock);
        SkipAllTwice(t, done, asked, clock);
        var progressed := GatePass(run, clock);
        if !progressed {
          SettledIsClosure(t, run, done, clock);
          assert jobs.rows == Gate(t, run, clock);
          break;
        }
        changed := true;
        done := done + asked;
      }
      assert jobs.rows == Gate(t, run, clock);
      FinalizeRunIfComplete(run);
    }

    method FinalizeRunIfComplete(run: RunId)
      requires Keyed(jobs.rows)
      modifies runs
      ensures runs.status == Finalize(jobs.rows, old(runs.status), run)
      ensures runs.status.Keys == old(runs.status).Keys
      ensures forall r :: r in runs.status && (r != run || !AllEnded(jobs.rows, run)) ==>
          runs.status[r] == old(runs.status)[r]
      ensures run in runs.status && AllEnded(jobs.rows, run) ==> ShowsRows(jobs.rows, run, runs.status[run])
    {
      hide ShowsRows, AllEnded;
      FinalizeIsExact(jobs.rows, runs.status, run);
      var listed := jobs.ListJobsForRun(run);
      var allSuccessOrSkipped, anyFailure := true, false;
      for i := 0 to |listed|
        invariant runs.status == old(runs.status)
        invariant forall j :: 0 <= j < i ==> IsTerminal(listed[j].status)
        invariant anyFailure <==> exists j :: 0 <= j < i && listed[j].status == Failure
        invariant allSuccessOrSkipped <==> forall j :: 0 <= j < i ==>
            listed[j].status == Success || listed[j].status == Skipped
      {
        var j := listed[i];
        if !IsTerminal(j.status) {
          assert !RunDone(jobs.rows, run);
          return;
        }
        if j.status == Failure {
          anyFailure := true;
        }
        if j.status != Success && j.status != Skipped {
          allSuccessOrSkipped := false;
        }
      }
      RollUpOfList(listed, jobs.rows, run);
      var status := if anyFailure then Failure else if allSuccessOrSkipped then Success else Cancelled;
      var _ := runs.SetRunStatus(run, status);
    }

    /* ---------- acquire ---------- */

    /** The run's rows, read at most once per acquire call. */
    method JobsByJobIDForRun(run: RunId, cache: map<RunId, Groups>, ghost t: Table)
      returns (g: Groups, cache': map<RunId, Groups>)
      requires Keyed(jobs.rows) && CacheOk(cache, t) && Agree(jobs.rows, t, cache.Keys)
      ensures CacheOk(cache', t) && cache'.Keys == cache.Keys + {run} && Reflects(g, t, run)
    {
      if run in cache {
        return cache[run], cache;
      }
      var listed;
      listed, g := ListGrouped(run);
      ReflectsOnAgreement(listed, g, jobs.rows, t, cache.Keys, run);
      cache' := cache[run := g];
    }

    /** What acquire decides about one candidate, and on which rows. */
    method CheckCandidate(c: Job, cache: map<RunId, Groups>, ghost t: Table)
      returns (v: Verdict, cache': map<RunId, Groups>)
      requires Keyed(jobs.rows) && CacheOk(cache, t) && Agree(jobs.rows, t, cache.Keys)
      requires c.id in t && t[c.id] == c && c.status == Queued
      ensures v == Verdict.Lease <==> Leasable(t, c.id)
      ensures v == Verdict.Skip <==> SkipByRule(t, c.id)
      ensures CacheOk(cache', t) && cache.Keys <= cache'.Keys && (v == Verdict.Skip ==> c.run in cache')
    {
      if |c.needs| == 0 {
        assert forall k :: !Needs(t, c.id, k);
        return Verdict.Lease, cache;
      }
      var g;
      g, cache' := JobsByJobIDForRun(c.run, cache, t);
      CheckIsExact(g, t, c.id);
      var allTerminal, anyBlocking := NeedsSatisfied(c, g);
      if !allTerminal {
        v := Verdict.Wait;
      } else if anyBlocking && HasDefaultIfExpr(c) {
        v := Verdict.Skip;
      } else {
        v := Verdict.Lease;
      }
    }

    /** acquireOneQueuedJob alone: leases the least leasable row if fewer than ten queued rows precede it. */
    method AcquireOneQueuedJob(runner: RunnerId, lease: LeaseId, now: Time, clock: RowId -> Time)
      returns (got: Option<Job>)
      requires Keyed(jobs.rows)
      modifies jobs
      ensures jobs.rows == AcquireRows(old(jobs.rows), runner, lease, leaseTTL, now, clock)
      ensures got.None? <==> forall id :: !Picked(old(jobs.rows), id)
      ensures got.Some? ==>
          Picked(old(jobs.rows), got.value.id) && got.value.id in jobs.rows && got.value == jobs.rows[got.value.id]
    {
      hide Picked, SkipByRule, Leasable, InBatch, ListsQueued, Reflects, AcquireRows, SkippedOnTheWay, CacheOk, Scanned;
      ghost var t := jobs.rows;
      var candidates := jobs.ListQueuedJobs(CANDIDATE_BATCH_SIZE);
      QueuedRows(candidates, t);
      var cache: map<RunId, Groups> := map[];
      ghost var done: set<RowId> := {};
      assert SkipAll(t, {}, clock) == t;
      EmptyCache(candidates, t);
      assert cache.Keys == {};
      for i := 0 to |candidates|
        invariant jobs.rows == SkipAll(t, done, clock) && CacheOk(cache, t)
        invariant Scanned(candidates, i, t, done, cache.Keys)
      {
        var c := candidates[i];
        SkipAllKeepsOthers(candidates, i, t, done, clock, cache.Keys);
        ghost var runs := cache.Keys;
        var v;
        v, cache := CheckCandidate(c, cache, t);
        ScanOne(candidates, i, t, done, runs, cache.Keys);
        if v == Verdict.Wait {
          continue;
        }
        if v == Verdict.Skip {
          SkipOneMore(t, done, clock, c.id);
          var _ := SkipJob(c.id, clock(c.id));
          done := done + {c.id};
          continue;
        }
        var ok := jobs.Lease(c.id, lease, runner, now + leaseTTL, now);
        if ok {
          AcquirePicks(candidates, i, t, done, runs, runner, lease, leaseTTL, now, clock);
          got := jobs.GetJob(c.id);
          return;
        }
      }
      AcquireFinds(candidates, t, done, cache.Keys, runner, lease, leaseTTL, now, clock);
      got := None;
    }

    /* ---------- runner calls ---------- */

    method WriteOutputs(id: RowId, outs: Outputs)
      modifies outputs
      ensures outputs.byRow == if outs == map[] then old(outputs.byRow)
              else old(outputs.byRow)[id := OutputsOf(old(outputs.byRow), id) + outs]
    {
      var rest := outs.Keys;
      ghost var before := OutputsOf(outputs.byRow, id);
      while rest != {}
        invariant rest <= outs.Keys
        invariant rest == outs.Keys ==> outputs.byRow == old(outputs.byRow)
        invariant rest != outs.Keys ==> outputs.byRow == old(outputs.byRow)[id := before + (outs - rest)]
        decreases rest
      {
        var k :| k in rest;
        assert before + (outs - (rest - {k})) == (before + (outs - rest))[k := outs[k]];
        assert rest == outs.Keys ==> before + (outs - rest) == before;
        rest := rest - {k};
        outputs.UpsertOutput(id, k, outs[k]);
      }
      assert outs - {} == outs;
    }

    /** CompleteJob alone; a stale lease is dropped, a non-terminal result is refused. */
    method CompleteJob(lease: LeaseId, phase: Phase, outs: Outputs, now: Time, clock: RowId -> Time)
      returns (accepted: bool)
      requires Keyed(jobs.rows) && UniqueLeases(jobs.rows)
      modifies jobs, runs, outputs
      ensures Db() == Complete(old(Db()), lease, phase, outs, now, clock)
      ensures accepted <==>
          Held(old(jobs.rows), lease) && phase in {Succeeded, Failed, SkippedPhase, CancelledPhase}
    {
      hide Gate, Finalize, UniqueLeases, Keyed, CompleteRow;
      var job := ResolveLeaseJob(lease);
      if job.None? {
        return false;
      }
      var result := PhaseToStatus(phase);
      if result.None? || !IsTerminal(result.value) {
        return false;
      }
      var id, run := job.value.id, job.value.run;
      RecordResult(id, result.value, now);
      WriteOutputs(id, outs);
      var _ := GateRun(run, clock);
      accepted := true;
    }

    /** The three statements that end a row; a transition that does not apply is ignored. */
    method RecordResult(id: RowId, result: Status, now: Time)
      requires Keyed(jobs.rows)
      modifies jobs
      ensures jobs.rows == CompleteRow(old(jobs.rows), id, result, now) && Keyed(jobs.rows)
    {
      var _ := jobs.SetResult(id, result, now);
      var _ := jobs.TransitionStatus(id, Leased, Running);
      var _ := jobs.TransitionStatus(id, Running, result);
    }

    method ResolveLeaseJob(lease: LeaseId) returns (job: Option<Job>)
      requires Keyed(jobs.rows) && UniqueLeases(jobs.rows)
      ensures job.Some? <==> Held(jobs.rows, lease)
      ensures job.Some? ==> job.value.id == HolderOf(jobs.rows, lease) && job.value == jobs.rows[job.value.id]
    {
      job := jobs.GetByLease(lease);
    }

    /** ReportStatus alone. */
    method ReportStatus(lease: LeaseId, u: Update) returns (accepted: bool)
      requires Keyed(jobs.rows) && UniqueLeases(jobs.rows)
      modifies jobs, steps
      ensures Db() == Report(old(Db()), lease, u)
      ensures accepted <==> Held(old(jobs.rows), lease) && u.phase != Unspecified
    {
      var job := ResolveLeaseJob(lease);
      if job.None? {
        return false;
      }
      var status := PhaseToStatus(u.phase);
      if status.None? {
        return false;
      }
      var id := job.value.id;
      if u.stepLevel {
        var existing := steps.ListStepsForJob(id);
        var startedAt, finishedAt := CarriedTimes(existing, u.index);
        assert (id, u.index) in steps.rows ==> (u.index, steps.rows[(id, u.index)]) in existing;
        if status.value == Running && startedAt.None? {
          startedAt := Some(u.ts);
        }
        if IsTerminal(status.value) {
          finishedAt := Some(u.ts);
        }
        steps.UpsertStep((id, u.index), Step(u.freshId, u.name, status.value, startedAt, finishedAt));
      }
      if status.value == Running {
        var _ := jobs.TransitionStatus(id, Leased, Running);
      }
      accepted := true;
    }

    /** renewActiveLeases: only leases the runner holds are renewed. */
    method RenewActiveLeases(runner: RunnerId, leases: seq<LeaseId>, now: Time)
      requires Keyed(jobs.rows) && UniqueLeases(jobs.rows)
      modifies jobs
      ensures jobs.rows == RenewAll(old(jobs.rows), runner, leases, now + leaseTTL)
    {
      var deadline := now + leaseTTL;
      for i := 0 to |leases|
        invariant Keyed(jobs.rows) && UniqueLeases(jobs.rows)
        invariant jobs.rows == RenewAll(old(jobs.rows), runner, leases[..i], deadline)
      {
        assert leases[..i + 1][..i] == leases[..i];
        var job := ResolveLeaseJob(leases[i]);
        if job.None? || job.value.runner != Some(runner) {
          continue;
        }
        RenewKeepsKeys(jobs.rows, leases[i], deadline);
        var _ := jobs.RenewLease(leases[i], deadline);
      }
      assert leases[..|leases|] == leases;
    }

    /** One tick of the job reaper. */
    method ReapExpired(now: Time) returns (notify: bool)
      modifies jobs
      ensures Db() == Tick(old(Db()), now)
      ensures notify <==> jobs.rows != old(jobs.rows)
    {
      ghost var expired := set id | id in jobs.rows && Expired(jobs.rows[id], now);
      ghost var t := jobs.rows;
      var n := jobs.RequeueExpired(now);
      notify := n > 0;
      if expired == {} {
        assert forall id :: id in t && Expired(t[id], now) ==> id in expired;
        assert jobs.rows == t;
      } else {
        var id :| id in expired;
        assert jobs.rows[id].status == Queued;
      }
    }

    /** buildNeedsOutputs: one entry per need, read from the canonical row of its group. */
    method BuildNeedsOutputs(job: Job) returns (m: map<string, NeedOutputs>)
      requires Keyed(jobs.rows)
      ensures exists listed :: ListsRun(listed, jobs.rows, job.run) && Assembles(m, job.needs, listed, outputs.byRow)
      ensures forall name :: name in m ==>
          name in job.needs && IsOfRow(m[name], jobs.rows, job.run, name, outputs.byRow)
    {
      hide Group, Canonical, ListsRun, Keyed, Assembles, OutputsOf;
      m := map[];
      NothingAssembled(m);
      var siblings := jobs.ListJobsForRun(job.run);
      var g := GroupJobsByJobID(siblings);
      for i := 0 to |job.needs|
        invariant Assembles(m, job.needs[..i], siblings, outputs.byRow)
      {
        var need := job.needs[i];
        assert job.needs[..i + 1] == job.needs[..i] + [need];
        var n := CanonicalNeedRow(RowsOf(g, need));
        AssemblesOne(m, job.needs[..i], need, siblings, outputs.byRow);
        if n.None? || n.value.result.None? {
          continue;
        }
        var outs := outputs.ListOutputs(n.value.id);
        m := m[need := NeedOutputs(n.value.result.value, outs)];
      }
      assert job.needs[..|job.needs|] == job.needs;
      forall name | name in m ensures name in job.needs && IsOfRow(m[name], jobs.rows, job.run, name, outputs.byRow) {
        EntryIsOfRow(m, job, siblings, jobs.rows, outputs.byRow, name);
      }
    }
  }

  /** The entry shows result and outputs of one of the rows of that need. */
  ghost predicate IsOfRow(entry: NeedOutputs, t: Table, run: RunId, name: string, outs: map<RowId, Outputs>) {
    exists id :: id in t && t[id].run == run && t[id].jobId == name && t[id].result == Some(entry.result)
      && entry.outputs == if id in outs then outs[id] else map[]
  }

  lemma EntryIsOfRow(m: map<string, NeedOutputs>, job: Job, listed: seq<Job>, t: Table, outs: map<RowId, Outputs>,
                     name: string)
    requires ListsRun(listed, t, job.run) && Assembles(m, job.needs, listed, outs) && name in m
    ensures name in job.needs && IsOfRow(m[name], t, job.run, name, outs)
  {
    hide Canonical;
    var group := Group(listed, name);
    CanonicalIsDocumented(group);
    assert EntryFor(m, name, Canonical(group), outs);
    var c := Canonical(group).value;
    assert c in group && c in listed;
    assert t[c.id] == c;
  }

  datatype NeedOutputs = NeedOutputs(result: Status, outputs: Outputs)

  /** m holds, for each need, the result and outputs of its canonical row, unless that row has no result. */
  ghost predicate Assembles(m: map<string, NeedOutputs>, needs: seq<string>, listed: seq<Job>, outs: map<RowId,
                            Outputs>) {
    && (forall name :: name in m ==> name in needs)
    && (forall name :: name in needs ==> EntryFor(m, name, Canonical(Group(listed, name)), outs))
  }

  ghost predicate EntryFor(m: map<string, NeedOutputs>, name: string, c: Option<Job>, outs: map<RowId, Outputs>) {
    if c.Some? && c.value.result.Some?
    then name in m && m[name] == NeedOutputs(c.value.result.value, OutputsOf(outs, c.value.id))
    else name !in m
  }

  lemma NothingAssembled(m: map<string, NeedOutputs>)
    requires m == map[]
    ensures forall listed, outs :: Assembles(m, [], listed, outs)
  {
  }

  /** One more need: its entry is added if its canonical row has a result, and else nothing changes. */
  lemma AssemblesOne(m: map<string, NeedOutputs>, needs: seq<string>, need: string, listed: seq<Job>, outs: map<RowId,
                     Outputs>)
    requires Assembles(m, needs, listed, outs)
    ensures var c := Canonical(Group(listed, need));
      Assembles(if c.Some? &&
          c.value.result.Some? then m[need := NeedOutputs(c.value.result.value, OutputsOf(outs, c.value.id))] else m,
                needs + [need], listed, outs)
  {
    hide Canonical, Group, OutputsOf;
  }

  datatype Verdict = Wait | Skip | Lease

  ghost predicate CacheOk(cache: map<RunId, Groups>, t: Table) {
    forall r :: r in cache ==> Reflects(cache[r], t, r)
  }

  lemma RenewKeepsKeys(t: Table, lease: LeaseId, deadline: Time)
    ensures forall id, l :: Holds(RenewLease(t, lease, deadline), id, l) <==> Holds(t, id, l)
    ensures Keyed(t) ==> Keyed(RenewLease(t, lease, deadline))
  {
  }

  lemma EmptyCache(cs: seq<Job>, t: Table)
    ensures CacheOk(map[], t) && Scanned(cs, 0, t, {}, {})
  {
  }

  ghost predicate Listed(cs: seq<Job>, i: nat, id: RowId) {
    exists j :: 0 <= j < i && j < |cs| && cs[j].id == id
  }

  /** After i candidates: none was leasable, and exactly the rule rows among them are skipped. */
  ghost predicate Scanned(cs: seq<Job>, i: nat, t: Table, done: set<RowId>, runs: set<RunId>) {
    && (forall j :: 0 <= j < i && j < |cs| ==> !Leasable(t, cs[j].id))
    && (forall j :: 0 <= j < |cs| ==> (cs[j].id in done <==> j < i && SkipByRule(t, cs[j].id)))
    && (forall id :: id in done ==> id in t && t[id].run in runs && Listed(cs, i, id))
  }

  lemma ScanOne(cs: seq<Job>, i: nat, t: Table, done: set<RowId>, runs: set<RunId>, runs': set<RunId>)
    requires ListsQueued(cs, t, CANDIDATE_BATCH_SIZE) && i < |cs| && Scanned(cs, i, t, done, runs) && runs <= runs'
    ensures cs[i].id !in done
    ensures !Leasable(t, cs[i].id) && !SkipByRule(t, cs[i].id) ==> Scanned(cs, i + 1, t, done, runs')
    ensures SkipByRule(t, cs[i].id) && cs[i].run in runs' ==> Scanned(cs, i + 1, t, done + {cs[i].id}, runs')
  {
    hide Leasable, SkipByRule, ListsQueued, Listed;
    QueuedRows(cs, t);
    RuleExcludesLease(t, cs[i].id);
    ListedNext(cs, i);
  }

  lemma ListedNext(cs: seq<Job>, i: nat)
    requires i < |cs|
    ensures forall id :: Listed(cs, i, id) ==> Listed(cs, i + 1, id)
    ensures Listed(cs, i + 1, cs[i].id)
  {
  }

  lemma RuleExcludesLease(t: Table, id: RowId)
    ensures !(Leasable(t, id) && SkipByRule(t, id))
  {
  }

  /** u and t have the same rows, and agree on every row outside the given runs. */
  ghost predicate Agree(u: Table, t: Table, runs: set<RunId>) {
    && u.Keys == t.Keys
    && (forall id :: id in t ==> u[id].run == t[id].run)
    && (forall id :: id in t && t[id].run !in runs ==> u[id] == t[id])
  }

  lemma ReflectsOnAgreement(listed: seq<Job>, g: Groups, u: Table, t: Table, runs: set<RunId>, run: RunId)
    requires Loaded(listed, g, u, run) && Agree(u, t, runs) && run !in runs
    ensures Reflects(g, t, run)
  {
  }

  lemma SkipAllKeepsOthers(cs: seq<Job>, i: nat, t: Table, done: set<RowId>, clock: RowId -> Time, runs: set<RunId>)
    requires Keyed(t) && Scanned(cs, i, t, done, runs)
    ensures Keyed(SkipAll(t, done, clock)) && Agree(SkipAll(t, done, clock), t, runs)
  {
  }

  lemma QueuedRows(cs: seq<Job>, t: Table)
    requires ListsQueued(cs, t, CANDIDATE_BATCH_SIZE)
    ensures forall i {:trigger cs[i]} :: 0 <= i < |cs| ==>
        cs[i].id in t && t[cs[i].id] == cs[i] && cs[i].status == Queued
    ensures forall i, j :: 0 <= i < j < |cs| ==> cs[i].id < cs[j].id
  {
  }

  /** A queued row below a row of the batch is in the batch, and is listed before it. */
  lemma BatchIsDownwardClosed(cs: seq<Job>, i: nat, t: Table, k: RowId) returns (j: nat)
    requires ListsQueued(cs, t, CANDIDATE_BATCH_SIZE) && i < |cs|
    requires k in t && t[k].id == k && t[k].status == Queued && k < cs[i].id
    ensures InBatch(t, CANDIDATE_BATCH_SIZE, k) && j < i && cs[j].id == k
  {
    hide QueuedBelow;
    QueuedBelowGrows(t, k, cs[i].id);
    assert InBatch(t, CANDIDATE_BATCH_SIZE, cs[i].id);
    assert t[k] in cs;
    j :| 0 <= j < |cs| && cs[j] == t[k];
  }

  lemma QueuedBelowGrows(t: Table, k: RowId, m: RowId)
    requires k <= m
    ensures |QueuedBelow(t, k)| <= |QueuedBelow(t, m)|
  {
    SubsetSize(QueuedBelow(t, k), QueuedBelow(t, m));
  }

  /** At the end of the batch: nothing was leasable in it, and all its rule rows are skipped. */
  lemma AcquireFinds(cs: seq<Job>, t: Table, done: set<RowId>, runs: set<RunId>, r: RunnerId, l: LeaseId, ttl: Time,
                     now: Time, clock: RowId -> Time)
    requires Keyed(t) && ListsQueued(cs, t, CANDIDATE_BATCH_SIZE) && Scanned(cs, |cs|, t, done, runs)
    ensures forall id :: !Picked(t, id)
    ensures SkipAll(t, done, clock) == AcquireRows(t, r, l, ttl, now, clock)
  {
    hide SkipByRule, Leasable;
    forall id ensures !Picked(t, id) {
      if Picked(t, id) {
        assert false;
      }
    }
    forall id | id in SkippedOnTheWay(t) ensures id in done {
      assert t[id] in cs;
    }
    assert done == SkippedOnTheWay(t);
  }

  /** At the first leasable candidate: it is the row to pick, and the rule rows before it are skipped. */
  lemma AcquirePicks(cs: seq<Job>, i: nat, t: Table, done: set<RowId>, runs: set<RunId>, r: RunnerId, l: LeaseId,
                     ttl: Time, now: Time, clock: RowId -> Time)
    requires Keyed(t) && ListsQueued(cs, t, CANDIDATE_BATCH_SIZE) && i < |cs| && Leasable(t, cs[i].id)
    requires Scanned(cs, i, t, done, runs)
    ensures Picked(t, cs[i].id)
    ensures Jobs.Lease(SkipAll(t, done, clock), cs[i].id, l, r, now + ttl, now) == AcquireRows(t, r, l, ttl, now, clock)
  {
    forall k: RowId | Leasable(t, k) ensures cs[i].id <= k {
      if k < cs[i].id {
        var j := BatchIsDownwardClosed(cs, i, t, k);
      }
    }
    assert Picked(t, cs[i].id);
    DoneIsPassed(cs, i, t, done, runs);
  }

  lemma DoneIsPassed(cs: seq<Job>, i: nat, t: Table, done: set<RowId>, runs: set<RunId>)
    requires Keyed(t) && ListsQueued(cs, t, CANDIDATE_BATCH_SIZE) && i < |cs| && Picked(t, cs[i].id)
    requires Scanned(cs, i, t, done, runs)
    ensures done == SkippedOnTheWay(t)
    ensures forall id :: Picked(t, id) ==> id == cs[i].id
  {
    hide RuleApplies, Runnable;
    forall k | k in SkippedOnTheWay(t) ensures k in done {
      var j := BatchIsDownwardClosed(cs, i, t, k);
    }
    forall k | k in done ensures k in SkippedOnTheWay(t) {
      var j :| 0 <= j < i && cs[j].id == k;
      assert cs[j].id < cs[i].id;
    }
  }

  lemma RollUpOfList(listed: seq<Job>, t: Table, run: RunId)
    requires ListsRun(listed, t, run)
    ensures AnyRow(t, run, Failure) <==> exists j :: 0 <= j < |listed| && listed[j].status == Failure
    ensures (forall id :: id in t && t[id].run == run ==> t[id].status == Success || t[id].status == Skipped)
       <==> (forall j :: 0 <= j < |listed| ==> listed[j].status == Success || listed[j].status == Skipped)
    ensures (forall j :: 0 <= j < |listed| ==> IsTerminal(listed[j].status)) <==> RunDone(t, run)
  {
    forall id | id in t && t[id].run == run ensures exists j :: 0 <= j < |listed| && listed[j] == t[id] {
      assert t[id] in listed;
    }
    forall j | 0 <= j < |listed| ensures t[listed[j].id] == listed[j] {}
    if j :| 0 <= j < |listed| && listed[j].status == Failure {
      assert t[listed[j].id].status == Failure;
    }
  }
}
