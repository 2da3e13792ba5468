/** The checks the dispatcher runs on rows it has read earlier (internal/dispatch/queue.go:68-120),
    and what they say about the table the rows came from. */
module Snapshots {
  import opened Jobs
  import opened Gating
  import opened JobStore

  type Groups = map<string, seq<Job>>

  function RowsOf(g: Groups, name: string): seq<Job> {
    if name in g then g[name] else []
  }

  /** The jobs with the given yaml id, in order. */
  function Group(jobs: seq<Job>, name: string): (r: seq<Job>)
    ensures forall n :: n in r <==> n in jobs && n.jobId == name
  {
    if jobs == [] then [] else
      var last := jobs[|jobs| - 1];
      assert jobs == jobs[..|jobs| - 1] + [last];
      Group(jobs[..|jobs| - 1], name) + if last.jobId == name then [last] else []
  }

  lemma GroupLast(jobs: seq<Job>, last: Job, name: string)
    ensures Group(jobs + [last], name) == Group(jobs, name) + if last.jobId == name then [last] else []
  {
    assert (jobs + [last])[..|jobs|] == jobs;
  }

  lemma NoGroup(name: string)
    ensures Group([], name) == []
  {
  }

  /** Grouping keeps the order of the list: it goes through the list piece by piece. */
  lemma {:induction false} GroupKeepsOrder(a: seq<Job>, b: seq<Job>, name: string)
    ensures Group(a + b, name) == Group(a, name) + Group(b, name)
    ensures forall j: Job :: Group([j], name) == if j.jobId == name then [j] else []
    decreases |b|
  {
    hide Group;
    NoGroup(name);
    forall j: Job ensures Group([j], name) == if j.jobId == name then [j] else [] {
      GroupLast([], j, name);
      assert [] + [j] == [j];
    }
    if b == [] {
      assert a + b == a;
    } else {
      var rest, last := b[..|b| - 1], b[|b| - 1];
      GroupKeepsOrder(a, rest, name);
      GroupLast(rest, last, name);
      GroupLast(a + rest, last, name);
      assert rest + [last] == b && (a + rest) + [last] == a + b;
    }
  }

  method GroupJobsByJobID(jobs: seq<Job>) returns (g: Groups)
    ensures forall name :: RowsOf(g, name) == Group(jobs, name)
  {
    g := map[];
    for i := 0 to |jobs|
      invariant forall name :: RowsOf(g, name) == Group(jobs[..i], name)
    {
      var j := jobs[i];
      assert jobs[..i + 1][..i] == jobs[..i];
      g := g[j.jobId := RowsOf(g, j.jobId) + [j]];
    }
    assert jobs[..|jobs|] == jobs;
  }

  predicate IsBlocking(n: Job) {
    n.status == Failure || n.status == Cancelled || n.status == Skipped
  }

  ghost predicate GroupsTerminal(job: Job, g: Groups) {
    forall name :: name in job.needs ==>
      RowsOf(g, name) != [] && forall n :: n in RowsOf(g, name) ==> IsTerminal(n.status)
  }

  ghost predicate GroupsBlocked(job: Job, g: Groups) {
    exists name, n :: name in job.needs && n in RowsOf(g, name) && IsBlocking(n)
  }

  method NeedsSatisfied(job: Job, g: Groups) returns (allTerminal: bool, anyBlocking: bool)
    ensures allTerminal <==> GroupsTerminal(job, g)
    ensures anyBlocking <==> GroupsBlocked(job, g)
  {
    allTerminal, anyBlocking := true, false;
    for i := 0 to |job.needs|
      invariant allTerminal <==> forall name :: name in job.needs[..i] ==>
          RowsOf(g, name) != [] && forall n :: n in RowsOf(g, name) ==> IsTerminal(n.status)
      invariant anyBlocking <==> exists name, n :: name in job.needs[..i] && n in RowsOf(g, name) && IsBlocking(n)
    {
      var need := job.needs[i];
      var rows := RowsOf(g, need);
      var terminal, blocking := ScanGroup(rows);
      allTerminal := allTerminal && terminal;
      anyBlocking := anyBlocking || blocking;
      assert job.needs[..i + 1] == job.needs[..i] + [need];
    }
    assert job.needs[..|job.needs|] == job.needs;
  }

  /** The inner loop: one need's group of rows. */
  method ScanGroup(rows: seq<Job>) returns (terminal: bool, blocking: bool)
    ensures terminal <==> rows != [] && forall n :: n in rows ==> IsTerminal(n.status)
    ensures blocking <==> exists n :: n in rows && IsBlocking(n)
  {
    if |rows| == 0 {
      return false, false;
    }
    terminal, blocking := true, false;
    for i := 0 to |rows|
      invariant terminal <==> forall n :: n in rows[..i] ==> IsTerminal(n.status)
      invariant blocking <==> exists n :: n in rows[..i] && IsBlocking(n)
    {
      assert rows[..i + 1] == rows[..i] + [rows[i]];
      if !IsTerminal(rows[i].status) {
        terminal := false;
        continue;
      }
      if IsBlocking(rows[i]) {
        blocking := true;
      }
    }
    assert rows[..|rows|] == rows;
  }

  /** g holds exactly the rows of the run in t, under their yaml ids. */
  ghost predicate Reflects(g: Groups, t: Table, run: RunId) {
    && (forall name, n :: n in RowsOf(g, name) ==> n.id in t && t[n.id] == n && n.run == run && n.jobId == name)
    && (forall id :: id in t && t[id].run == run ==> t[id] in RowsOf(g, t[id].jobId))
  }

  /** What one read of a run's rows gives the dispatcher: the list and the groups. */
  ghost predicate Loaded(listed: seq<Job>, g: Groups, t: Table, run: RunId) {
    ListsRun(listed, t, run) && Reflects(g, t, run)
  }

  lemma ListedRows(listed: seq<Job>, g: Groups, t: Table, run: RunId)
    requires Loaded(listed, g, t, run)
    ensures forall i {:trigger listed[i]} :: 0 <= i < |listed| ==>
      listed[i].id in t && t[listed[i].id] == listed[i] && listed[i].run == run
    ensures forall i, j :: 0 <= i < j < |listed| ==> listed[i].id != listed[j].id
  {
  }

  lemma RowIsListed(listed: seq<Job>, g: Groups, t: Table, run: RunId, id: RowId) returns (i: nat)
    requires Loaded(listed, g, t, run) && id in t && t[id].run == run && t[id].id == id
    ensures i < |listed| && listed[i].id == id
  {
    assert t[id] in listed;
    i :| 0 <= i < |listed| && listed[i] == t[id];
  }

  /** j is a row of t, and g and asked are what t says about its run. */
  ghost predicate Decides(j: Job, g: Groups, t: Table, asked: set<RowId>) {
    j.id in t && t[j.id] == j && Reflects(g, t, j.run) && asked == Asked(t, j.run)
  }

  lemma GroupsReflect(jobs: seq<Job>, g: Groups, t: Table, run: RunId)
    requires ListsRun(jobs, t, run)
    requires forall name :: RowsOf(g, name) == Group(jobs, name)
    ensures Reflects(g, t, run)
  {
  }

  /** A need has a row exactly when its group is not empty. */
  lemma GroupHasRow(g: Groups, t: Table, run: RunId, name: string)
    requires Reflects(g, t, run)
    ensures HasRow(t, run, name) <==> RowsOf(g, name) != []
  {
    hide RowsOf;
    if RowsOf(g, name) != [] {
      var n := RowsOf(g, name)[0];
      assert n in RowsOf(g, name) && t[n.id].run == run && t[n.id].jobId == name;
    }
    if k :| k in t && t[k].run == run && t[k].jobId == name {
      assert t[k] in RowsOf(g, name);
    }
  }

  lemma GroupedIsNeeded(g: Groups, t: Table, id: RowId, name: string, n: Job)
    requires id in t && Reflects(g, t, t[id].run) && name in t[id].needs && n in RowsOf(g, name)
    ensures Needs(t, id, n.id) && t[n.id] == n
  {
    hide RowsOf;
  }

  lemma NeededIsGrouped(g: Groups, t: Table, id: RowId, k: RowId)
    requires id in t && Reflects(g, t, t[id].run) && Needs(t, id, k)
    ensures t[k].jobId in t[id].needs && t[k] in RowsOf(g, t[k].jobId)
  {
    hide RowsOf;
  }

  /** What NeedsSatisfied reports on a group map is the truth about the table it reflects. */
  lemma CheckIsExact(g: Groups, t: Table, id: RowId)
    requires id in t && Reflects(g, t, t[id].run)
    ensures NeedsTerminal(t, id) <==> GroupsTerminal(t[id], g)
    ensures NeedsBlocked(t, id) <==> GroupsBlocked(t[id], g)
  {
    hide Reflects, RowsOf, HasRow, Needs;
    forall name ensures HasRow(t, t[id].run, name) <==> RowsOf(g, name) != [] {
      GroupHasRow(g, t, t[id].run, name);
    }
    forall name, n | name in t[id].needs && n in RowsOf(g, name)
        ensures Needs(t, id, n.id) && n.id in t && t[n.id] == n {
      GroupedIsNeeded(g, t, id, name, n);
      NeedsRow(t, id, n.id);
    }
    forall k | Needs(t, id, k) ensures k in t && t[k].jobId in t[id].needs && t[k] in RowsOf(g, t[k].jobId) {
      NeededIsGrouped(g, t, id, k);
      NeedsRow(t, id, k);
    }
    if k :| Blocking(t, id, k) {
      assert IsBlocking(t[k]);
    }
    if name, n :| name in t[id].needs && n in RowsOf(g, name) && IsBlocking(n) {
      assert Blocking(t, id, n.id);
    }
  }

  lemma NeedsRow(t: Table, id: RowId, k: RowId)
    requires Needs(t, id, k)
    ensures k in t
  {
  }
}
