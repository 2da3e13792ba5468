/** The jobs table as an object (internal/store/job_store.go): each method is one SQL statement,
    tied to the table function of the same name in Jobs. */
module JobStore {
  import opened Jobs

  /** jobs lists, in some order, exactly the rows of the run. */
  ghost predicate ListsRun(jobs: seq<Job>, t: Table, run: RunId) {
    && (forall i :: 0 <= i < |jobs| ==> jobs[i].id in t && t[jobs[i].id] == jobs[i] && jobs[i].run == run)
    && (forall i, j :: 0 <= i < j < |jobs| ==> jobs[i].id != jobs[j].id)
    && (forall id :: id in t && t[id].run == run ==> t[id] in jobs)
  }

  /** Row id is queued and fewer than limit queued rows come before it. */
  ghost predicate InBatch(t: Table, limit: nat, id: RowId) {
    id in t && t[id].status == Queued && |QueuedBelow(t, id)| < limit
  }

  ghost function QueuedBelow(t: Table, id: RowId): set<RowId> {
    set k | k in t && t[k].status == Queued && k < id
  }

  lemma SubsetSize(a: set<RowId>, b: set<RowId>)
    requires a <= b
    ensures |a| <= |b|
  {
    assert b == a + (b - a);
    assert |b| == |a| + |b - a|;
  }

  /** jobs lists the first limit queued rows by id, in ascending order. */
  ghost predicate ListsQueued(jobs: seq<Job>, t: Table, limit: nat) {
    && (forall i :: 0 <= i < |jobs| ==> InBatch(t, limit, jobs[i].id) && t[jobs[i].id] == jobs[i])
    && (forall i, j :: 0 <= i < j < |jobs| ==> jobs[i].id < jobs[j].id)
    && (forall id :: InBatch(t, limit, id) ==> t[id] in jobs)
  }

  predicate IsLeast(s: set<RowId>, m: RowId) {
    m in s && forall k :: k in s ==> m <= k
  }

  lemma {:induction false} LeastExists(s: set<RowId>)
    requires s != {}
    ensures exists m :: IsLeast(s, m)
  {
    var m :| m in s;
    if s == {m} {
      assert IsLeast(s, m);
    } else {
      LeastExists(s - {m});
      var n :| IsLeast(s - {m}, n);
      var least := if n < m then n else m;
      forall k | k in s ensures least <= k {
        if k != m { assert k in s - {m}; }
      }
      assert IsLeast(s, least);
    }
  }

  function Least(s: set<RowId>): (m: RowId)
    requires s != {}
    ensures IsLeast(s, m)
  {
    LeastExists(s);
    var m :| m in s && IsLeast(s, m);
    m
  }

  ghost function Below(s: set<RowId>, id: RowId): set<RowId> {
    set k | k in s && k < id
  }

  lemma BelowLeast(s: set<RowId>, m: RowId)
    requires IsLeast(s, m)
    ensures |Below(s, m)| == 0
    ensures forall id :: id in s && id != m ==> |Below(s, id)| == |Below(s - {m}, id)| + 1
  {
    assert Below(s, m) == {};
    forall id | id in s && id != m ensures |Below(s, id)| == |Below(s - {m}, id)| + 1 {
      assert Below(s, id) == {m} + Below(s - {m}, id);
    }
  }

  /** ORDER BY id LIMIT limit. */
  function FirstIds(s: set<RowId>, limit: nat): (ids: seq<RowId>)
    ensures forall i, j :: 0 <= i < j < |ids| ==> ids[i] < ids[j]
    ensures forall id :: id in ids <==> id in s && |Below(s, id)| < limit
    decreases limit
  {
    if s == {} || limit == 0 then [] else
      var m := Least(s);
      var rest := FirstIds(s - {m}, limit - 1);
      LeastFirst(s, m, rest, limit);
      [m] + rest
  }

  /** The least id before the first ones of the rest. */
  lemma LeastFirst(s: set<RowId>, m: RowId, rest: seq<RowId>, limit: nat)
    requires IsLeast(s, m) && limit > 0
    requires forall i, j :: 0 <= i < j < |rest| ==> rest[i] < rest[j]
    requires forall id :: id in rest <==> id in s - {m} && |Below(s - {m}, id)| < limit - 1
    ensures var ids := [m] + rest;
      && (forall i, j :: 0 <= i < j < |ids| ==> ids[i] < ids[j])
      && (forall id :: id in ids <==> id in s && |Below(s, id)| < limit)
  {
    hide Below;
    BelowLeast(s, m);
    forall j | 0 <= j < |rest| ensures m < rest[j] {
      assert rest[j] in rest;
    }
    forall id ensures id in [m] + rest <==> id in s && |Below(s, id)| < limit {
      if id != m { assert id in [m] + rest <==> id in rest; }
    }
  }

  lemma BelowQueued(t: Table, queued: set<RowId>)
    requires forall id :: id in queued <==> id in t && t[id].status == Queued
    ensures forall id :: id in queued ==> Below(queued, id) == QueuedBelow(t, id)
  {
  }

  function RowsAt(t: Table, ids: seq<RowId>): (jobs: seq<Job>)
    requires forall id :: id in ids ==> id in t
    ensures |jobs| == |ids|
    ensures forall i :: 0 <= i < |ids| ==> jobs[i] == t[ids[i]]
    ensures forall id :: id in ids ==> t[id] in jobs
  {
    if ids == [] then [] else
      assert ids == [ids[0]] + ids[1..];
      [t[ids[0]]] + RowsAt(t, ids[1..])
  }

  function QueuedIds(t: Table): set<RowId> {
    set id | id in t && t[id].status == Queued
  }

  /** The first limit queued rows. */
  function FirstQueued(t: Table, limit: nat): (jobs: seq<Job>)
    requires Keyed(t)
    ensures ListsQueued(jobs, t, limit)
  {
    hide FirstIds, Below, ListsQueued;
    var ids := FirstIds(QueuedIds(t), limit);
    FirstAreListed(t, ids, limit);
    RowsAt(t, ids)
  }

  lemma FirstAreListed(t: Table, ids: seq<RowId>, limit: nat)
    requires Keyed(t) && forall i, j :: 0 <= i < j < |ids| ==> ids[i] < ids[j]
    requires forall id :: id in ids <==> id in QueuedIds(t) && |Below(QueuedIds(t), id)| < limit
    ensures (forall id :: id in ids ==> id in t) && ListsQueued(RowsAt(t, ids), t, limit)
  {
    hide Below, QueuedBelow, RowsAt;
    BelowQueued(t, QueuedIds(t));
    var jobs := RowsAt(t, ids);
    forall i | 0 <= i < |jobs| ensures InBatch(t, limit, jobs[i].id) && t[jobs[i].id] == jobs[i] {
      assert ids[i] in ids;
    }
  }

  class Store {
    var rows: Table

    constructor (t: Table)
      ensures rows == t
    {
      rows := t;
    }

    method GetJob(id: RowId) returns (r: Option<Job>)
      ensures r == if id in rows then Some(rows[id]) else None
    {
      if id in rows { r := Some(rows[id]); } else { r := None; }
    }

    method GetByLease(lease: LeaseId) returns (r: Option<Job>)
      ensures r.None? <==> forall id :: !Holds(rows, id, lease)
      ensures r.Some? ==> exists id :: Holds(rows, id, lease) && r.value == rows[id]
    {
      var holders := Holders(rows, lease);
      if holders == {} {
        r := None;
      } else {
        var id :| id in holders;
        r := Some(rows[id]);
      }
    }

    /** ORDER BY job_id_yaml leaves the order of matrix cells open; here the whole order is open. */
    method ListJobsForRun(run: RunId) returns (jobs: seq<Job>)
      requires Keyed(rows)
      ensures ListsRun(jobs, rows, run)
    {
      jobs := [];
      var rest := set id | id in rows && rows[id].run == run;
      while rest != {}
        invariant forall id :: id in rest ==> id in rows && rows[id].run == run
        invariant forall i :: 0 <= i < |jobs| ==>
            jobs[i].id in rows && rows[jobs[i].id] == jobs[i] && jobs[i].run == run
        invariant forall i :: 0 <= i < |jobs| ==> jobs[i].id !in rest
        invariant forall i, j :: 0 <= i < j < |jobs| ==> jobs[i].id != jobs[j].id
        invariant forall id :: id in rows && rows[id].run == run && id !in rest ==> rows[id] in jobs
        decreases rest
      {
        var id :| id in rest;
        rest := rest - {id};
        jobs := jobs + [rows[id]];
      }
    }

    method ListQueuedJobs(limit: nat) returns (jobs: seq<Job>)
      requires Keyed(rows)
      ensures ListsQueued(jobs, rows, limit)
    {
      jobs := FirstQueued(rows, limit);
    }

    method TransitionStatus(id: RowId, from: Status, to: Status) returns (ok: bool)
      modifies this
      ensures ok == old(CanTransition(rows, id, from, to))
      ensures rows == Jobs.TransitionStatus(old(rows), id, from, to)
    {
      ok := CanTransition(rows, id, from, to);
      if ok { rows := rows[id := rows[id].(status := to)]; }
    }

    method Lease(id: RowId, lease: LeaseId, runner: RunnerId, deadline: Time, now: Time) returns (ok: bool)
      modifies this
      ensures ok == old(CanLease(rows, id))
      ensures rows == Jobs.Lease(old(rows), id, lease, runner, deadline, now)
    {
      ok := id in rows && rows[id].status == Queued;
      if ok {
        rows := rows[id := rows[id].(status := Leased, runner := Some(runner), lease := Some(lease),
          deadline := Some(deadline), startedAt := Coalesce(rows[id].startedAt, now))];
      }
    }

    method RenewLease(lease: LeaseId, deadline: Time) returns (found: bool)
      modifies this
      ensures found == exists id :: Holds(old(rows), id, lease)
      ensures rows == Jobs.RenewLease(old(rows), lease, deadline)
    {
      var holders := Holders(rows, lease);
      found := holders != {};
      assert found ==> exists id :: id in holders && Holds(rows, id, lease);
      rows := map id | id in rows ::
        if rows[id].lease == Some(lease) then rows[id].(deadline := Some(deadline)) else rows[id];
    }

    method RequeueExpired(now: Time) returns (requeued: nat)
      modifies this
      ensures requeued == |set id | id in old(rows) && Expired(old(rows)[id], now)|
      ensures rows == Jobs.RequeueExpired(old(rows), now)
    {
      requeued := |set id | id in rows && Expired(rows[id], now)|;
      rows := map id | id in rows ::
        if Expired(rows[id], now)
        then rows[id].(status := Queued, runner := None, lease := None, deadline := None) else rows[id];
    }

    method SetResult(id: RowId, result: Status, finishedAt: Time) returns (found: bool)
      modifies this
      ensures found == (id in old(rows))
      ensures rows == Jobs.SetResult(old(rows), id, result, finishedAt)
    {
      found := id in rows;
      if found { rows := rows[id := rows[id].(result := Some(result), finishedAt := Some(finishedAt))]; }
    }
  }
}
