/** The stale-lease fence between statements: a completion or report resolves its lease once and then
    writes by row id (internal/dispatch/service.go:452-488, internal/dispatch/service.go:417-433). */
module StaleCalls {
  import opened Jobs
  import opened Gating
  import opened JobStore
  import opened Handlers
  import opened Interleaving
  import opened InterleavingTheorems
  import opened SerialRefines
  import Serial
  import SerialTheorems

  /** A call that resolved a lease remembers which row held it. */
  ghost predicate Resolved(c: Call, granted: map<LeaseId, (RowId, RunnerId)>) {
    match c
    case Completing(id, l, _, _) => l in granted && granted[l].0 == id
    case Reporting(id, l) => l in granted && granted[l].0 == id
    case Stamping(_, next) => !next.Completing? && !next.Reporting? && !next.Stamping?
    case _ => true
  }

  ghost predicate AllResolved(w: World) {
    forall p :: p in w.calls ==> Resolved(w.calls[p], w.granted)
  }

  lemma HolderIsGranted(w: World, id: RowId, l: LeaseId)
    requires LeasesOk(w) && Holds(w.rows, id, l)
    ensures l in w.granted && w.granted[l].0 == id
  {
  }

  lemma ActorKeepsResolved(w: World, a: Action, rho: Outcomes, p: Pid)
    requires LeasesOk(w) && Enabled(w, a, rho) && Actor(a) == Some(p)
    requires p in w.calls ==> Resolved(w.calls[p], w.granted)
    ensures p in Apply(w, a, rho).calls && Resolved(Apply(w, a, rho).calls[p], w.granted)
  {
    hide DecidesSkip, DecidesLease, WriteRows, RunDone, RollUp, ListsBatch, LeasesOk;
    match a
    case BeginComplete(_, id, l, _) => HolderIsGranted(w, id, l);
    case BeginReport(_, id, l) => HolderIsGranted(w, id, l);
    case TrySkip(_) => SkipReads(w, p);
    case TryLease(_, _, _, _) => LeaseReads(w, p);
    case _ =>
  }

  /** Bindings of leases only grow. */
  lemma MoreGranted(c: Call, a: map<LeaseId, (RowId, RunnerId)>, b: map<LeaseId, (RowId, RunnerId)>)
    requires Resolved(c, a) && forall l :: l in a ==> l in b && b[l] == a[l]
    ensures Resolved(c, b)
  {
  }

  lemma StepKeepsResolved(w: World, a: Action, rho: Outcomes)
    requires AllResolved(w) && LeasesOk(w) && Enabled(w, a, rho)
    ensures AllResolved(Apply(w, a, rho))
  {
    hide Enabled, Apply, Resolved, LeasesOk;
    var u := Apply(w, a, rho);
    OthersWait(w, a, rho);
    if Actor(a).Some? { ActorKeepsResolved(w, a, rho, Actor(a).value); }
    forall l | l in w.granted ensures l in u.granted && u.granted[l] == w.granted[l] {
      StepKeepsBindings(w, a, rho, l);
    }
    forall p | p in u.calls ensures Resolved(u.calls[p], u.granted) {
      MoreGranted(u.calls[p], w.granted, u.granted);
    }
  }

  lemma {:induction false} RunsKeepResolved(ws: seq<World>, rho: Outcomes, i: nat)
    requires IsRun(ws, rho) && i < |ws|
    ensures AllResolved(ws[i])
  {
    hide Enabled, Apply, LeasesOk, AllResolved;
    if i == 0 {
      NothingPending(ws[0]);
    } else {
      RunsKeepResolved(ws, rho, i - 1);
      RunsKeepLeases(ws, rho, i - 1);
      assert Follows(ws[i - 1], ws[i - 1 + 1], rho);
      var a :| Enabled(ws[i - 1], a, rho) && ws[i] == Apply(ws[i - 1], a, rho);
      StepKeepsResolved(ws[i - 1], a, rho);
    }
  }

  lemma NothingPending(w: World)
    requires Fresh(w)
    ensures AllResolved(w)
  {
  }

  /** The status in which the call's next statement would change its row. */
  ghost predicate WouldMove(c: Call, s: Status) {
    match c
    case Completing(_, _, _, 0) => false
    case Completing(_, _, _, 1) => s == Leased
    case Completing(_, _, _, _) => s == Running
    case Reporting(_, _) => s == Leased
    case _ => false
  }

  /** The next statement of the call changes the status of a row that another lease holds. */
  ghost predicate MovesAnother(t: Table, c: Call, now: Time) {
    && (c.Completing? || c.Reporting?) && c.id in t && c.id in WriteRows(t, c, now)
    && WriteRows(t, c, now)[c.id].status != t[c.id].status
    && t[c.id].lease.Some? && t[c.id].lease.value != c.lease
  }

  /** The next statement of the call changes a row that does not hold the call's lease. */
  ghost predicate ChangesAnother(t: Table, c: Call, now: Time) {
    && (c.Completing? || c.Reporting?) && c.id in t && c.id in WriteRows(t, c, now)
    && WriteRows(t, c, now)[c.id] != t[c.id] && !Holds(t, c.id, c.lease)
  }

  /** The first statement of a completion writes result and finish time whatever the row's status. */
  ghost predicate WouldStamp(c: Call, j: Job, now: Time) {
    c.Completing? && c.written == 0 && (j.result != Some(c.result) || j.finishedAt != Some(now))
  }

  /** In every state of every interleaving, a pending completion or report still speaks for its row's
      holder exactly while the reaper has not taken back the lease it resolved.  Its next statement
      moves a row under a later lease if and only if that lease was taken back and the row is held
      again in the status the statement expects; and it changes anything at all in a row without its
      lease, held again or still queued, if and only if the lease was taken back and the statement is
      the unguarded first one or finds the status it expects. */
  lemma FenceHoldsIff(ws: seq<World>, rho: Outcomes, i: nat, p: Pid, now: Time)
    requires IsRun(ws, rho) && i < |ws| && p in ws[i].calls && (ws[i].calls[p].Completing? || ws[i].calls[p].Reporting?)
    ensures var w := ws[i]; var c := w.calls[p];
      && c.id in w.rows && c.lease in w.granted && w.granted[c.lease].0 == c.id
      && (Holds(w.rows, c.id, c.lease) <==> c.lease !in w.requeued)
      && (MovesAnother(w.rows, c, now) <==> c.lease in w.requeued && WouldMove(c, w.rows[c.id].status))
      && (ChangesAnother(w.rows, c, now) <==>
          c.lease in w.requeued && (WouldStamp(c, w.rows[c.id], now) || WouldMove(c, w.rows[c.id].status)))
  {
    hide IsRun, CallsOk, RowsOk;
    RunsKeepLeases(ws, rho, i);
    RunsKeepResolved(ws, rho, i);
    RunsStayOk(ws, rho, i);
    GrantedRows(ws, rho, i);
    OneCall(ws[i], p, rho);
    PendingFence(ws[i], p, rho, now);
  }

  /** Only rows of the table are granted. */
  lemma {:induction false} GrantedRows(ws: seq<World>, rho: Outcomes, i: nat)
    requires IsRun(ws, rho) && i < |ws|
    ensures forall l :: l in ws[i].granted ==> ws[i].granted[l].0 in ws[i].rows
  {
    hide Enabled, Apply;
    if i > 0 {
      GrantedRows(ws, rho, i - 1);
      assert Follows(ws[i - 1], ws[i - 1 + 1], rho);
      var a :| Enabled(ws[i - 1], a, rho) && ws[i] == Apply(ws[i - 1], a, rho);
      StepAges(ws[i - 1], a, rho);
      StepGrantsRows(ws[i - 1], a, rho);
    }
  }

  lemma StepGrantsRows(w: World, a: Action, rho: Outcomes)
    requires Enabled(w, a, rho) && w.rows.Keys == Apply(w, a, rho).rows.Keys
    requires forall l :: l in w.granted ==> w.granted[l].0 in w.rows
    ensures forall l :: l in Apply(w, a, rho).granted ==> Apply(w, a, rho).granted[l].0 in Apply(w, a, rho).rows
  {
    hide DecidesSkip, DecidesLease, WriteRows, RunDone, RollUp, InBatch;
    match a
    case TrySkip(p) => SkipReads(w, p);
    case TryLease(p, _, _, _) => LeaseReads(w, p);
    case _ =>
  }

  lemma PendingFence(w: World, p: Pid, rho: Outcomes, now: Time)
    requires LeasesOk(w) && p in w.calls && Resolved(w.calls[p], w.granted) && CallOk(w.calls[p], w.rows, rho)
    requires (w.calls[p].Completing? || w.calls[p].Reporting?) && w.calls[p].id in w.rows
    ensures var c := w.calls[p];
      && (Holds(w.rows, c.id, c.lease) <==> c.lease !in w.requeued)
      && (MovesAnother(w.rows, c, now) <==> c.lease in w.requeued && WouldMove(c, w.rows[c.id].status))
      && (ChangesAnother(w.rows, c, now) <==>
          c.lease in w.requeued && (WouldStamp(c, w.rows[c.id], now) || WouldMove(c, w.rows[c.id].status)))
  {
    hide Older;
    var c := w.calls[p];
    if w.rows[c.id].lease.Some? {
      assert Holds(w.rows, c.id, w.rows[c.id].lease.value);
    }
  }

  /* ---------- it does happen ---------- */

  /** Nothing has ended, and no deadline lies before time 1. */
  ghost predicate Early(t: Table) {
    && Keyed(t)
    && forall id :: id in t ==> t[id].status == Queued || (t[id].status == Leased && t[id].deadline == Some(1))
  }

  /** As Early, except that row m is leased until time 0. */
  ghost predicate EarlyBut(t: Table, m: RowId) {
    && Keyed(t) && m in t && t[m].status == Leased && t[m].deadline == Some(0)
    && forall id :: id in t && id != m ==>
         t[id].status == Queued || (t[id].status == Leased && t[id].deadline == Some(1))
  }

  lemma EarlyIsSettled(t: Table)
    requires Early(t)
    ensures Serial.Settled(t)
  {
    forall id ensures !SkipByRule(t, id) {
      assert forall k :: !Blocking(t, id, k);
    }
  }

  lemma LeaseEarly(t: Table, id: RowId, m: RowId, l: LeaseId, now: Time)
    requires Early(t) && CanLease(t, id) && Leasable(t, m) && InBatch(t, CANDIDATE_BATCH_SIZE, m) && id <= m
    ensures var u := Lease(t, id, l, 0, now, now);
      && QueuedBelow(u, m) <= QueuedBelow(t, m) && Older(t, u)
      && (id == m && now == 0 ==> EarlyBut(u, m))
      && (id < m && now == 1 ==> Early(u) && Leasable(u, m) && InBatch(u, CANDIDATE_BATCH_SIZE, m)
                                 && QueuedBelow(u, m) < QueuedBelow(t, m))
  {
    hide Older, Runnable;
    var u := Lease(t, id, l, 0, now, now);
    RowStatementsAge(t, id, Queued, Queued, l, 0, now, now, Queued);
    SameRunnable(t, u, m);
    SubsetSize(QueuedBelow(u, m), QueuedBelow(t, m));
    if id < m { assert id in QueuedBelow(t, m) && id !in QueuedBelow(u, m); }
  }

  /** Acquirers lease the rows before m and then m. */
  lemma {:induction false} Grant(ws: seq<World>, start: World, rho: Outcomes, w: World, m: RowId)
    returns (more: seq<World>, u: World, l: LeaseId)
    requires Reaches(ws, start, rho, w) && Early(w.rows)
    requires Leasable(w.rows, m) && InBatch(w.rows, CANDIDATE_BATCH_SIZE, m)
    ensures Reaches(more, start, rho, u) && Holds(u.rows, m, l) && EarlyBut(u.rows, m)
    ensures Older(w.rows, u.rows) && QueuedBelow(u.rows, m) <= QueuedBelow(w.rows, m)
    ensures forall p :: p in w.calls ==> p in u.calls && u.calls[p] == w.calls[p]
    ensures u.requeued == w.requeued
    decreases QueuedBelow(w.rows, m)
  {
    hide Reaches, Leasable, InBatch, QueuedBelow, Older, AcquireRows, EarlyBut, Serial.Settled, SkippedOnTheWay, Picked;
    EarlyIsSettled(w.rows);
    SerialTheorems.AcquireServesIff(w.rows);
    var id :| Picked(w.rows, id);
    PickedFirst(w.rows, id, m);
    var now := if id == m then 0 else 1;
    l := Unused(w.granted.Keys);
    var got := Serial.AcquireWhenSettled(w.rows, 0, l, 0, now, EPOCH);
    more, u := AcquireAlone(ws, start, rho, w, 0, l, 0, now, EPOCH);
    LeaseEarly(w.rows, id, m, l, now);
    if id != m {
      var v := u;
      more, u, l := Grant(more, start, rho, v, m);
      OlderTransitive(w.rows, v.rows, u.rows);
    }
  }

  lemma PickedFirst(t: Table, id: RowId, m: RowId)
    requires Picked(t, id) && Leasable(t, m)
    ensures CanLease(t, id) && id <= m
  {
  }

  lemma SameRunnable(t: Table, u: Table, m: RowId)
    requires m in t && Runnable(t, m) && Older(t, u)
    ensures Runnable(u, m)
  {
    DecisionsAreStable(t, u, m);
  }

  /** Taken back, the row can be leased as before. */
  lemma StillLeasable(plan: Table, t: Table, m: RowId)
    requires Leasable(plan, m) && InBatch(plan, CANDIDATE_BATCH_SIZE, m) && Older(plan, t) && EarlyBut(t, m)
    requires QueuedBelow(t, m) <= QueuedBelow(plan, m)
    ensures var u := RequeueExpired(t, 1);
      Early(u) && Leasable(u, m) && InBatch(u, CANDIDATE_BATCH_SIZE, m) && Expired(t[m], 1)
  {
    hide Runnable, Older;
    var u := RequeueExpired(t, 1);
    BulkStatementsAge(t, 0, 0, 1);
    OlderTransitive(plan, t, u);
    SameRunnable(plan, u, m);
    assert QueuedBelow(u, m) == QueuedBelow(t, m);
    SubsetSize(QueuedBelow(u, m), QueuedBelow(plan, m));
  }

  lemma LeasableRow(t: Table, m: RowId)
    requires Leasable(t, m)
    ensures m in t && t[m].status == Queued
  {
  }

  lemma FreshIsEarly(w: World)
    requires Fresh(w)
    ensures Early(w.rows)
  {
  }

  /** A completion resolves its lease, and before it writes anything the reaper takes the row back. */
  lemma Overtaken(start: World, rho: Outcomes, m: RowId, a: Status)
    returns (ws: seq<World>, w: World, q: Pid, stale: LeaseId)
    requires Fresh(start) && Leasable(start.rows, m) && InBatch(start.rows, CANDIDATE_BATCH_SIZE, m)
    requires a in rho(m) && IsTerminal(a)
    ensures Reaches(ws, start, rho, w) && q in w.calls && w.calls[q] == Completing(m, stale, a, 0)
    ensures stale in w.requeued && Early(w.rows)
    ensures Leasable(w.rows, m) && InBatch(w.rows, CANDIDATE_BATCH_SIZE, m)
  {
    hide Reaches, Leasable, InBatch, QueuedBelow, Fresh, Older, Early;
    StartsRun(start, rho);
    FreshIsEarly(start);
    ws, w, stale := Grant([start], start, rho, start, m);
    q := Unused(w.calls.Keys);
    var begin := BeginComplete(q, m, stale, a);
    ws := Extend(ws, start, rho, w, begin);
    w := Apply(w, begin, rho);
    StillLeasable(start.rows, w.rows, m);
    ws := Extend(ws, start, rho, w, Reap(1));
    w := Apply(w, Reap(1), rho);
  }

  /** From any plan, for any leasable row that acquire looks at: the completion of a lease that was taken
      back writes its result and finish time into the queued row. */
  lemma StaleResultOnQueuedRow(start: World, rho: Outcomes, m: RowId, a: Status)
    returns (ws: seq<World>, w: World, q: Pid, stale: LeaseId)
    requires Fresh(start) && Leasable(start.rows, m) && InBatch(start.rows, CANDIDATE_BATCH_SIZE, m)
    requires a in rho(m) && IsTerminal(a)
    ensures |ws| >= 2 && Reaches(ws, start, rho, w)
    ensures var v := ws[|ws| - 2];
      && q in v.calls && v.calls[q] == Completing(m, stale, a, 0) && stale in v.requeued
      && m in v.rows && v.rows[m].status == Queued
    ensures m in w.rows && w.rows[m].status == Queued && w.rows[m].result == Some(a)
    ensures w.rows[m].finishedAt == Some(0)
  {
    hide Follows, Leasable, InBatch, Fresh, Early;
    ws, w, q, stale := Overtaken(start, rho, m, a);
    LeasableRow(w.rows, m);
    var v := w;
    ws := Extend(ws, start, rho, w, Write(q, 0));
    w := Apply(w, Write(q, 0), rho);
  }

  /** From any plan, for any leasable row that acquire looks at: a completion resolves its lease, the
      reaper takes the row back and it is leased again, and then the completion ends the row under the
      new lease. */
  lemma StaleCompletionEndsRow(start: World, rho: Outcomes, m: RowId, a: Status)
    returns (ws: seq<World>, w: World, q: Pid, stale: LeaseId, current: LeaseId)
    requires Fresh(start) && Leasable(start.rows, m) && InBatch(start.rows, CANDIDATE_BATCH_SIZE, m)
    requires a in rho(m) && IsTerminal(a)
    ensures |ws| >= 2 && Reaches(ws, start, rho, w)
    ensures var v := ws[|ws| - 2];
      && q in v.calls && v.calls[q] == Completing(m, stale, a, 2) && stale in v.requeued
      && stale != current && Holds(v.rows, m, current) && v.rows[m].status == Running
    ensures Holds(w.rows, m, current) && w.rows[m].status == a
  {
    hide Reaches, Leasable, InBatch, QueuedBelow, Fresh, Older, Early;
    ws, w, q, stale := Overtaken(start, rho, m, a);
    ws, w, current := Grant(ws, start, rho, w, m);
    HeldIsCurrent(ws, start, rho, w, m, current);
    ws, w := WriteThrice(ws, start, rho, w, q, m, stale, current, a);
  }

  lemma HeldIsCurrent(ws: seq<World>, start: World, rho: Outcomes, w: World, m: RowId, l: LeaseId)
    requires Reaches(ws, start, rho, w) && Holds(w.rows, m, l)
    ensures l !in w.requeued
  {
    hide Follows, Fresh;
    RunsKeepLeases(ws, rho, |ws| - 1);
  }

  lemma WriteThrice(ws: seq<World>, start: World, rho: Outcomes, w: World, q: Pid, m: RowId, stale: LeaseId,
                    l: LeaseId, a: Status)
    returns (more: seq<World>, u: World)
    requires Reaches(ws, start, rho, w) && q in w.calls && w.calls[q] == Completing(m, stale, a, 0)
    requires IsTerminal(a)
    requires Holds(w.rows, m, l) && w.rows[m].status == Leased && stale in w.requeued
    ensures |more| >= 2 && Reaches(more, start, rho, u) && Holds(u.rows, m, l) && u.rows[m].status == a
    ensures var v := more[|more| - 2];
      && q in v.calls && v.calls[q] == Completing(m, stale, a, 2) && stale in v.requeued
      && Holds(v.rows, m, l) && v.rows[m].status == Running
  {
    hide Reaches;
    more, u := Writes(ws, start, rho, w, q, 0);
    more, u := Writes(more, start, rho, u, q, 0);
    var last, before := u, more;
    assert Reaches(before, start, rho, last);
    more, u := Writes(more, start, rho, u, q, 0);
    LastWorld(before, start, rho, last);
  }

  /** With one result per lease: the completion of a lease that was taken back reports a and ends the row
      under the next lease; then that lease's own completion reports b, and the row keeps status a and
      shows result b. */
  lemma HolderIsOverruled(start: World, rho: Outcomes, m: RowId, a: Status, b: Status)
    returns (ws: seq<World>, i: nat, w: World, q: Pid, r: Pid, stale: LeaseId, current: LeaseId)
    requires Fresh(start) && Leasable(start.rows, m) && InBatch(start.rows, CANDIDATE_BATCH_SIZE, m)
    requires a in rho(m) && b in rho(m) && IsTerminal(a) && IsTerminal(b)
    ensures |ws| >= 2 && i + 2 < |ws| && Reaches(ws, start, rho, w) && stale != current
    ensures var v := ws[i];
      && q in v.calls && v.calls[q] == Completing(m, stale, a, 2) && stale in v.requeued
      && Holds(v.rows, m, current) && v.rows[m].status == Running
    ensures var v := ws[|ws| - 2];
      r in v.calls && v.calls[r] == Completing(m, current, b, 0) && Holds(v.rows, m, current) && v.rows[m].status == a
    ensures Holds(w.rows, m, current) && w.rows[m].status == a && w.rows[m].result == Some(b)
  {
    hide Reaches, Leasable, InBatch, Fresh, IsTerminal;
    ws, w, q, stale, current := StaleCompletionEndsRow(start, rho, m, a);
    i := |ws| - 2;
    r := Unused(w.calls.Keys);
    var before := ws;
    ws := Extend(ws, start, rho, w, BeginComplete(r, m, current, b));
    w := Apply(w, BeginComplete(r, m, current, b), rho);
    assert ws == before + [w];
    ws, w := Writes(ws, start, rho, w, r, 0);
  }

  lemma LastWorld(ws: seq<World>, start: World, rho: Outcomes, w: World)
    requires Reaches(ws, start, rho, w)
    ensures |ws| > 0 && ws[|ws| - 1] == w
  {
  }
}
