/** Safety over every interleaving of the dispatcher's statements: gating decisions taken on stale
    rows stay right, the outcome of a run does not depend on the schedule, and leases are handed out
    exactly once. */
module InterleavingTheorems {
  import opened Jobs
  import opened Gating
  import opened JobStore
  import opened Handlers
  import opened Interleaving

  /* ---------- gating and outcomes ---------- */

  /** A held row may run; an ended row was skipped by the rule, or ran and ended as its runner said. */
  ghost predicate RowOk(t: Table, rho: Outcomes, id: RowId)
    requires id in t
  {
    && (Busy(t[id]) ==> Runnable(t, id))
    && (IsTerminal(t[id].status) ==>
        || (RuleApplies(t, id) && t[id].status == Skipped)
        || (Runnable(t, id) && t[id].status in rho(id)))
  }

  /** What a call has read is older than the table; what it will write is its runner's result. */
  ghost predicate CallOk(c: Call, t: Table, rho: Outcomes) {
    match c
    case Acquiring(_, _, cache) => forall r :: r in cache ==> Older(cache[r], t)
    case Scanning(_, snap, _, _) => Older(snap, t)
    case Stamping(_, next) => CallOk(next, t, rho)
    case Completing(id, _, result, _) => id in t && result in rho(id) && IsTerminal(result)
    case _ => true
  }

  ghost predicate RowsOk(t: Table, rho: Outcomes) {
    forall id :: id in t ==> RowOk(t, rho, id)
  }

  ghost predicate CallsOk(w: World, rho: Outcomes) {
    forall p :: p in w.calls ==> CallOk(w.calls[p], w.rows, rho)
  }

  /** The status changes one statement may make to a row. */
  ghost predicate StatusStep(t: Table, u: Table, rho: Outcomes, id: RowId)
    requires id in t && id in u
  {
    || u[id].status == t[id].status
    || u[id].status == Queued
    || (u[id].status == Running && t[id].status == Leased)
    || (u[id].status == Leased && Runnable(t, id))
    || (u[id].status == Skipped && RuleApplies(t, id))
    || (t[id].status == Running && u[id].status in rho(id))
  }

  lemma RowsStayOk(t: Table, u: Table, rho: Outcomes)
    requires Older(t, u) && RowsOk(t, rho) && forall id :: id in t ==> StatusStep(t, u, rho, id)
    ensures RowsOk(u, rho)
  {
    hide Runnable, RuleApplies;
    forall id | id in u ensures RowOk(u, rho, id) {
      DecisionsAreStable(t, u, id);
      assert RowOk(t, rho, id) && StatusStep(t, u, rho, id);
    }
  }

  lemma {:induction false} CallStaysOk(c: Call, t: Table, u: Table, rho: Outcomes)
    requires CallOk(c, t, rho) && Older(t, u)
    ensures CallOk(c, u, rho)
  {
    match c
    case Acquiring(_, _, cache) =>
      forall r | r in cache ensures Older(cache[r], u) { OlderTransitive(cache[r], t, u); }
    case Scanning(_, snap, _, _) => OlderTransitive(snap, t, u);
    case Stamping(_, next) => CallStaysOk(next, t, u, rho);
    case _ =>
  }

  /** Replacing one call and ageing the table keeps every call sound. */
  lemma CallsStayOk(w: World, u: World, p: Pid, rho: Outcomes)
    requires CallsOk(w, rho) && Older(w.rows, u.rows)
    requires p in u.calls && CallOk(u.calls[p], u.rows, rho)
    requires forall q :: q in u.calls && q != p ==> q in w.calls && u.calls[q] == w.calls[q]
    ensures CallsOk(u, rho)
  {
    hide CallOk, Older;
    forall q | q in u.calls ensures CallOk(u.calls[q], u.rows, rho) {
      if q != p { CallStaysOk(w.calls[q], w.rows, u.rows, rho); }
    }
  }

  lemma SkipIsRight(w: World, p: Pid, rho: Outcomes)
    requires CallsOk(w, rho) && p in w.calls && DecidesSkip(w.calls[p], w.rows)
    ensures RuleApplies(w.rows, w.calls[p].todo[0])
  {
    hide RuleApplies, Older;
    var c := w.calls[p];
    assert CallOk(c, w.rows, rho);
    DecisionsAreStable(View(c, w.rows, c.todo[0]), w.rows, c.todo[0]);
  }

  lemma LeaseIsRight(w: World, p: Pid, rho: Outcomes)
    requires CallsOk(w, rho) && p in w.calls && DecidesLease(w.calls[p], w.rows)
    ensures Runnable(w.rows, w.calls[p].todo[0])
  {
    hide RuleApplies, Older;
    var c := w.calls[p];
    var id := c.todo[0];
    assert CallOk(c, w.rows, rho);
    if w.rows[id].needs != [] {
      DecisionsAreStable(View(c, w.rows, id), w.rows, id);
    } else {
      assert forall k :: !Needs(w.rows, id, k);
    }
  }

  /** One row's status changes by a step; the rest of the table stays. */
  lemma OneRowSteps(t: Table, u: Table, rho: Outcomes, id: RowId)
    requires id in t && u.Keys == t.Keys && SamePlan(t[id], u[id]) && StatusStep(t, u, rho, id)
    requires IsTerminal(t[id].status) ==> u[id].status == t[id].status
    requires forall k :: k in t && k != id ==> u[k] == t[k]
    requires RowsOk(t, rho)
    ensures Older(t, u) && RowsOk(u, rho)
  {
    hide Runnable, RuleApplies, RowsOk;
    RowsStayOk(t, u, rho);
  }

  lemma SkipStepKeeps(w: World, p: Pid, rho: Outcomes)
    requires RowsOk(w.rows, rho) && CallsOk(w, rho) && p in w.calls && DecidesSkip(w.calls[p], w.rows)
    ensures RowsOk(Skipping(w, p).rows, rho) && CallsOk(Skipping(w, p), rho)
  {
    hide RuleApplies, RowsOk, Runnable, CallsOk, Older;
    var u := Skipping(w, p);
    SkipIsRight(w, p, rho);
    SelfOlder(w.rows);
    OneCall(w, p, rho);
    if CanTransition(w.rows, w.calls[p].todo[0], Queued, Skipped) {
      OneRowSteps(w.rows, u.rows, rho, w.calls[p].todo[0]);
    }
    CallStaysOk(Tail(w.calls[p]), w.rows, u.rows, rho);
    CallsStayOk(w, u, p, rho);
  }

  lemma LeaseStepKeeps(w: World, p: Pid, l: LeaseId, d: Time, now: Time, rho: Outcomes)
    requires RowsOk(w.rows, rho) && CallsOk(w, rho) && p in w.calls && DecidesLease(w.calls[p], w.rows)
    ensures RowsOk(Leasing(w, p, l, d, now).rows, rho) && CallsOk(Leasing(w, p, l, d, now), rho)
  {
    hide RuleApplies, RowsOk, Runnable;
    var u := Leasing(w, p, l, d, now);
    LeaseIsRight(w, p, rho);
    SelfOlder(w.rows);
    assert CallOk(w.calls[p], w.rows, rho);
    if CanLease(w.rows, w.calls[p].todo[0]) {
      OneRowSteps(w.rows, u.rows, rho, w.calls[p].todo[0]);
    }
    CallsStayOk(w, u, p, rho);
  }

  /** Statements of CompleteJob, ReportStatus and the heartbeat. */
  lemma WriteRowsKeeps(t: Table, c: Call, now: Time, rho: Outcomes)
    requires RowsOk(t, rho) && CallOk(c, t, rho)
    ensures Older(t, WriteRows(t, c, now)) && RowsOk(WriteRows(t, c, now), rho)
  {
    hide RuleApplies, RowsOk, Runnable;
    var u := WriteRows(t, c, now);
    SelfOlder(t);
    if c.Completing? || (c.Reporting? && c.id in t) {
      OneRowSteps(t, u, rho, c.id);
    } else if c.Renewing? {
      BulkStatementsAge(t, c.lease, c.deadline, now);
      RowsStayOk(t, u, rho);
    }
  }

  lemma WriteStepKeeps(w: World, p: Pid, now: Time, rho: Outcomes)
    requires RowsOk(w.rows, rho) && CallsOk(w, rho) && Enabled(w, Write(p, now), rho)
    ensures var u := Apply(w, Write(p, now), rho); RowsOk(u.rows, rho) && CallsOk(u, rho)
  {
    hide RowsOk, Older, WriteRows;
    var u := Apply(w, Write(p, now), rho);
    assert CallOk(w.calls[p], w.rows, rho);
    WriteRowsKeeps(w.rows, w.calls[p], now, rho);
    CallStaysOk(w.calls[p], w.rows, u.rows, rho);
    CallsStayOk(w, u, p, rho);
  }

  lemma ReapKeeps(w: World, now: Time, rho: Outcomes)
    requires RowsOk(w.rows, rho) && CallsOk(w, rho)
    ensures var u := Apply(w, Reap(now), rho); RowsOk(u.rows, rho) && CallsOk(u, rho)
  {
    hide RowsOk, Runnable, RuleApplies, CallOk;
    var u := Apply(w, Reap(now), rho);
    BulkStatementsAge(w.rows, 0, 0, now);
    RowsStayOk(w.rows, u.rows, rho);
    forall q | q in u.calls ensures CallOk(u.calls[q], u.rows, rho) {
      CallStaysOk(w.calls[q], w.rows, u.rows, rho);
    }
  }

  lemma StampKeeps(w: World, p: Pid, now: Time, rho: Outcomes)
    requires RowsOk(w.rows, rho) && CallsOk(w, rho) && Enabled(w, Stamp(p, now), rho)
    ensures var u := Apply(w, Stamp(p, now), rho); RowsOk(u.rows, rho) && CallsOk(u, rho)
  {
    hide RowsOk, Runnable, RuleApplies;
    var u := Apply(w, Stamp(p, now), rho);
    var id := w.calls[p].id;
    assert CallOk(w.calls[p], w.rows, rho);
    SelfOlder(w.rows);
    if id in w.rows {
      OneRowSteps(w.rows, u.rows, rho, id);
    }
    CallStaysOk(w.calls[p].next, w.rows, u.rows, rho);
    CallsStayOk(w, u, p, rho);
  }

  /** The call that takes the step. */
  function Actor(a: Action): Option<Pid> {
    match a
    case Reap(_) => None
    case BeginAcquire(p, _, _) => Some(p)
    case BeginComplete(p, _, _, _) => Some(p)
    case BeginReport(p, _, _) => Some(p)
    case BeginRenew(p, _, _, _, _) => Some(p)
    case ReadRun(p) => Some(p)
    case PassOver(p) => Some(p)
    case TrySkip(p) => Some(p)
    case TryLease(p, _, _, _) => Some(p)
    case Stamp(p, _) => Some(p)
    case ScanRun(p, _) => Some(p)
    case EndScan(p) => Some(p)
    case ReadFinal(p) => Some(p)
    case SetRun(p) => Some(p)
    case Write(p, _) => Some(p)
  }

  /** A step leaves every other call where it was. */
  lemma OthersWait(w: World, a: Action, rho: Outcomes)
    requires Enabled(w, a, rho)
    ensures var u := Apply(w, a, rho);
      && (forall p :: p in w.calls ==> p in u.calls)
      && (forall p :: p in u.calls && Actor(a) != Some(p) ==> p in w.calls && u.calls[p] == w.calls[p])
  {
    hide DecidesSkip, DecidesLease, WriteRows, AfterWrite, FinalRead, ListsBatch;
    match a
    case TrySkip(p) => SkipReads(w, p);
    case TryLease(p, _, _, _) => LeaseReads(w, p);
    case _ =>
  }

  /** Steps that write no row. */
  lemma ReadingStepKeeps(w: World, a: Action, rho: Outcomes)
    requires CallsOk(w, rho) && Enabled(w, a, rho)
    requires !a.Reap? && !a.TrySkip? && !a.TryLease? && !a.Stamp? && !a.Write?
    ensures Apply(w, a, rho).rows == w.rows && CallsOk(Apply(w, a, rho), rho)
  {
    hide CallsOk, DecidesSkip, DecidesLease, Older, RunDone, RollUp, ListsBatch;
    var p := Actor(a).value;
    if p in w.calls { OneCall(w, p, rho); }
    SelfOlder(w.rows);
    CallsStayOk(w, Apply(w, a, rho), p, rho);
  }

  lemma StepKeeps(w: World, a: Action, rho: Outcomes)
    requires RowsOk(w.rows, rho) && CallsOk(w, rho) && Enabled(w, a, rho)
    ensures RowsOk(Apply(w, a, rho).rows, rho) && CallsOk(Apply(w, a, rho), rho)
  {
    hide RowsOk, CallsOk, DecidesSkip, DecidesLease, Older;
    match a
    case Reap(now) => ReapKeeps(w, now, rho);
    case TrySkip(p) => SkipStepKeeps(w, p, rho);
    case TryLease(p, l, d, now) => LeaseStepKeeps(w, p, l, d, now, rho);
    case Stamp(p, now) => StampKeeps(w, p, now, rho);
    case Write(p, now) => WriteStepKeeps(w, p, now, rho);
    case _ => ReadingStepKeeps(w, a, rho);
  }

  lemma OneCall(w: World, p: Pid, rho: Outcomes)
    requires CallsOk(w, rho) && p in w.calls
    ensures CallOk(w.calls[p], w.rows, rho)
  {
  }

  /* ---------- over whole runs ---------- */

  lemma FreshIsOk(w: World, rho: Outcomes)
    requires Fresh(w)
    ensures RowsOk(w.rows, rho) && CallsOk(w, rho)
  {
  }

  lemma {:induction false} RunsStayOk(ws: seq<World>, rho: Outcomes, i: nat)
    requires IsRun(ws, rho) && i < |ws|
    ensures RowsOk(ws[i].rows, rho) && CallsOk(ws[i], rho)
  {
    hide RowsOk, CallsOk, Enabled, Apply, Fresh;
    if i == 0 {
      FreshIsOk(ws[0], rho);
    } else {
      RunsStayOk(ws, rho, i - 1);
      assert Follows(ws[i - 1], ws[i - 1 + 1], rho);
      var a :| Enabled(ws[i - 1], a, rho) && ws[i] == Apply(ws[i - 1], a, rho);
      StepKeeps(ws[i - 1], a, rho);
    }
  }

  /** Gating is stable against stale reads: in every state of every interleaving, a leased or running
      row has rows for all its needs, all of them ended, and all succeeded unless it has an if override. */
  lemma HeldRowsMayRun(ws: seq<World>, rho: Outcomes, i: nat, id: RowId)
    requires IsRun(ws, rho) && i < |ws| && id in ws[i].rows && Busy(ws[i].rows[id])
    ensures var t := ws[i].rows;
      && (forall name :: name in t[id].needs ==> HasRow(t, t[id].run, name))
      && (forall k :: Needs(t, id, k) ==> t[k].status in {Success, Failure, Skipped, Cancelled})
      && (t[id].ifExpr in {None, Some(""), Some("success()")} ==>
          forall k :: Needs(t, id, k) ==> t[k].status == Success)
  {
    hide IsRun;
    RunsStayOk(ws, rho, i);
    var t := ws[i].rows;
    assert RowOk(t, rho, id);
    forall k | Needs(t, id, k) && t[id].ifExpr in {None, Some(""), Some("success()")}
      ensures t[k].status == Success
    {
      assert !Blocking(t, id, k);
    }
  }

  /** And in every state the needs of a skipped row have rows and have ended; it was reported as skipped, or
      one of its needs did not succeed and its `if` is absent, empty or "success()". */
  lemma SkippedRowsWereDue(ws: seq<World>, rho: Outcomes, i: nat, id: RowId)
    requires IsRun(ws, rho) && i < |ws| && id in ws[i].rows && ws[i].rows[id].status == Skipped
    ensures var t := ws[i].rows;
      && (forall name :: name in t[id].needs ==> HasRow(t, t[id].run, name))
      && (forall k :: Needs(t, id, k) ==> t[k].status in {Success, Failure, Skipped, Cancelled})
      && (Skipped in rho(id) ||
          (t[id].ifExpr in {None, Some(""), Some("success()")}
           && exists k :: Needs(t, id, k) && t[k].status != Success))
  {
    hide IsRun;
    RunsStayOk(ws, rho, i);
    var t := ws[i].rows;
    assert RowOk(t, rho, id);
    if k :| Blocking(t, id, k) { assert Needs(t, id, k) && t[k].status != Success; }
  }

  lemma WriteAges(t: Table, c: Call, now: Time)
    ensures Older(t, WriteRows(t, c, now))
  {
    hide Older, SetResult, TransitionStatus, RenewLease;
    SelfOlder(t);
    match c
    case Completing(id, _, result, _) =>
      RowStatementsAge(t, id, Leased, Running, 0, 0, 0, now, result);
      RowStatementsAge(t, id, Running, result, 0, 0, 0, now, result);
    case Reporting(id, _) => RowStatementsAge(t, id, Leased, Running, 0, 0, 0, now, Queued);
    case Renewing(l, d) => BulkStatementsAge(t, l, d, now);
    case _ =>
  }

  lemma StepAges(w: World, a: Action, rho: Outcomes)
    requires Enabled(w, a, rho)
    ensures Older(w.rows, Apply(w, a, rho).rows)
  {
    hide Older, RuleApplies, Runnable, WriteRows, DecidesSkip, DecidesLease, TransitionStatus, Lease, SetResult,
         RequeueExpired;
    var t := w.rows;
    SelfOlder(t);
    match a
    case Reap(now) => BulkStatementsAge(t, 0, 0, now);
    case TrySkip(p) =>
      SkipReads(w, p);
      RowStatementsAge(t, w.calls[p].todo[0], Queued, Skipped, 0, 0, 0, 0, Queued);
    case TryLease(p, l, d, now) =>
      LeaseReads(w, p);
      RowStatementsAge(t, w.calls[p].todo[0], Queued, Queued, l, w.calls[p].runner, d, now, Queued);
    case Stamp(p, now) => RowStatementsAge(t, w.calls[p].id, Queued, Queued, 0, 0, 0, now, Skipped);
    case Write(p, now) => WriteAges(t, w.calls[p], now);
    case _ =>
  }

  lemma SkipReads(w: World, p: Pid)
    requires p in w.calls && DecidesSkip(w.calls[p], w.rows)
    ensures Todo(w.calls[p])
  {
  }

  lemma LeaseReads(w: World, p: Pid)
    requires p in w.calls && DecidesLease(w.calls[p], w.rows)
    ensures Todo(w.calls[p]) && w.calls[p].Acquiring?
  {
  }

  lemma {:induction false} RunsAge(ws: seq<World>, rho: Outcomes, i: nat)
    requires IsRun(ws, rho) && i < |ws|
    ensures Older(ws[0].rows, ws[i].rows)
  {
    hide Enabled, Apply, Fresh, Older;
    if i == 0 {
      SelfOlder(ws[0].rows);
    } else {
      RunsAge(ws, rho, i - 1);
      assert Follows(ws[i - 1], ws[i - 1 + 1], rho);
      var a :| Enabled(ws[i - 1], a, rho) && ws[i] == Apply(ws[i - 1], a, rho);
      StepAges(ws[i - 1], a, rho);
      OlderTransitive(ws[0].rows, ws[i - 1].rows, ws[i].rows);
    }
  }

  /* ---------- schedule independence ---------- */

  /** The needs of the rows of s lie in s and are numbered before them. */
  ghost predicate Grounded(t: Table, s: set<RowId>, depth: RowId -> nat) {
    forall id, k :: id in s && Needs(t, id, k) ==> k in s && depth(k) < depth(id)
  }

  /** The recursive meaning of the plan: the rule skips the row if its if is default and some need's
      value is not success. */
  ghost predicate Doomed(t: Table, f: RowId -> Status, s: set<RowId>, depth: RowId -> nat, id: RowId)
    requires Grounded(t, s, depth) && id in s
    decreases depth(id), 0
  {
    && id in t && t[id].ifExpr in {None, Some(""), Some("success()")}
    && exists k :: Needs(t, id, k) && Value(t, f, s, depth, k) != Success
  }

  /** A row that the rule does not skip has the value its runner reports. */
  ghost function Value(t: Table, f: RowId -> Status, s: set<RowId>, depth: RowId -> nat, id: RowId): Status
    requires Grounded(t, s, depth) && id in s
    decreases depth(id), 1
  {
    if Doomed(t, f, s, depth, id) then Skipped else f(id)
  }

  /** All completions of a row of s report the same. */
  ghost predicate OneReport(rho: Outcomes, f: RowId -> Status, s: set<RowId>) {
    forall id :: id in s ==> rho(id) <= {f(id)}
  }

  lemma {:induction false} OutcomeIsValue(plan: Table, t: Table, rho: Outcomes, f: RowId -> Status,
                                          s: set<RowId>, depth: RowId -> nat, id: RowId)
    requires Older(plan, t) && RowsOk(t, rho) && OneReport(rho, f, s) && Grounded(plan, s, depth) && id in s && id in t
    requires IsTerminal(t[id].status)
    ensures t[id].status == Value(plan, f, s, depth, id)
    decreases depth(id), 1
  {
    hide RowsOk, Older, RuleApplies, Runnable;
    OkRow(t, rho, id);
    VerdictIsDoom(plan, t, rho, f, s, depth, id);
  }

  /** Once the needs have ended, the rule's verdict on the row is the one the plan gives. */
  lemma {:induction false} VerdictIsDoom(plan: Table, t: Table, rho: Outcomes, f: RowId -> Status,
                                         s: set<RowId>, depth: RowId -> nat, id: RowId)
    requires Older(plan, t) && RowsOk(t, rho) && OneReport(rho, f, s) && Grounded(plan, s, depth) && id in s && id in t
    ensures RuleApplies(t, id) ==> Doomed(plan, f, s, depth, id)
    ensures Runnable(t, id) ==> !Doomed(plan, f, s, depth, id)
    decreases depth(id), 0
  {
    assert forall k :: k in t ==> SamePlan(plan[k], t[k]);
    if NeedsTerminal(t, id) {
      forall k | Needs(plan, id, k) ensures IsTerminal(t[k].status) && t[k].status == Value(plan, f, s, depth, k) {
        assert Needs(t, id, k);
        OutcomeIsValue(plan, t, rho, f, s, depth, k);
      }
      if k :| Blocking(t, id, k) {
        assert Needs(plan, id, k);
      }
      if k :| Needs(plan, id, k) && Value(plan, f, s, depth, k) != Success {
        assert Blocking(t, id, k);
      }
    }
  }

  /** In every state of every interleaving, an ended row has the status the plan assigns to it: for
      every set of rows that holds its own needs, without a cycle among them, and that can each report one
      result only. */
  lemma ScheduleIndependence(ws: seq<World>, rho: Outcomes, f: RowId -> Status, s: set<RowId>, depth: RowId -> nat,
                             i: nat, id: RowId)
    requires IsRun(ws, rho) && i < |ws| && Grounded(ws[0].rows, s, depth)
    requires OneReport(rho, f, s) && id in s && id in ws[i].rows && IsTerminal(ws[i].rows[id].status)
    ensures ws[i].rows[id].status == Value(ws[0].rows, f, s, depth, id)
  {
    hide IsRun, RowsOk;
    RunsStayOk(ws, rho, i);
    RunsAge(ws, rho, i);
    OutcomeIsValue(ws[0].rows, ws[i].rows, rho, f, s, depth, id);
  }

  /** A verdict on the row, and the status it leads to. */
  ghost predicate Justified(t: Table, rho: Outcomes, id: RowId, s: Status)
    requires id in t
  {
    (RuleApplies(t, id) && s == Skipped) || (Runnable(t, id) && s in rho(id))
  }

  /** The step that ends a row finds its needs ended, and decides by them. */
  lemma EndingStep(w: World, a: Action, rho: Outcomes, id: RowId)
    requires RowsOk(w.rows, rho) && CallsOk(w, rho) && Enabled(w, a, rho) && id in w.rows
    requires !IsTerminal(w.rows[id].status) && id in Apply(w, a, rho).rows
    requires IsTerminal(Apply(w, a, rho).rows[id].status)
    ensures Justified(w.rows, rho, id, Apply(w, a, rho).rows[id].status)
  {
    hide RuleApplies, Runnable, Older, DecidesSkip, DecidesLease, RowsOk, CallsOk, WriteRows;
    match a
    case TrySkip(p) => SkipIsRight(w, p, rho);
    case Write(p, now) =>
      OneCall(w, p, rho);
      OkRow(w.rows, rho, id);
      EndingWrite(w.rows, w.calls[p], now, rho, id);
    case _ =>
  }

  lemma EndingWrite(t: Table, c: Call, now: Time, rho: Outcomes, id: RowId)
    requires CallOk(c, t, rho) && id in t && RowOk(t, rho, id) && !IsTerminal(t[id].status)
    requires id in WriteRows(t, c, now) && IsTerminal(WriteRows(t, c, now)[id].status)
    ensures Justified(t, rho, id, WriteRows(t, c, now)[id].status)
  {
    hide RuleApplies, Runnable, Older;
  }

  /** Two tables of one plan in which all needs of id ended alike give id the same verdict. */
  lemma SameNeedsSameVerdict(t: Table, u: Table, id: RowId)
    requires id in t && t.Keys == u.Keys && forall k :: k in t ==> SamePlan(t[k], u[k])
    requires forall k :: Needs(t, id, k) && IsTerminal(t[k].status) && IsTerminal(u[k].status) ==>
        t[k].status == u[k].status
    ensures !(RuleApplies(t, id) && Runnable(u, id))
  {
    if RuleApplies(t, id) && Runnable(u, id) {
      assert SamePlan(t[id], u[id]);
      var k :| Blocking(t, id, k);
      assert Needs(u, id, k) && Blocking(u, id, k);
      assert false;
    }
  }

  lemma SharedPlan(ws: seq<World>, vs: seq<World>, rho: Outcomes, sigma: Outcomes, i: nat, j: nat)
    requires IsRun(ws, rho) && IsRun(vs, sigma) && ws[0].rows == vs[0].rows && i < |ws| && j < |vs|
    ensures ws[i].rows.Keys == vs[j].rows.Keys
    ensures forall k :: k in ws[i].rows ==> SamePlan(ws[i].rows[k], vs[j].rows[k])
  {
    hide IsRun;
    RunsAge(ws, rho, i);
    RunsAge(vs, sigma, j);
    forall k | k in ws[i].rows ensures SamePlan(ws[i].rows[k], vs[j].rows[k]) {
      assert SamePlan(ws[0].rows[k], ws[i].rows[k]) && SamePlan(vs[0].rows[k], vs[j].rows[k]);
    }
  }

  ghost predicate HoldsNeeds(t: Table, s: set<RowId>) {
    forall id, k :: id in s && Needs(t, id, k) ==> k in s
  }

  /** Without any premise on the needs graph: a row that ends in two interleavings of one plan ends alike,
      if it and all it depends on can each report one result only; other rows may report anything. */
  lemma {:induction false} SchedulesAgree(ws: seq<World>, vs: seq<World>, rho: Outcomes, sigma: Outcomes,
                                          f: RowId -> Status, s: set<RowId>, i: nat, j: nat, id: RowId)
    requires IsRun(ws, rho) && IsRun(vs, sigma) && ws[0].rows == vs[0].rows && i < |ws| && j < |vs|
    requires HoldsNeeds(ws[0].rows, s) && OneReport(rho, f, s) && OneReport(sigma, f, s) && id in s
    requires id in ws[i].rows && id in vs[j].rows && IsTerminal(ws[i].rows[id].status)
    requires IsTerminal(vs[j].rows[id].status)
    ensures ws[i].rows[id].status == vs[j].rows[id].status
    decreases i
  {
    hide Enabled, Apply, RowsOk, CallsOk, RuleApplies, Runnable;
    if i > 0 {
      var w, u := ws[i - 1], vs[j].rows;
      assert Follows(ws[i - 1], ws[i - 1 + 1], rho);
      var a :| Enabled(w, a, rho) && ws[i] == Apply(w, a, rho);
      StepAges(w, a, rho);
      if IsTerminal(w.rows[id].status) {
        SchedulesAgree(ws, vs, rho, sigma, f, s, i - 1, j, id);
      } else {
        RunsStayOk(ws, rho, i - 1);
        RunsStayOk(vs, sigma, j);
        EndingStep(w, a, rho, id);
        OkRow(u, sigma, id);
        SharedPlan(ws, vs, rho, sigma, i - 1, j);
        RunsAge(ws, rho, i - 1);
        NeedsBackwards(ws[0].rows, w.rows, id);
        forall k | Needs(w.rows, id, k) && IsTerminal(w.rows[k].status) && IsTerminal(u[k].status)
          ensures w.rows[k].status == u[k].status
        {
          SchedulesAgree(ws, vs, rho, sigma, f, s, i - 1, j, k);
        }
        SameNeedsSameVerdict(w.rows, u, id);
        NeedsBackwards(w.rows, u, id);
        SameNeedsSameVerdict(u, w.rows, id);
      }
    }
  }

  lemma OkRow(t: Table, rho: Outcomes, id: RowId)
    requires RowsOk(t, rho) && id in t
    ensures RowOk(t, rho, id)
  {
  }

  lemma NeedsBackwards(t: Table, u: Table, id: RowId)
    requires id in t && t.Keys == u.Keys && forall k :: k in t ==> SamePlan(t[k], u[k])
    ensures forall k :: Needs(u, id, k) ==> Needs(t, id, k)
    ensures forall k :: k in u ==> SamePlan(u[k], t[k])
  {
    assert SamePlan(t[id], u[id]);
  }

  /* ---------- leases ---------- */

  /** Every granted lease is either held by its row under its runner, or was taken back; never both. */
  ghost predicate LeasesOk(w: World) {
    && (forall id :: id in w.rows && w.rows[id].status == Queued ==> w.rows[id].lease == None)
    && (forall id :: id in w.rows && Busy(w.rows[id]) ==> w.rows[id].lease.Some?)
    && (forall id, l :: Holds(w.rows, id, l) ==>
        l in w.granted && l !in w.requeued && w.rows[id].runner.Some? && w.granted[l] == (id, w.rows[id].runner.value))
    && (forall l :: l in w.granted && l !in w.requeued ==> Holds(w.rows, w.granted[l].0, l))
    && (forall l :: l in w.requeued ==> l in w.granted)
  }

  /** A statement that keeps runner and lease columns, and leaves no held row queued. */
  lemma SameHoldersStayOk(w: World, u: World)
    requires LeasesOk(w) && u.granted == w.granted && u.requeued == w.requeued && SameHolders(w.rows, u.rows)
    ensures LeasesOk(u)
  {
    assert forall id, l :: Holds(u.rows, id, l) <==> Holds(w.rows, id, l);
  }

  lemma GrantKeepsLeases(w: World, p: Pid, l: LeaseId, d: Time, now: Time)
    requires LeasesOk(w) && p in w.calls && w.calls[p].Acquiring? && w.calls[p].todo != [] && l !in w.granted
    ensures LeasesOk(Leasing(w, p, l, d, now))
  {
    var id := w.calls[p].todo[0];
    var u := Leasing(w, p, l, d, now);
    if CanLease(w.rows, id) {
      assert forall k, m :: Holds(u.rows, k, m) <==> (k == id && m == l) || Holds(w.rows, k, m);
    }
  }

  lemma ReapKeepsLeases(w: World, now: Time, rho: Outcomes)
    requires LeasesOk(w)
    ensures LeasesOk(Apply(w, Reap(now), rho))
  {
    var u := Apply(w, Reap(now), rho);
    var gone := TakenBack(w.rows, now);
    forall id: RowId, l: LeaseId | Holds(w.rows, id, l) ensures Holds(u.rows, id, l) <==> l !in gone {
      if l in gone {
        var k :| k in w.rows && Expired(w.rows[k], now) && w.rows[k].lease == Some(l);
        assert Holds(w.rows, k, l) && k == id;
      }
    }
    assert forall id, l :: Holds(u.rows, id, l) ==> Holds(w.rows, id, l);
    forall l | l in gone ensures l in w.granted {
      var k :| k in w.rows && Expired(w.rows[k], now) && w.rows[k].lease == Some(l);
      assert Holds(w.rows, k, l);
    }
  }

  /** t and u agree on who holds what, and u queues and hands out no further row. */
  ghost predicate SameHolders(t: Table, u: Table) {
    && u.Keys == t.Keys
    && (forall id :: id in t ==> u[id].lease == t[id].lease && u[id].runner == t[id].runner)
    && (forall id :: id in t && u[id].status == Queued ==> t[id].status == Queued)
    && (forall id :: id in t && Busy(u[id]) ==> Busy(t[id]))
  }

  lemma WriteKeepsHolders(t: Table, c: Call, now: Time, rho: Outcomes)
    requires CallOk(c, t, rho)
    ensures SameHolders(t, WriteRows(t, c, now))
  {
    hide Older, SameHolders, SetResult, TransitionStatus, RenewLease;
    match c
    case Completing(id, _, result, _) => RowWriteKeepsHolders(t, id, result, now);
    case Reporting(id, _) => RowWriteKeepsHolders(t, id, Success, now);
    case Renewing(l, d) => RenewKeepsHolders(t, l, d);
    case _ => NoWriteKeepsHolders(t);
  }

  lemma RowWriteKeepsHolders(t: Table, id: RowId, result: Status, now: Time)
    requires IsTerminal(result)
    ensures SameHolders(t, SetResult(t, id, result, now))
    ensures SameHolders(t, TransitionStatus(t, id, Leased, Running))
    ensures SameHolders(t, TransitionStatus(t, id, Running, result))
  {
    hide SameHolders;
    NoWriteKeepsHolders(t);
    if id in t {
      OneRowKeepsHolders(t, id, t[id].(result := Some(result), finishedAt := Some(now)));
      if t[id].status == Leased { OneRowKeepsHolders(t, id, t[id].(status := Running)); }
      if t[id].status == Running { OneRowKeepsHolders(t, id, t[id].(status := result)); }
    }
  }

  lemma OneRowKeepsHolders(t: Table, id: RowId, j: Job)
    requires id in t && j.lease == t[id].lease && j.runner == t[id].runner
    requires (j.status == Queued ==> t[id].status == Queued) && (Busy(j) ==> Busy(t[id]))
    ensures SameHolders(t, t[id := j])
  {
  }

  lemma RenewKeepsHolders(t: Table, l: LeaseId, d: Time)
    ensures SameHolders(t, RenewLease(t, l, d))
  {
  }

  lemma NoWriteKeepsHolders(t: Table)
    ensures SameHolders(t, t)
  {
  }

  lemma SkippingKeepsHolders(w: World, p: Pid)
    requires p in w.calls && DecidesSkip(w.calls[p], w.rows)
    ensures SameHolders(w.rows, Skipping(w, p).rows)
  {
    hide DecidesSkip, SameHolders;
    SkipReads(w, p);
    var id := w.calls[p].todo[0];
    NoWriteKeepsHolders(w.rows);
    if CanTransition(w.rows, id, Queued, Skipped) {
      OneRowKeepsHolders(w.rows, id, w.rows[id].(status := Skipped));
    }
  }

  lemma StepKeepsLeases(w: World, a: Action, rho: Outcomes)
    requires LeasesOk(w) && CallsOk(w, rho) && Enabled(w, a, rho)
    ensures LeasesOk(Apply(w, a, rho))
  {
    hide LeasesOk, DecidesSkip, DecidesLease, RuleApplies, Runnable, Older, WriteRows, CallsOk, CallOk, SameHolders,
         SetResult, RunDone, RollUp, ListsBatch, Skipping, Leasing, RequeueExpired;
    match a
    case Reap(now) => ReapKeepsLeases(w, now, rho);
    case TryLease(p, l, d, now) =>
      LeaseReads(w, p);
      GrantKeepsLeases(w, p, l, d, now);
    case TrySkip(p) =>
      SkippingKeepsHolders(w, p);
      SkippingKeepsGrants(w, p);
      SameHoldersStayOk(w, Apply(w, a, rho));
    case Write(p, now) =>
      OneCall(w, p, rho);
      WriteKeepsHolders(w.rows, w.calls[p], now, rho);
      SameHoldersStayOk(w, Apply(w, a, rho));
    case Stamp(p, now) =>
      RowWriteKeepsHolders(w.rows, w.calls[p].id, Skipped, now);
      SameHoldersStayOk(w, Apply(w, a, rho));
    case _ =>
      NoWriteKeepsHolders(w.rows);
      SameHoldersStayOk(w, Apply(w, a, rho));
  }

  lemma SkippingKeepsGrants(w: World, p: Pid)
    requires p in w.calls && DecidesSkip(w.calls[p], w.rows)
    ensures Skipping(w, p).granted == w.granted && Skipping(w, p).requeued == w.requeued
  {
    hide RuleApplies;
  }

  lemma {:induction false} RunsKeepLeases(ws: seq<World>, rho: Outcomes, i: nat)
    requires IsRun(ws, rho) && i < |ws|
    ensures LeasesOk(ws[i])
  {
    hide Enabled, Apply, CallsOk, RowsOk;
    if i > 0 {
      RunsKeepLeases(ws, rho, i - 1);
      RunsStayOk(ws, rho, i - 1);
      assert Follows(ws[i - 1], ws[i - 1 + 1], rho);
      var a :| Enabled(ws[i - 1], a, rho) && ws[i] == Apply(ws[i - 1], a, rho);
      StepKeepsLeases(ws[i - 1], a, rho);
    }
  }

  ghost function GrantsOf(w: World, id: RowId): set<LeaseId> {
    set l | l in w.granted && w.granted[l].0 == id
  }

  ghost function RequeuesOf(w: World, id: RowId): set<LeaseId> {
    set l | l in w.requeued && l in w.granted && w.granted[l].0 == id
  }

  /** Exactly-once handoff under any number of racing acquirers and reaper ticks: no lease id is held
      by two rows, and for every row, grants = requeues + (1 if it holds a lease). */
  lemma HandoffIsConserved(ws: seq<World>, rho: Outcomes, i: nat, id: RowId)
    requires IsRun(ws, rho) && i < |ws| && id in ws[i].rows
    ensures UniqueLeases(ws[i].rows)
    ensures |GrantsOf(ws[i], id)| == |RequeuesOf(ws[i], id)| + if ws[i].rows[id].lease.Some? then 1 else 0
  {
    hide IsRun;
    RunsKeepLeases(ws, rho, i);
    var w := ws[i];
    if w.rows[id].lease.Some? {
      var l := w.rows[id].lease.value;
      assert Holds(w.rows, id, l);
      assert GrantsOf(w, id) == RequeuesOf(w, id) + {l};
    } else {
      assert GrantsOf(w, id) == RequeuesOf(w, id);
    }
  }

  lemma StepKeepsBindings(w: World, a: Action, rho: Outcomes, l: LeaseId)
    requires Enabled(w, a, rho) && l in w.granted
    ensures var u := Apply(w, a, rho);
      l in u.granted && u.granted[l] == w.granted[l] && (l in w.requeued ==> l in u.requeued)
  {
    hide DecidesSkip, RuleApplies, Runnable;
  }

  /** A lease id stays bound to one row and one runner, and once taken back stays taken back. */
  lemma {:induction false} LeaseIsBoundForever(ws: seq<World>, rho: Outcomes, i: nat, j: nat, l: LeaseId)
    requires IsRun(ws, rho) && i <= j < |ws| && l in ws[i].granted
    ensures l in ws[j].granted && ws[j].granted[l] == ws[i].granted[l]
    ensures l in ws[i].requeued ==> l in ws[j].requeued && forall id :: !Holds(ws[j].rows, id, l)
    decreases j
  {
    hide Enabled, Apply;
    if i < j {
      LeaseIsBoundForever(ws, rho, i, j - 1, l);
      assert Follows(ws[j - 1], ws[j - 1 + 1], rho);
      var a :| Enabled(ws[j - 1], a, rho) && ws[j] == Apply(ws[j - 1], a, rho);
      StepKeepsBindings(ws[j - 1], a, rho, l);
    }
    RunsKeepLeases(ws, rho, j);
  }
}
