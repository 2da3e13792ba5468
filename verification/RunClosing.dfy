/** The status of a run between statements: gateRun reads the run once more after its last scan and then
    writes the roll-up, and nobody else does (internal/dispatch/queue.go:163-208,
    internal/dispatch/service.go:627-661). */
module RunClosing {
  import opened Jobs
  import opened Gating
  import opened JobStore
  import opened Handlers
  import opened Interleaving
  import opened InterleavingTheorems
  import opened SerialRefines
  import Serial
  import RunStatus

  /* ---------- a written status is right ---------- */

  /** A pending roll-up is that of the run's rows, and a scan looks at rows of its run only. */
  ghost predicate CallFits(c: Call, t: Table) {
    match c
    case RollingUp(run, s) => RunDone(t, run) && s == RollUp(t, run)
    case Scanning(run, _, todo, _) => forall id :: id in todo ==> id in t && t[id].run == run
    case Stamping(_, next) => (next.Acquiring? || next.Scanning?) && CallFits(next, t)
    case _ => true
  }

  ghost predicate RunFits(t: Table, planned: map<RunId, Status>, runs: map<RunId, Status>, run: RunId) {
    run in planned ==> run in runs && (runs[run] == planned[run] || (RunDone(t, run) && runs[run] == RollUp(t, run)))
  }

  ghost predicate Fits(w: World, planned: map<RunId, Status>) {
    && (forall p :: p in w.calls ==> CallFits(w.calls[p], w.rows))
    && (forall run :: RunFits(w.rows, planned, w.runs, run))
  }

  lemma {:induction false} CallStillFits(c: Call, t: Table, u: Table)
    requires CallFits(c, t) && Older(t, u)
    ensures CallFits(c, u)
  {
    match c
    case RollingUp(run, _) => Serial.RollUpIsStable(t, u, run);
    case Scanning(_, _, todo, _) => forall id | id in todo ensures id in u && u[id].run == c.run {
      assert SamePlan(t[id], u[id]);
    }
    case Stamping(_, next) => CallStillFits(next, t, u);
    case _ =>
  }

  /** What one step makes of the call that takes it, on the table before the step. */
  lemma ActorFits(w: World, a: Action, rho: Outcomes, p: Pid)
    requires Enabled(w, a, rho) && Actor(a) == Some(p) && (p in w.calls ==> CallFits(w.calls[p], w.rows))
    ensures p in Apply(w, a, rho).calls && CallFits(Apply(w, a, rho).calls[p], w.rows)
  {
    hide DecidesSkip, DecidesLease, WriteRows, RunDone, RollUp, ListsBatch, Skipping, Leasing;
    match a
    case TrySkip(_) =>
      SkipReads(w, p);
      SkippingFits(w, p);
    case TryLease(_, l, d, now) =>
      LeaseReads(w, p);
      LeasingFits(w, p, l, d, now);
    case _ =>
  }

  lemma SkippingFits(w: World, p: Pid)
    requires p in w.calls && Todo(w.calls[p]) && CallFits(w.calls[p], w.rows)
    ensures p in Skipping(w, p).calls && CallFits(Skipping(w, p).calls[p], w.rows)
  {
    TailFits(w.calls[p], w.rows);
  }

  lemma LeasingFits(w: World, p: Pid, l: LeaseId, d: Time, now: Time)
    requires p in w.calls && Todo(w.calls[p]) && w.calls[p].Acquiring?
    ensures p in Leasing(w, p, l, d, now).calls && CallFits(Leasing(w, p, l, d, now).calls[p], w.rows)
  {
  }

  lemma StepFits(w: World, a: Action, rho: Outcomes)
    requires (forall p :: p in w.calls ==> CallFits(w.calls[p], w.rows)) && Enabled(w, a, rho)
    ensures forall p :: p in Apply(w, a, rho).calls ==> CallFits(Apply(w, a, rho).calls[p], w.rows)
  {
    hide Enabled, Apply, CallFits;
    OthersWait(w, a, rho);
    if Actor(a).Some? { ActorFits(w, a, rho, Actor(a).value); }
  }

  lemma TailFits(c: Call, t: Table)
    requires (c.Acquiring? || c.Scanning?) && c.todo != [] && CallFits(c, t)
    ensures CallFits(Tail(c), t) && (c.Scanning? ==> CallFits(Tail(c).(progressed := true), t))
  {
  }

  lemma RunStillFits(t: Table, u: Table, planned: map<RunId, Status>, runs: map<RunId, Status>, run: RunId)
    requires Older(t, u) && RunFits(t, planned, runs, run)
    ensures RunFits(u, planned, runs, run)
  {
    hide Older;
    if RunDone(t, run) { Serial.RollUpIsStable(t, u, run); }
  }

  lemma StepKeepsFits(w: World, a: Action, rho: Outcomes, planned: map<RunId, Status>)
    requires Fits(w, planned) && Enabled(w, a, rho)
    ensures Fits(Apply(w, a, rho), planned)
  {
    hide Older, Enabled, RunFits;
    var u := Apply(w, a, rho);
    StepAges(w, a, rho);
    StepFits(w, a, rho);
    forall p | p in u.calls ensures CallFits(u.calls[p], u.rows) { CallStillFits(u.calls[p], w.rows, u.rows); }
    forall run ensures RunFits(u.rows, planned, u.runs, run) {
      StepWritesRollUp(w, a, rho, planned, run);
      RunStillFits(w.rows, u.rows, planned, u.runs, run);
    }
  }

  /** Only the write of a roll-up changes a run's status. */
  lemma StatusesStay(w: World, a: Action, rho: Outcomes)
    requires Enabled(w, a, rho) && !a.SetRun?
    ensures Apply(w, a, rho).runs == w.runs
  {
    hide DecidesSkip, DecidesLease, WriteRows, AfterWrite, FinalRead, ListsBatch;
    match a
    case TrySkip(p) => SkipReads(w, p);
    case TryLease(p, _, _, _) => LeaseReads(w, p);
    case _ =>
  }

  lemma StepWritesRollUp(w: World, a: Action, rho: Outcomes, planned: map<RunId, Status>, run: RunId)
    requires Fits(w, planned) && Enabled(w, a, rho)
    ensures RunFits(w.rows, planned, Apply(w, a, rho).runs, run)
  {
    hide DecidesSkip, DecidesLease, WriteRows, RunDone, RollUp, ListsBatch;
    assert RunFits(w.rows, planned, w.runs, run);
    if a.SetRun? { assert CallFits(w.calls[a.p], w.rows); } else { StatusesStay(w, a, rho); }
  }

  lemma {:induction false} RunsFit(ws: seq<World>, rho: Outcomes, i: nat)
    requires IsRun(ws, rho) && i < |ws|
    ensures Fits(ws[i], ws[0].runs)
  {
    hide Enabled, Apply, RunDone, RollUp;
    if i > 0 {
      hide Fits;
      RunsFit(ws, rho, i - 1);
      assert Follows(ws[i - 1], ws[i - 1 + 1], rho);
      var a :| Enabled(ws[i - 1], a, rho) && ws[i] == Apply(ws[i - 1], a, rho);
      StepKeepsFits(ws[i - 1], a, rho, ws[0].runs);
    }
  }

  /** In every state of every interleaving a run still has the status it was planned with, or all its rows
      have ended and it has their roll-up. */
  lemma RunStatusIsRight(ws: seq<World>, rho: Outcomes, i: nat, run: RunId)
    requires IsRun(ws, rho) && i < |ws| && run in ws[0].runs
    ensures var w := ws[i];
      run in w.runs && (w.runs[run] == ws[0].runs[run] || (RunDone(w.rows, run) && w.runs[run] == RollUp(w.rows, run)))
  {
    hide IsRun, RunDone, RollUp;
    RunsFit(ws, rho, i);
    assert RunFits(ws[i].rows, ws[0].runs, ws[i].runs, run);
  }

  /** In every state of every interleaving a run has the status it was planned with, or all its rows have
      ended and its status shows them. */
  lemma RunStatusShowsRows(ws: seq<World>, rho: Outcomes, i: nat, run: RunId)
    requires IsRun(ws, rho) && i < |ws| && run in ws[0].runs
    ensures var w := ws[i];
      && run in w.runs
      && (w.runs[run] == ws[0].runs[run]
          || (RunStatus.AllEnded(w.rows, run) && RunStatus.ShowsRows(w.rows, run, w.runs[run])))
  {
    hide RunStatus.ShowsRows, RollUp, IsRun, RunDone;
    RunStatusIsRight(ws, rho, i, run);
    RunStatus.DoneIsEnded(ws[i].rows, run);
    if RunStatus.AllEnded(ws[i].rows, run) { RunStatus.RollUpShows(ws[i].rows, run); }
  }

  /* ---------- when it is written ---------- */

  /** The call will read the run for its roll-up later on. */
  ghost predicate WillClose(c: Call, t: Table, run: RunId) {
    match c
    case Completing(id, _, _, _) => id in t && t[id].run == run
    case Gating(r) => r == run
    case Scanning(r, _, _, _) => r == run
    case Stamping(_, next) => WillClose(next, t, run)
    case Closing(r) => r == run
    case _ => false
  }

  ghost predicate RollsUp(c: Call, run: RunId) {
    c.RollingUp? && c.run == run
  }

  /** Some gateRun of the run is under way, or about to start, after the run's last row has ended. */
  ghost predicate LateGate(w: World, run: RunId) {
    RunDone(w.rows, run) && exists p :: p in w.calls && WillClose(w.calls[p], w.rows, run)
  }

  ghost predicate Closed(w: World, run: RunId) {
    || (run in w.runs && IsTerminal(w.runs[run]))
    || (exists p :: p in w.calls && RollsUp(w.calls[p], run))
  }

  /** A roll-up comes to be pending only by a late gate. */
  lemma RollsUpAfter(w: World, a: Action, rho: Outcomes, run: RunId, p: Pid)
    requires Enabled(w, a, rho) && Actor(a) == Some(p) && (p in w.calls ==> CallFits(w.calls[p], w.rows))
    requires p in Apply(w, a, rho).calls && RollsUp(Apply(w, a, rho).calls[p], run)
    ensures LateGate(w, run)
  {
    hide DecidesSkip, DecidesLease, WriteRows, RunDone, RollUp, ListsBatch;
    match a
    case TrySkip(_) => SkipReads(w, p);
    case TryLease(_, _, _, _) => LeaseReads(w, p);
    case ReadFinal(_) => assert WillClose(w.calls[p], w.rows, run);
    case _ =>
  }

  /** Only a late gate closes a run. */
  lemma StepCloses(w: World, a: Action, rho: Outcomes, planned: map<RunId, Status>, run: RunId)
    requires Fits(w, planned) && Enabled(w, a, rho) && Closed(Apply(w, a, rho), run) && !LateGate(w, run)
    ensures Closed(w, run)
  {
    hide Enabled, Apply, CallFits, LateGate, RunFits, RollsUp;
    var u := Apply(w, a, rho);
    OthersWait(w, a, rho);
    if p :| p in u.calls && RollsUp(u.calls[p], run) {
      if Actor(a) == Some(p) { RollsUpAfter(w, a, rho, run, p); }
    } else if a.SetRun? {
      StatusWritten(w, a.p, rho, run);
    } else {
      StatusesStay(w, a, rho);
    }
  }

  lemma StatusWritten(w: World, p: Pid, rho: Outcomes, run: RunId)
    requires Enabled(w, SetRun(p), rho)
    ensures p in w.calls && w.calls[p].RollingUp?
    ensures var u, c := Apply(w, SetRun(p), rho), w.calls[p];
      && (RollsUp(c, run) || (run in u.runs <==> run in w.runs))
      && (!RollsUp(c, run) && run in w.runs ==> u.runs[run] == w.runs[run])
      && (RollsUp(c, run) && run in w.runs ==> run in u.runs && u.runs[run] == c.status)
  {
  }

  lemma WillCloseLater(c: Call, t: Table, u: Table, run: RunId)
    requires WillClose(c, t, run) && Older(t, u)
    ensures WillClose(c, u, run)
  {
    if c.Completing? { assert SamePlan(t[c.id], u[c.id]); }
  }

  /** Where a late gate goes in one step. */
  lemma GateMoves(w: World, a: Action, rho: Outcomes, run: RunId, p: Pid)
    requires Enabled(w, a, rho) && RunDone(w.rows, run) && p in w.calls && WillClose(w.calls[p], w.rows, run)
    ensures var u := Apply(w, a, rho);
      p in u.calls && (WillClose(u.calls[p], w.rows, run) || RollsUp(u.calls[p], run))
  {
    hide Enabled, Apply, RunDone, WillClose, RollsUp;
    OthersWait(w, a, rho);
    if Actor(a) == Some(p) { LateGateActs(w, a, rho, run, p); }
  }

  lemma LateGateActs(w: World, a: Action, rho: Outcomes, run: RunId, p: Pid)
    requires Enabled(w, a, rho) && RunDone(w.rows, run) && p in w.calls && WillClose(w.calls[p], w.rows, run)
    requires Actor(a) == Some(p)
    ensures var u := Apply(w, a, rho);
      p in u.calls && (WillClose(u.calls[p], w.rows, run) || RollsUp(u.calls[p], run))
  {
    hide DecidesSkip, DecidesLease, WriteRows, RunDone, RollUp, ListsBatch;
    match a
    case TrySkip(_) =>
      SkipReads(w, p);
      TailWillClose(w.calls[p], w.rows, run);
    case TryLease(_, _, _, _) => LeaseReads(w, p);
    case _ =>
  }

  lemma TailWillClose(c: Call, t: Table, run: RunId)
    requires c.Scanning? && c.todo != [] && WillClose(c, t, run)
    ensures WillClose(Tail(c), t, run) && WillClose(Tail(c).(progressed := true), t, run)
  {
  }

  /** Where a pending roll-up and a terminal status go in one step. */
  lemma ClosedMoves(w: World, a: Action, rho: Outcomes, planned: map<RunId, Status>, run: RunId)
    requires Enabled(w, a, rho) && Fits(w, planned) && run in w.runs && Closed(w, run)
    ensures Closed(Apply(w, a, rho), run)
  {
    hide Enabled, Apply, RunFits, RunDone, RollUp;
    OthersWait(w, a, rho);
    if a.SetRun? {
      StatusWritten(w, a.p, rho, run);
      assert CallFits(w.calls[a.p], w.rows);
      Serial.RollUpIsTerminal(w.rows, run);
    } else {
      StatusesStay(w, a, rho);
      if p :| p in w.calls && RollsUp(w.calls[p], run) {
        if Actor(a) == Some(p) { RollUpWaits(w, a, rho, run, p); }
        assert RollsUp(Apply(w, a, rho).calls[p], run);
      }
    }
  }

  /** The only step of a pending roll-up is to be written. */
  lemma RollUpWaits(w: World, a: Action, rho: Outcomes, run: RunId, p: Pid)
    requires Enabled(w, a, rho) && Actor(a) == Some(p) && p in w.calls && RollsUp(w.calls[p], run)
    ensures a == SetRun(p)
  {
    hide DecidesSkip, DecidesLease, ListsBatch;
    match a
    case TrySkip(_) => SkipReads(w, p);
    case TryLease(_, _, _, _) => LeaseReads(w, p);
    case _ =>
  }

  /** Once a late gate exists the run is closed, or will be by a call that is still pending. */
  lemma LateGateMoves(w: World, a: Action, rho: Outcomes, planned: map<RunId, Status>, run: RunId)
    requires Enabled(w, a, rho) && Fits(w, planned) && run in w.runs && (LateGate(w, run) || Closed(w, run))
    ensures LateGate(Apply(w, a, rho), run) || Closed(Apply(w, a, rho), run)
  {
    hide Enabled, Apply, Fits, Closed, RunDone, RollUp, WillClose, RollsUp, Older;
    var u := Apply(w, a, rho);
    if LateGate(w, run) {
      var p :| p in w.calls && WillClose(w.calls[p], w.rows, run);
      GateMoves(w, a, rho, run, p);
      StepAges(w, a, rho);
      Serial.RollUpIsStable(w.rows, u.rows, run);
      if WillClose(u.calls[p], w.rows, run) {
        WillCloseLater(u.calls[p], w.rows, u.rows, run);
      } else {
        RollingIsClosed(u, run, p);
      }
    } else {
      ClosedMoves(w, a, rho, planned, run);
    }
  }

  lemma RollingIsClosed(w: World, run: RunId, p: Pid)
    requires p in w.calls && RollsUp(w.calls[p], run)
    ensures Closed(w, run)
  {
  }

  lemma {:induction false} ClosedByLateGate(ws: seq<World>, rho: Outcomes, n: nat, run: RunId)
    requires IsRun(ws, rho) && n < |ws| && run in ws[0].runs && !IsTerminal(ws[0].runs[run])
    ensures Closed(ws[n], run) ==> exists i :: 0 <= i <= n && LateGate(ws[i], run)
  {
    hide Enabled, Apply, LateGate, Fits;
    if n > 0 && Closed(ws[n], run) {
      hide Closed;
      ClosedByLateGate(ws, rho, n - 1, run);
      RunsFit(ws, rho, n - 1);
      assert Follows(ws[n - 1], ws[n - 1 + 1], rho);
      var a :| Enabled(ws[n - 1], a, rho) && ws[n] == Apply(ws[n - 1], a, rho);
      if !LateGate(ws[n - 1], run) { StepCloses(ws[n - 1], a, rho, ws[0].runs, run); }
    }
  }

  lemma {:induction false} LateGateCloses(ws: seq<World>, rho: Outcomes, i: nat, n: nat, run: RunId)
    requires IsRun(ws, rho) && i <= n < |ws| && run in ws[0].runs && LateGate(ws[i], run)
    ensures LateGate(ws[n], run) || Closed(ws[n], run)
    decreases n
  {
    hide Enabled, Apply, LateGate, Fits, Closed, RunDone, RollUp;
    if i < n {
      LateGateCloses(ws, rho, i, n - 1, run);
      RunStatusIsRight(ws, rho, n - 1, run);
      RunsFit(ws, rho, n - 1);
      assert Follows(ws[n - 1], ws[n - 1 + 1], rho);
      var a :| Enabled(ws[n - 1], a, rho) && ws[n] == Apply(ws[n - 1], a, rho);
      LateGateMoves(ws[n - 1], a, rho, ws[0].runs, run);
    }
  }

  /** No call is left that will read the run or write its roll-up. */
  ghost predicate Quiescent(w: World, run: RunId) {
    forall p :: p in w.calls ==> !WillClose(w.calls[p], w.rows, run) && !RollsUp(w.calls[p], run)
  }

  /** When no gate of the run is left under way, the run has its terminal status if and only if some
      completion or gate of the run was still under way when its last row ended, or began later. */
  lemma ClosesIff(ws: seq<World>, rho: Outcomes, n: nat, run: RunId)
    requires IsRun(ws, rho) && n < |ws| && run in ws[0].runs && !IsTerminal(ws[0].runs[run]) && Quiescent(ws[n], run)
    ensures run in ws[n].runs
    ensures IsTerminal(ws[n].runs[run]) <==> exists i :: 0 <= i <= n && LateGate(ws[i], run)
  {
    hide Follows, Fresh, RunDone, RollUp, WillClose, RollsUp;
    RunStatusIsRight(ws, rho, n, run);
    ClosedByLateGate(ws, rho, n, run);
    if i :| 0 <= i <= n && LateGate(ws[i], run) { LateGateCloses(ws, rho, i, n, run); }
  }

  /* ---------- who may leave it open ---------- */

  /** The step is the defensive skip of an acquire. */
  ghost predicate AcquireSkips(w: World, u: World, rho: Outcomes, p: Pid) {
    Enabled(w, TrySkip(p), rho) && w.calls[p].Acquiring? && u == Apply(w, TrySkip(p), rho)
  }

  /** A step that ends a row is the last write of a completion of that row, or skips it. */
  lemma EndingActor(w: World, a: Action, rho: Outcomes, id: RowId)
    requires Enabled(w, a, rho) && id in w.rows && !IsTerminal(w.rows[id].status) && id in Apply(w, a, rho).rows
    requires IsTerminal(Apply(w, a, rho).rows[id].status)
    ensures (a.TrySkip? || a.Write?) && a.p in w.calls && a.p in Apply(w, a, rho).calls
    ensures a.TrySkip? ==>
      Todo(w.calls[a.p]) && w.calls[a.p].todo[0] == id && CanTransition(w.rows, id, Queued, Skipped)
    ensures a.Write? ==> Apply(w, a, rho).calls[a.p] == Call.Gating(w.rows[id].run)
  {
    hide DecidesSkip, DecidesLease, ListsBatch, FinalRead;
    match a
    case TrySkip(p) => SkipReads(w, p);
    case TryLease(p, _, _, _) => LeaseReads(w, p);
    case _ =>
  }

  lemma ScanSkips(w: World, p: Pid, rho: Outcomes, id: RowId)
    requires Enabled(w, TrySkip(p), rho) && Todo(w.calls[p]) && w.calls[p].Scanning? && w.calls[p].todo[0] == id
    requires CallFits(w.calls[p], w.rows) && CanTransition(w.rows, id, Queued, Skipped)
    ensures var u := Apply(w, TrySkip(p), rho);
      p in u.calls && id in w.rows && WillClose(u.calls[p], u.rows, w.rows[id].run)
  {
    hide DecidesSkip;
    TailWillClose(w.calls[p], w.rows, w.rows[id].run);
  }

  /** A completion or a scan that ends the last row closes the run later. */
  lemma LastStep(w: World, a: Action, rho: Outcomes, planned: map<RunId, Status>, run: RunId)
    requires Enabled(w, a, rho) && Fits(w, planned)
    requires !RunDone(w.rows, run) && RunDone(Apply(w, a, rho).rows, run)
    ensures LateGate(Apply(w, a, rho), run) || exists p :: AcquireSkips(w, Apply(w, a, rho), rho, p)
  {
    hide Enabled, Apply, CallFits, RunFits, Older;
    var u := Apply(w, a, rho);
    var id :| id in w.rows && w.rows[id].run == run && !IsTerminal(w.rows[id].status);
    StepAges(w, a, rho);
    RowsStay(w.rows, u.rows, id);
    EndingActor(w, a, rho, id);
    OthersWait(w, a, rho);
    if a.Write? {
      assert WillClose(u.calls[a.p], u.rows, run);
    } else if w.calls[a.p].Scanning? {
      ScanSkips(w, a.p, rho, id);
    } else {
      assert AcquireSkips(w, u, rho, a.p);
    }
  }

  lemma RowsStay(t: Table, u: Table, id: RowId)
    requires Older(t, u) && id in t
    ensures id in u && u[id].run == t[id].run
  {
    assert SamePlan(t[id], u[id]);
  }

  lemma {:induction false} DoneAt(ws: seq<World>, rho: Outcomes, n: nat, run: RunId) returns (i: nat)
    requires IsRun(ws, rho) && n < |ws| && !RunDone(ws[0].rows, run) && RunDone(ws[n].rows, run)
    ensures i < n && !RunDone(ws[i].rows, run) && RunDone(ws[i + 1].rows, run)
  {
    hide IsRun, RunDone;
    if RunDone(ws[n - 1].rows, run) {
      i := DoneAt(ws, rho, n - 1, run);
    } else {
      i := n - 1;
    }
  }

  /** A run whose rows have all ended is left open only if its last row was skipped by an acquire. */
  lemma OpenAfterAcquireSkip(ws: seq<World>, rho: Outcomes, n: nat, run: RunId) returns (i: nat, p: Pid)
    requires IsRun(ws, rho) && n < |ws| && run in ws[0].runs && !IsTerminal(ws[0].runs[run]) && Quiescent(ws[n], run)
    requires !RunDone(ws[0].rows, run) && RunDone(ws[n].rows, run)
    requires run in ws[n].runs && !IsTerminal(ws[n].runs[run])
    ensures i < n && !RunDone(ws[i].rows, run) && RunDone(ws[i + 1].rows, run)
    ensures AcquireSkips(ws[i], ws[i + 1], rho, p)
  {
    hide Fresh, RunDone, RollUp, Enabled, Apply, LateGate, Quiescent, AcquireSkips, Fits;
    i := DoneAt(ws, rho, n, run);
    ClosesIff(ws, rho, n, run);
    assert Follows(ws[i], ws[i + 1], rho);
    var a :| Enabled(ws[i], a, rho) && ws[i + 1] == Apply(ws[i], a, rho);
    RunsFit(ws, rho, i);
    LastStep(ws[i], a, rho, ws[0].runs, run);
    p :| AcquireSkips(ws[i], ws[i + 1], rho, p);
  }

  /* ---------- and it does happen ---------- */

  /** Three jobs of run 0 in a chain: a, b needs a, c needs b. */
  ghost predicate Chain(t: Table, a: Status, b: Status, c: Status) {
    && t.Keys == {0, 1, 2}
    && Link(t[0], 0, "a", [], a) && Link(t[1], 1, "b", ["a"], b) && Link(t[2], 2, "c", ["b"], c)
  }

  ghost predicate Link(j: Job, id: RowId, name: string, needs: seq<string>, status: Status) {
    j.id == id && j.run == 0 && j.jobId == name && j.needs == needs && j.ifExpr == None && j.status == status
  }

  lemma ChainVerdicts(t: Table, a: Status, b: Status, c: Status)
    requires Chain(t, a, b, c)
    ensures IsTerminal(a) && a != Success ==> RuleApplies(t, 1)
    ensures IsTerminal(b) && b != Success ==> RuleApplies(t, 2)
    ensures !IsTerminal(b) ==> !RuleApplies(t, 2) && !Runnable(t, 2)
  {
    assert HasRow(t, 0, "a") by { assert t[0].jobId == "a"; }
    assert HasRow(t, 0, "b") by { assert t[1].jobId == "b"; }
    assert forall k :: Needs(t, 1, k) <==> k == 0;
    assert forall k :: Needs(t, 2, k) <==> k == 1;
    if IsTerminal(a) && a != Success { assert Blocking(t, 1, 0); }
    if IsTerminal(b) && b != Success { assert Blocking(t, 2, 1); }
  }

  /** The batch of a chain, by which of its rows are queued. */
  lemma ChainBatch(t: Table, a: Status, b: Status)
    requires Chain(t, a, b, Queued)
    ensures a == Queued && b == Queued ==> ListsBatch([0, 1, 2], t)
    ensures a != Queued && b == Queued ==> ListsBatch([1, 2], t)
    ensures a != Queued && b != Queued ==> ListsBatch([2], t)
  {
    hide QueuedBelow;
    FewBelow(t, 0);
    FewBelow(t, 1);
    FewBelow(t, 2);
  }

  lemma FewBelow(t: Table, id: RowId)
    requires t.Keys == {0, 1, 2}
    ensures |QueuedBelow(t, id)| < CANDIDATE_BATCH_SIZE
  {
    SubsetSize(QueuedBelow(t, id), {0, 1, 2});
  }

  /** Changing the status of one row of a chain. */
  lemma ChainStep(t: Table, u: Table, a: Status, b: Status, c: Status, id: RowId)
    requires Chain(t, a, b, c) && id in t && u.Keys == t.Keys && SamePlan(t[id], u[id])
    requires forall k :: k in t && k != id ==> u[k] == t[k]
    ensures Chain(u, if id == 0 then u[0].status else a, if id == 1 then u[1].status else b,
                  if id == 2 then u[2].status else c)
  {
  }

  lemma ChainRows(t: Table, a: Status, b: Status, c: Status)
    requires Chain(t, a, b, c)
    ensures 0 in t && t[0].needs == [] && t[0].status == a && t[0].run == 0
    ensures 1 in t && t[1].needs == ["a"] && t[1].status == b && t[1].run == 0
    ensures 2 in t && t[2].needs == ["b"] && t[2].status == c && t[2].run == 0
    ensures forall id :: id in [0, 1, 2] <==> id in t && t[id].run == 0
  {
  }

  /** Row 0 is leased. */
  lemma FirstIsLeased(start: World, rho: Outcomes) returns (ws: seq<World>, w: World)
    requires Fresh(start) && Chain(start.rows, Queued, Queued, Queued)
    ensures Reaches(ws, start, rho, w) && Chain(w.rows, Leased, Queued, Queued) && w.runs == start.runs
    ensures Holds(w.rows, 0, 0) && w.calls == map[0 := Done]
  {
    hide Reaches, ListsBatch, Chain;
    StartsRun(start, rho);
    ChainBatch(start.rows, Queued, Queued);
    ChainRows(start.rows, Queued, Queued, Queued);
    ws, w := Begins([start], start, rho, start, 0, 0, [0, 1, 2]);
    ws, w := Leases(ws, start, rho, w, 0, 0, 0, 0);
    ChainStep(start.rows, w.rows, Queued, Queued, Queued, 0);
  }

  /** Row 0 is completed, and the gate of its run is to follow. */
  lemma FirstEnds(start: World, rho: Outcomes, result: Status) returns (ws: seq<World>, w: World)
    requires Fresh(start) && Chain(start.rows, Queued, Queued, Queued) && IsTerminal(result) && result in rho(0)
    ensures Reaches(ws, start, rho, w) && Chain(w.rows, result, Queued, Queued) && w.runs == start.runs
    ensures w.calls == map[0 := Done, 1 := Call.Gating(0)]
  {
    hide Reaches, Fresh, Chain, CompleteRow, At;
    ws, w := FirstIsLeased(start, rho);
    ChainRows(w.rows, Leased, Queued, Queued);
    ChainCompletes(w.rows, result);
    ws, w := Completes(ws, start, rho, w, 1, 0, 0, result);
    var v := w;
    ws, w := WritesAlone(ws, start, rho, v, 1, 0, 0, result, 0);
    AtIs(w, v, 1, Call.Gating(0), CompleteRow(v.rows, 0, result, 0));
  }

  lemma AtIs(u: World, w: World, p: Pid, c: Call, t: Table)
    requires At(u, w, p, c, t)
    ensures u == w.(rows := t, calls := w.calls[p := c])
  {
    assert u.calls == w.calls[p := c];
  }

  lemma ChainCompletes(t: Table, result: Status)
    requires Chain(t, Leased, Queued, Queued) && IsTerminal(result)
    ensures Chain(CompleteRow(t, 0, result, 0), result, Queued, Queued)
  {
    hide Chain;
    ChainRows(t, Leased, Queued, Queued);
    ChainStep(t, CompleteRow(t, 0, result, 0), Leased, Queued, Queued, 0);
  }

  lemma ChainSkips(t: Table, a: Status, b: Status, c: Status, id: RowId)
    requires Chain(t, a, b, c) && id in t && t[id].status == Queued
    ensures Chain(SkipJob(t, id, 0), if id == 0 then Skipped else a, if id == 1 then Skipped else b,
                  if id == 2 then Skipped else c)
  {
    hide Chain;
    ChainStep(t, SkipJob(t, id, 0), a, b, c, id);
  }

  /** A call that read the rows v decides to skip its next row. */
  lemma SkipDecided(c: Call, t: Table, id: RowId, v: Table)
    requires (c.Acquiring? || c.Scanning?) && c.todo != [] && c.todo[0] == id && id in t && t[id].needs != []
    requires c.Acquiring? ==> t[id].run in c.cache && c.cache[t[id].run] == v
    requires c.Scanning? ==> c.snap == v && id in v && v[id].status == Queued
    requires id in v && RuleApplies(v, id)
    ensures DecidesSkip(c, t)
  {
    hide RuleApplies;
  }

  /** A call that read the rows v passes over its next row. */
  lemma PassDecided(c: Call, t: Table, id: RowId, v: Table)
    requires (c.Acquiring? || c.Scanning?) && c.todo != [] && c.todo[0] == id && id in t && id in v
    requires c.Acquiring? ==> t[id].run in c.cache && c.cache[t[id].run] == v
    requires c.Acquiring? ==> t[id].needs != [] && !RuleApplies(v, id) && !Runnable(v, id)
    requires c.Scanning? ==> c.snap == v && (v[id].status != Queued || !RuleApplies(v, id))
    ensures Todo(c) && HasRead(c, t, id) && !DecidesSkip(c, t) && !DecidesLease(c, t)
  {
    hide RuleApplies, Runnable;
  }

  /** The gate and an acquire have read the rows. */
  lemma BothRead(ws: seq<World>, start: World, rho: Outcomes, w: World, result: Status)
    returns (more: seq<World>, u: World)
    requires Reaches(ws, start, rho, w) && Chain(w.rows, result, Queued, Queued) && IsTerminal(result)
    requires w.calls == map[0 := Done, 1 := Call.Gating(0)]
    ensures Reaches(more, start, rho, u) && u.rows == w.rows && u.runs == w.runs
    ensures u.calls == map[0 := Done, 1 := Scanning(0, w.rows, [0, 1, 2], false),
                           2 := Acquiring(0, [1, 2], map[0 := w.rows])]
  {
    hide Reaches, ListsBatch, Chain, DecidesSkip, DecidesLease;
    ChainBatch(w.rows, result, Queued);
    ChainRows(w.rows, result, Queued, Queued);
    more, u := Begins(ws, start, rho, w, 2, 0, [1, 2]);
    more, u := Reads(more, start, rho, u, 2);
    more, u := Scans(more, start, rho, u, 1, 0, [0, 1, 2]);
  }

  /** The acquire skips row 1 before the gate comes to it. */
  lemma AcquireOvertakes(ws: seq<World>, start: World, rho: Outcomes, w: World, result: Status)
    returns (more: seq<World>, u: World)
    requires Reaches(ws, start, rho, w) && Chain(w.rows, result, Queued, Queued)
    requires IsTerminal(result) && result != Success && w.calls == map[0 := Done, 1 := Call.Gating(0)]
    ensures Reaches(more, start, rho, u) && Chain(u.rows, result, Skipped, Queued) && u.runs == w.runs
    ensures u.calls == map[0 := Done, 1 := Scanning(0, w.rows, [1, 2], false), 2 := Acquiring(0, [2], map[0 := w.rows])]
  {
    hide Reaches, Chain, DecidesSkip, DecidesLease, RuleApplies, Runnable, SkipJob;
    more, u := BothRead(ws, start, rho, w, result);
    ChainRows(w.rows, result, Queued, Queued);
    ChainVerdicts(w.rows, result, Queued, Queued);
    PassDecided(u.calls[1], u.rows, 0, w.rows);
    more, u := Passes(more, start, rho, u, 1);
    SkipDecided(u.calls[2], u.rows, 1, w.rows);
    more, u := Skips(more, start, rho, u, 2, 0);
    ChainSkips(w.rows, result, Queued, Queued, 1);
  }

  /** The gate makes no progress. */
  lemma GateGivesUp(ws: seq<World>, start: World, rho: Outcomes, w: World, snap: Table, result: Status)
    returns (more: seq<World>, u: World)
    requires Reaches(ws, start, rho, w) && Chain(snap, result, Queued, Queued)
    requires Chain(w.rows, result, Skipped, Queued) && IsTerminal(result) && result != Success
    requires w.calls == map[0 := Done, 1 := Scanning(0, snap, [1, 2], false), 2 := Acquiring(0, [2], map[0 := snap])]
    ensures Reaches(more, start, rho, u) && u.rows == w.rows && u.runs == w.runs
    ensures u.calls == map[0 := Done, 1 := Closing(0), 2 := Acquiring(0, [2], map[0 := snap])]
  {
    hide Reaches, Chain, DecidesSkip, DecidesLease, RuleApplies, Runnable;
    ChainRows(snap, result, Queued, Queued);
    ChainRows(w.rows, result, Skipped, Queued);
    ChainVerdicts(snap, result, Queued, Queued);
    SkipDecided(w.calls[1], w.rows, 1, snap);
    more, u := SkipLoses(ws, start, rho, w, 1);
    PassDecided(u.calls[1], u.rows, 2, snap);
    more, u := Passes(more, start, rho, u, 1);
    more, u := EndsScan(more, start, rho, u, 1);
  }

  lemma OpenIsSeen(t: Table, id: RowId)
    requires id in t && !IsTerminal(t[id].status)
    ensures FinalRead(t, t[id].run) == Done
  {
  }

  /** The gate finds the run open, and the acquire passes over row 2, which it read as waiting. */
  lemma BothReturn(ws: seq<World>, start: World, rho: Outcomes, w: World, snap: Table, result: Status)
    returns (more: seq<World>, u: World)
    requires Reaches(ws, start, rho, w) && Chain(snap, result, Queued, Queued)
    requires Chain(w.rows, result, Skipped, Queued)
    requires w.calls == map[0 := Done, 1 := Closing(0), 2 := Acquiring(0, [2], map[0 := snap])]
    ensures Reaches(more, start, rho, u) && u.rows == w.rows && u.runs == w.runs
    ensures u.calls == map[0 := Done, 1 := Done, 2 := Acquiring(0, [], map[0 := snap])]
  {
    hide Reaches, Chain, DecidesSkip, DecidesLease, RuleApplies, Runnable, FinalRead;
    ChainRows(snap, result, Queued, Queued);
    ChainRows(w.rows, result, Skipped, Queued);
    ChainVerdicts(snap, result, Queued, Queued);
    OpenIsSeen(w.rows, 2);
    more, u := Closes(ws, start, rho, w, 1, 0);
    PassDecided(u.calls[2], u.rows, 2, snap);
    more, u := Passes(more, start, rho, u, 2);
    assert u.calls[2] == Acquiring(0, [], map[0 := snap]);
  }

  /** The next acquire reads the rows. */
  lemma NextReads(ws: seq<World>, start: World, rho: Outcomes, w: World, result: Status)
    returns (more: seq<World>, u: World)
    requires Reaches(ws, start, rho, w) && Chain(w.rows, result, Skipped, Queued) && IsTerminal(result)
    requires 3 !in w.calls
    ensures Reaches(more, start, rho, u) && u.rows == w.rows && u.runs == w.runs
    ensures u.calls == w.calls[3 := Acquiring(0, [2], map[0 := w.rows])]
  {
    hide Reaches, Chain, ListsBatch, DecidesSkip, DecidesLease;
    ChainRows(w.rows, result, Skipped, Queued);
    ChainBatch(w.rows, result, Skipped);
    more, u := Begins(ws, start, rho, w, 3, 0, [2]);
    more, u := Reads(more, start, rho, u, 3);
  }

  /** It skips row 2. */
  lemma NextSkips(ws: seq<World>, start: World, rho: Outcomes, w: World, result: Status)
    returns (more: seq<World>, u: World)
    requires Reaches(ws, start, rho, w) && Chain(w.rows, result, Skipped, Queued) && IsTerminal(result)
    requires 3 !in w.calls && AllFinished(w.calls)
    ensures Reaches(more, start, rho, u) && Chain(u.rows, result, Skipped, Skipped) && u.runs == w.runs
    ensures AllFinished(u.calls)
  {
    hide Reaches, Chain, DecidesSkip, DecidesLease, RuleApplies, Runnable, SkipJob, AllFinished;
    more, u := NextReads(ws, start, rho, w, result);
    ChainRows(w.rows, result, Skipped, Queued);
    ChainVerdicts(w.rows, result, Skipped, Queued);
    SkipDecided(u.calls[3], u.rows, 2, w.rows);
    var c := Tail(u.calls[3]);
    more, u := Skips(more, start, rho, u, 3, 0);
    ChainSkips(w.rows, result, Skipped, Queued, 2);
    OneMoreFinished(w.calls, 3, Acquiring(0, [2], map[0 := w.rows]), c);
  }

  ghost predicate Finished(c: Call) {
    c.Done? || (c.Acquiring? && c.todo == [])
  }

  ghost predicate AllFinished(calls: map<Pid, Call>) {
    forall p :: p in calls ==> Finished(calls[p])
  }

  lemma OneMoreFinished(calls: map<Pid, Call>, p: Pid, before: Call, c: Call)
    requires AllFinished(calls) && Finished(c)
    ensures AllFinished(calls[p := before][p := c])
  {
  }

  /** A chain of three whose first row does not succeed: in some interleaving all rows have ended, every
      call has returned, and the run still has the status it was planned with. */
  lemma RunLeftOpen(start: World, rho: Outcomes, result: Status) returns (ws: seq<World>, w: World)
    requires Fresh(start) && Chain(start.rows, Queued, Queued, Queued)
    requires IsTerminal(result) && result in rho(0) && result != Success
    ensures Reaches(ws, start, rho, w) && RunDone(w.rows, 0) && AllFinished(w.calls)
    ensures 0 in w.runs && w.runs == start.runs && !IsTerminal(w.runs[0])
  {
    hide Reaches;
    ws, w := FirstEnds(start, rho, result);
    var snap := w.rows;
    ws, w := AcquireOvertakes(ws, start, rho, w, result);
    ws, w := GateGivesUp(ws, start, rho, w, snap, result);
    ws, w := BothReturn(ws, start, rho, w, snap, result);
    ws, w := NextSkips(ws, start, rho, w, result);
    assert start.rows[0].run == 0;
  }
}
