/** What the result column of a row holds when completions interleave: the first statement of a completion
    overwrites it unguarded, while only the third moves the status, and only once
    (internal/dispatch/service.go:472-488). */
module RecordedResults {
  import opened Jobs
  import opened Gating
  import opened Interleaving
  import opened InterleavingTheorems
  import Handlers

  /* ---------- what has been reported ---------- */

  /** Between these worlds call p wrote its result r into the row. */
  ghost predicate Stamps(w: World, u: World, p: Pid, id: RowId, r: Status) {
    && p in w.calls && w.calls[p].Completing? && w.calls[p].id == id && w.calls[p].result == r
    && w.calls[p].written == 0 && p in u.calls && u.calls[p] == w.calls[p].(written := 1)
  }

  /** Between these worlds call p found the row running and ended it with r. */
  ghost predicate Decides(w: World, u: World, p: Pid, id: RowId, r: Status) {
    && p in w.calls && w.calls[p].Completing? && w.calls[p].id == id && w.calls[p].result == r
    && w.calls[p].written >= 2 && p in u.calls && u.calls[p].Gating? && id in w.rows && w.rows[id].status == Running
  }

  ghost function StampOf(w: World, u: World, id: RowId): Option<Status> {
    if exists p, r :: Stamps(w, u, p, id, r) then
      var p, r :| Stamps(w, u, p, id, r); Some(r)
    else None
  }

  ghost function DecisionOf(w: World, u: World, id: RowId): Option<Status> {
    if exists p, r :: Decides(w, u, p, id, r) then
      var p, r :| Decides(w, u, p, id, r); Some(r)
    else None
  }

  /** The result written last, by any completion, retry or stale call of the row. */
  ghost function LastReport(ws: seq<World>, n: nat, id: RowId): Option<Status>
    requires n < |ws|
  {
    if n == 0 then None
    else if StampOf(ws[n - 1], ws[n], id).Some? then StampOf(ws[n - 1], ws[n], id)
    else LastReport(ws, n - 1, id)
  }

  /** The result of the completion that ended the row. */
  ghost function Verdict(ws: seq<World>, n: nat, id: RowId): Option<Status>
    requires n < |ws|
  {
    if n == 0 then None
    else if DecisionOf(ws[n - 1], ws[n], id).Some? then DecisionOf(ws[n - 1], ws[n], id)
    else Verdict(ws, n - 1, id)
  }

  /* ---------- who may write the column ---------- */

  /** Completions speak of rows that may run, skips of rows that may not. */
  ghost predicate Knows(c: Call, t: Table) {
    match c
    case Completing(id, _, _, _) => id in t && Runnable(t, id)
    case Stamping(id, next) => id in t && RuleApplies(t, id) && t[id].status == Skipped
                               && (next.Acquiring? || next.Scanning?)
    case _ => true
  }

  /** The row with this result may run, or the rule skipped it and the result says so. */
  ghost predicate Explained(t: Table, id: RowId)
    requires id in t
  {
    Runnable(t, id) || (RuleApplies(t, id) && t[id].status == Skipped && t[id].result == Some(Skipped))
  }

  /** A row that holds a lease may run, and every result is explained. */
  ghost predicate Known(w: World) {
    && (forall id :: id in w.rows && w.rows[id].lease.Some? ==> Runnable(w.rows, id))
    && (forall id :: id in w.rows && w.rows[id].result.Some? ==> Explained(w.rows, id))
    && (forall p :: p in w.calls ==> Knows(w.calls[p], w.rows))
  }

  lemma KnowsStill(c: Call, t: Table, u: Table)
    requires Knows(c, t) && Older(t, u)
    ensures Knows(c, u)
  {
    hide RuleApplies, Runnable;
    if c.Completing? || c.Stamping? { DecisionsAreStable(t, u, c.id); }
  }

  lemma ActorKnows(w: World, a: Action, rho: Outcomes, p: Pid)
    requires CallsOk(w, rho) && Known(w) && Enabled(w, a, rho) && Actor(a) == Some(p)
    ensures p in Apply(w, a, rho).calls && Knows(Apply(w, a, rho).calls[p], Apply(w, a, rho).rows)
  {
    hide DecidesSkip, DecidesLease, RuleApplies, Runnable, Older, ListsBatch, FinalRead, CallsOk, WriteRows;
    var u := Apply(w, a, rho);
    StepAges(w, a, rho);
    match a
    case BeginComplete(_, id, _, _) => assert w.rows[id].lease.Some?;
    case TrySkip(_) =>
      SkipReads(w, p);
      SkipIsRight(w, p, rho);
      SkipHasRow(w, p);
      SkippedIsKnown(w, p);
    case TryLease(_, _, _, _) => LeaseReads(w, p);
    case Stamp(_, _) => assert Knows(w.calls[p], w.rows);
    case ReadFinal(_) => FinalIsKnown(w.rows, w.calls[p].run, u.rows);
    case Write(_, now) =>
      assert Knows(w.calls[p], w.rows);
      KnowsStill(w.calls[p], w.rows, u.rows);
    case _ =>
  }

  lemma FinalIsKnown(t: Table, run: RunId, u: Table)
    ensures Knows(FinalRead(t, run), u)
  {
    hide RunDone, Handlers.RollUp;
  }

  lemma SkipHasRow(w: World, p: Pid)
    requires p in w.calls && DecidesSkip(w.calls[p], w.rows)
    ensures Todo(w.calls[p]) && w.calls[p].todo[0] in w.rows
  {
  }

  lemma SkippedIsKnown(w: World, p: Pid)
    requires p in w.calls && Todo(w.calls[p]) && w.calls[p].todo[0] in w.rows && RuleApplies(w.rows, w.calls[p].todo[0])
    requires Older(w.rows, Skipping(w, p).rows)
    ensures Knows(Skipping(w, p).calls[p], Skipping(w, p).rows)
  {
    hide RuleApplies, Runnable, Older;
    DecisionsAreStable(w.rows, Skipping(w, p).rows, w.calls[p].todo[0]);
  }

  /** Only acquire hands out leases. */
  lemma LeasesAreKnown(w: World, a: Action, rho: Outcomes, id: RowId)
    requires CallsOk(w, rho) && Known(w) && Enabled(w, a, rho) && id in w.rows && id in Apply(w, a, rho).rows
    requires Apply(w, a, rho).rows[id].lease.Some?
    ensures Runnable(w.rows, id)
  {
    hide Enabled, Apply, Runnable, CallsOk, OtherMove;
    if a.Write? {
      WriteKeepsLease(w, a.p, a.now, rho, id);
    } else {
      OtherRecords(w, a, rho, id);
      OtherMoves(w, Apply(w, a, rho), id);
    }
  }

  lemma WriteKeepsLease(w: World, p: Pid, now: Time, rho: Outcomes, id: RowId)
    requires CallsOk(w, rho) && Enabled(w, Write(p, now), rho) && id in w.rows
    requires id in Apply(w, Write(p, now), rho).rows
    ensures Apply(w, Write(p, now), rho).rows[id].lease == w.rows[id].lease
  {
    hide CallsOk, WriteRows, AfterWrite;
    OneCall(w, p, rho);
    WriteKeepsHolders(w.rows, w.calls[p], now, rho);
  }

  /** Only completions and skips write results. */
  lemma ResultsAreKnown(w: World, a: Action, rho: Outcomes, id: RowId)
    requires CallsOk(w, rho) && Known(w) && Enabled(w, a, rho) && id in w.rows
    requires Older(w.rows, Apply(w, a, rho).rows)
    requires id in Apply(w, a, rho).rows && Apply(w, a, rho).rows[id].result.Some?
    ensures Explained(Apply(w, a, rho).rows, id)
  {
    hide Enabled, Apply, Known, Knows, RuleApplies, Runnable, Older, CallsOk;
    var u := Apply(w, a, rho);
    ResultWritten(w, a, rho, id);
    DecisionsAreStable(w.rows, u.rows, id);
    StepEnds(w.rows, u.rows, id);
    KnownRow(w, id);
  }

  lemma KnownRow(w: World, id: RowId)
    requires Known(w) && id in w.rows
    ensures w.rows[id].result.Some? ==> Explained(w.rows, id)
  {
  }

  lemma ResultWritten(w: World, a: Action, rho: Outcomes, id: RowId)
    requires CallsOk(w, rho) && Known(w) && Enabled(w, a, rho) && id in w.rows && id in Apply(w, a, rho).rows
    ensures var t, u := w.rows[id], Apply(w, a, rho).rows[id];
      || u.result == t.result
      || Runnable(w.rows, id)
      || (RuleApplies(w.rows, id) && t.status == Skipped && u.result == Some(Skipped))
  {
    hide Enabled, Apply, RuleApplies, Runnable, CallsOk;
    if a.Write? {
      WriteRecords(w, a.p, a.now, rho, id);
      assert a.p in w.calls ==> Knows(w.calls[a.p], w.rows);
    } else {
      OtherRecords(w, a, rho, id);
    }
  }

  /** What a step that is no write of a completion may do to a row: end it or stamp it by the rule, and
      lease it when it may run. */
  ghost predicate OtherMove(w: World, u: World, id: RowId) {
    && id in w.rows && id in u.rows
    && (u.rows[id].result == w.rows[id].result
        || (RuleApplies(w.rows, id) && w.rows[id].status == Skipped && u.rows[id].result == Some(Skipped)))
    && (u.rows[id].status == w.rows[id].status || !IsTerminal(u.rows[id].status) || RuleApplies(w.rows, id))
    && (u.rows[id].lease.Some? ==> w.rows[id].lease.Some? || Runnable(w.rows, id))
  }

  lemma OtherMoves(w: World, u: World, id: RowId)
    requires OtherMove(w, u, id)
    ensures id in w.rows && id in u.rows && (u.rows[id].lease.Some? ==> w.rows[id].lease.Some? || Runnable(w.rows, id))
  {
  }

  lemma SkippingMoves(w: World, p: Pid, rho: Outcomes, id: RowId)
    requires CallsOk(w, rho) && id in w.rows && p in w.calls && DecidesSkip(w.calls[p], w.rows)
    ensures OtherMove(w, Skipping(w, p), id)
  {
    hide DecidesSkip, RuleApplies, Runnable, CallsOk;
    SkipReads(w, p);
    SkipIsRight(w, p, rho);
  }

  lemma LeasingMoves(w: World, p: Pid, l: LeaseId, d: Time, now: Time, rho: Outcomes, id: RowId)
    requires CallsOk(w, rho) && id in w.rows && p in w.calls && DecidesLease(w.calls[p], w.rows)
    ensures OtherMove(w, Leasing(w, p, l, d, now), id)
  {
    hide DecidesLease, RuleApplies, Runnable, CallsOk;
    LeaseReads(w, p);
    LeaseIsRight(w, p, rho);
  }

  lemma StampMoves(w: World, p: Pid, now: Time, rho: Outcomes, id: RowId)
    requires Known(w) && id in w.rows && Enabled(w, Stamp(p, now), rho)
    ensures OtherMove(w, Apply(w, Stamp(p, now), rho), id)
  {
    hide RuleApplies, Runnable, Explained;
    assert Knows(w.calls[p], w.rows);
  }

  lemma ReapMoves(w: World, now: Time, rho: Outcomes, id: RowId)
    requires id in w.rows
    ensures OtherMove(w, Apply(w, Reap(now), rho), id)
  {
    hide RuleApplies, Runnable;
  }

  lemma SameRowsMove(w: World, u: World, id: RowId)
    requires id in w.rows && u.rows == w.rows
    ensures OtherMove(w, u, id)
  {
    hide RuleApplies, Runnable;
  }

  lemma OtherRecords(w: World, a: Action, rho: Outcomes, id: RowId)
    requires CallsOk(w, rho) && Known(w) && Enabled(w, a, rho) && id in w.rows && !a.Write?
    ensures OtherMove(w, Apply(w, a, rho), id)
  {
    hide DecidesSkip, DecidesLease, CallsOk, OtherMove, Skipping, Leasing, RequeueExpired, SetResult, ListsBatch,
         FinalRead, Known;
    var u := Apply(w, a, rho);
    match a
    case Reap(now) => ReapMoves(w, now, rho, id);
    case TrySkip(p) => SkippingMoves(w, p, rho, id);
    case TryLease(p, l, d, now) => LeasingMoves(w, p, l, d, now, rho, id);
    case Stamp(p, now) => StampMoves(w, p, now, rho, id);
    case _ =>
      ReadingStepKeeps(w, a, rho);
      SameRowsMove(w, u, id);
  }

  /** A write stamps the result, or decides the row, or changes neither. */
  lemma WriteRecords(w: World, p: Pid, now: Time, rho: Outcomes, id: RowId)
    requires CallsOk(w, rho) && Enabled(w, Write(p, now), rho) && id in w.rows
    requires id in Apply(w, Write(p, now), rho).rows
    ensures p in w.calls
    ensures var t, u, c := w.rows[id], Apply(w, Write(p, now), rho), w.calls[p];
      && (u.rows[id].result == t.result
          || (c.Completing? && c.id == id && Stamps(w, u, p, id, c.result) && u.rows[id].result == Some(c.result)))
      && (u.rows[id].status == t.status || !IsTerminal(u.rows[id].status)
          || (c.Completing? && Decides(w, u, p, id, c.result) && u.rows[id].status == c.result))
  {
    hide CallsOk;
    OneCall(w, p, rho);
  }

  lemma StepKeepsKnown(w: World, a: Action, rho: Outcomes)
    requires CallsOk(w, rho) && Known(w) && Enabled(w, a, rho)
    ensures Known(Apply(w, a, rho))
  {
    hide Enabled, Apply, CallsOk, Knows, Runnable, RuleApplies, Older, Explained;
    var u := Apply(w, a, rho);
    StepAges(w, a, rho);
    OthersWait(w, a, rho);
    SameRows(w.rows, u.rows);
    forall id | id in u.rows && u.rows[id].result.Some? ensures Explained(u.rows, id) {
      ResultsAreKnown(w, a, rho, id);
    }
    forall id | id in u.rows && u.rows[id].lease.Some? ensures Runnable(u.rows, id) {
      LeasesAreKnown(w, a, rho, id);
      DecisionsAreStable(w.rows, u.rows, id);
    }
    forall p | p in u.calls ensures Knows(u.calls[p], u.rows) {
      if Actor(a) == Some(p) { ActorKnows(w, a, rho, p); } else { KnowsStill(w.calls[p], w.rows, u.rows); }
    }
  }

  lemma SameRows(t: Table, u: Table)
    requires Older(t, u)
    ensures t.Keys == u.Keys
  {
  }

  lemma {:induction false} RunsKeepKnown(ws: seq<World>, rho: Outcomes, i: nat)
    requires IsRun(ws, rho) && i < |ws|
    ensures Known(ws[i])
  {
    hide Enabled, Apply, CallsOk, RowsOk, Runnable, RuleApplies;
    if i > 0 {
      RunsKeepKnown(ws, rho, i - 1);
      RunsStayOk(ws, rho, i - 1);
      assert Follows(ws[i - 1], ws[i - 1 + 1], rho);
      var a :| Enabled(ws[i - 1], a, rho) && ws[i] == Apply(ws[i - 1], a, rho);
      StepKeepsKnown(ws[i - 1], a, rho);
    }
  }

  /* ---------- one step ---------- */

  /** A completion moves only by its own writes. */
  lemma CompletionMoves(w: World, a: Action, rho: Outcomes, p: Pid)
    requires Enabled(w, a, rho) && p in w.calls && w.calls[p].Completing? && p in Apply(w, a, rho).calls
    requires Apply(w, a, rho).calls[p] != w.calls[p]
    ensures a.Write? && a.p == p
  {
    hide DecidesSkip, DecidesLease, ListsBatch, FinalRead, AfterWrite, WriteRows;
    match a
    case TrySkip(q) => SkipReads(w, q);
    case TryLease(q, _, _, _) => LeaseReads(w, q);
    case _ =>
  }

  /** Outside the rule, result and status change only as the completion's own statements say. */
  lemma StepRecords(w: World, a: Action, rho: Outcomes, id: RowId)
    requires Known(w) && Enabled(w, a, rho) && id in w.rows && id in Apply(w, a, rho).rows
    requires !RuleApplies(w.rows, id) && CallsOk(w, rho)
    ensures var t, u := w.rows[id], Apply(w, a, rho).rows[id];
      && (u.result == t.result
          || (a.Write? && a.p in w.calls && w.calls[a.p].Completing?
              && Stamps(w, Apply(w, a, rho), a.p, id, w.calls[a.p].result) && u.result == Some(w.calls[a.p].result)))
      && (u.status == t.status || !IsTerminal(u.status)
          || (a.Write? && a.p in w.calls && w.calls[a.p].Completing?
              && Decides(w, Apply(w, a, rho), a.p, id, w.calls[a.p].result) && u.status == w.calls[a.p].result))
  {
    hide Enabled, Apply, Known, RuleApplies, CallsOk, Stamps, Decides;
    if a.Write? { WriteRecords(w, a.p, a.now, rho, id); } else { OtherRecords(w, a, rho, id); }
  }

  /** Conversely, what those statements report is what the row shows afterwards. */
  lemma ReportsShow(w: World, a: Action, rho: Outcomes, p: Pid, id: RowId, r: Status)
    requires Enabled(w, a, rho) && CallsOk(w, rho) && id in w.rows && id in Apply(w, a, rho).rows
    ensures Stamps(w, Apply(w, a, rho), p, id, r) ==> Apply(w, a, rho).rows[id].result == Some(r)
    ensures Decides(w, Apply(w, a, rho), p, id, r) ==> Apply(w, a, rho).rows[id].status == r
  {
    hide Enabled, Apply, CallsOk;
    var u := Apply(w, a, rho);
    if Stamps(w, u, p, id, r) || Decides(w, u, p, id, r) {
      CompletionMoves(w, a, rho, p);
      OneCall(w, p, rho);
      WriteShows(w, p, a.now, rho, id);
    }
  }

  lemma WriteShows(w: World, p: Pid, now: Time, rho: Outcomes, id: RowId)
    requires Enabled(w, Write(p, now), rho) && w.calls[p].Completing? && w.calls[p].id == id && id in w.rows
    requires IsTerminal(w.calls[p].result)
    ensures var u, c := Apply(w, Write(p, now), rho), w.calls[p];
      && id in u.rows && (c.written == 0 ==> u.rows[id].result == Some(c.result))
      && (c.written >= 2 && w.rows[id].status == Running ==> u.rows[id].status == c.result)
  {
  }

  /* ---------- whole runs ---------- */

  /** Outside the rule, the result column is the last report and a terminal status is the verdict. */
  ghost predicate ShowsHistory(ws: seq<World>, n: nat, id: RowId)
    requires n < |ws|
  {
    && id in ws[n].rows && ws[n].rows[id].result == LastReport(ws, n, id)
    && (IsTerminal(ws[n].rows[id].status) <==> Verdict(ws, n, id).Some?)
    && (Verdict(ws, n, id).Some? ==> ws[n].rows[id].status == Verdict(ws, n, id).value)
  }

  lemma HistoryStep(ws: seq<World>, rho: Outcomes, n: nat, a: Action, id: RowId)
    requires n + 1 < |ws| && Enabled(ws[n], a, rho) && ws[n + 1] == Apply(ws[n], a, rho)
    requires Known(ws[n]) && CallsOk(ws[n], rho) && ShowsHistory(ws, n, id) && !RuleApplies(ws[n].rows, id)
    ensures ShowsHistory(ws, n + 1, id)
  {
    hide Enabled, Apply, CallsOk, Known, RuleApplies, Older, Stamps, Decides, StampOf, DecisionOf;
    var w, u := ws[n], ws[n + 1];
    StepAges(w, a, rho);
    StepEnds(w.rows, u.rows, id);
    StepRecords(w, a, rho, id);
    forall p, r ensures Stamps(w, u, p, id, r) ==> u.rows[id].result == Some(r)
                ensures Decides(w, u, p, id, r) ==> u.rows[id].status == r && !IsTerminal(w.rows[id].status)
    {
      ReportsShow(w, a, rho, p, id, r);
      DecidesRunning(w, u, p, id, r);
    }
    forall p, r | Decides(w, u, p, id, r) ensures IsTerminal(r) { DecidedIsTerminal(w, u, p, id, r, rho); }
    StampIsSome(w, u, id);
    DecisionIsSome(w, u, id);
  }

  lemma StampIsSome(w: World, u: World, id: RowId)
    ensures forall p, r :: Stamps(w, u, p, id, r) ==> StampOf(w, u, id).Some?
    ensures StampOf(w, u, id).Some? ==> exists p :: Stamps(w, u, p, id, StampOf(w, u, id).value)
  {
  }

  lemma DecisionIsSome(w: World, u: World, id: RowId)
    ensures forall p, r :: Decides(w, u, p, id, r) ==> DecisionOf(w, u, id).Some?
    ensures DecisionOf(w, u, id).Some? ==> exists p :: Decides(w, u, p, id, DecisionOf(w, u, id).value)
  {
  }

  lemma DecidesRunning(w: World, u: World, p: Pid, id: RowId, r: Status)
    ensures Decides(w, u, p, id, r) ==> id in w.rows && w.rows[id].status == Running
  {
  }

  lemma DecidedIsTerminal(w: World, u: World, p: Pid, id: RowId, r: Status, rho: Outcomes)
    requires Decides(w, u, p, id, r) && CallsOk(w, rho)
    ensures IsTerminal(r)
  {
    assert CallOk(w.calls[p], w.rows, rho);
  }

  lemma StepEnds(t: Table, u: Table, id: RowId)
    requires Older(t, u) && id in t
    ensures id in u && (IsTerminal(t[id].status) ==> u[id].status == t[id].status)
  {
  }

  lemma {:induction false} RunsShowHistory(ws: seq<World>, rho: Outcomes, n: nat, id: RowId)
    requires IsRun(ws, rho) && n < |ws| && id in ws[n].rows && !RuleApplies(ws[n].rows, id)
    ensures ShowsHistory(ws, n, id)
  {
    hide Enabled, Apply, CallsOk, RowsOk, Known, RuleApplies, Older, Stamps, Decides;
    if n > 0 {
      assert Follows(ws[n - 1], ws[n - 1 + 1], rho);
      var a :| Enabled(ws[n - 1], a, rho) && ws[n] == Apply(ws[n - 1], a, rho);
      StepAges(ws[n - 1], a, rho);
      SameRows(ws[n - 1].rows, ws[n].rows);
      if RuleApplies(ws[n - 1].rows, id) { RuleStays(ws[n - 1].rows, ws[n].rows, id); }
      RunsShowHistory(ws, rho, n - 1, id);
      RunsKeepKnown(ws, rho, n - 1);
      RunsStayOk(ws, rho, n - 1);
      HistoryStep(ws, rho, n - 1, a, id);
    }
  }

  lemma RuleStays(t: Table, u: Table, id: RowId)
    requires Older(t, u) && id in t && RuleApplies(t, id)
    ensures id in u && RuleApplies(u, id)
  {
    DecisionsAreStable(t, u, id);
  }

  /** In every state of every interleaving, whatever completions, retries and stale calls report: an ended
      row that the rule did not skip shows in status the report of the completion that found it running,
      and in result the last report written; so they differ if and only if those two reports do. */
  lemma ResultFollowsStatusIff(ws: seq<World>, rho: Outcomes, n: nat, id: RowId)
    requires IsRun(ws, rho) && n < |ws| && id in ws[n].rows && !RuleApplies(ws[n].rows, id)
    requires IsTerminal(ws[n].rows[id].status)
    ensures Verdict(ws, n, id) == Some(ws[n].rows[id].status) && LastReport(ws, n, id) == ws[n].rows[id].result
    ensures ws[n].rows[id].result == Some(ws[n].rows[id].status) <==> LastReport(ws, n, id) == Verdict(ws, n, id)
  {
    hide IsRun, RuleApplies;
    RunsShowHistory(ws, rho, n, id);
  }

  /** A row that the rule skips never shows anything else. */
  lemma SkippedShowsSkipped(ws: seq<World>, rho: Outcomes, n: nat, id: RowId)
    requires IsRun(ws, rho) && n < |ws| && id in ws[n].rows && RuleApplies(ws[n].rows, id)
    ensures var j := ws[n].rows[id];
      && !Busy(j) && (IsTerminal(j.status) ==> j.status == Skipped)
      && (j.result.Some? ==> j.result == Some(Skipped) && j.status == Skipped)
  {
    hide IsRun, NeedsTerminal;
    RunsKeepKnown(ws, rho, n);
    RunsStayOk(ws, rho, n);
    OkRow(ws[n].rows, rho, id);
    KnownRow(ws[n], id);
  }

  /* ---------- with one report ---------- */

  /** A completion under way has written its result before anything else, and results are reportable. */
  ghost predicate Reported(w: World, rho: Outcomes) {
    && (forall p :: p in w.calls && w.calls[p].Completing? && w.calls[p].written > 0 ==>
        w.calls[p].id in w.rows && w.rows[w.calls[p].id].result.Some?)
    && (forall id :: id in w.rows && Runnable(w.rows, id) && IsTerminal(w.rows[id].status) ==> w.rows[id].result.Some?)
    && (forall id :: id in w.rows && Runnable(w.rows, id) && w.rows[id].result.Some? ==>
        w.rows[id].result.value in rho(id))
  }

  lemma RunnableExcludesRule(t: Table, u: Table, id: RowId)
    requires Older(t, u) && id in t && id in u && Runnable(u, id)
    ensures !RuleApplies(t, id)
  {
    if RuleApplies(t, id) { DecisionsAreStable(t, u, id); }
  }

  /** A row that may run in the end shows in this step what completions write, or what it showed. */
  lemma RunnableRow(w: World, a: Action, rho: Outcomes, id: RowId)
    requires Known(w) && Reported(w, rho) && CallsOk(w, rho) && RowsOk(w.rows, rho) && Enabled(w, a, rho)
    requires id in w.rows && id in Apply(w, a, rho).rows && Runnable(Apply(w, a, rho).rows, id)
    ensures var t, u := w.rows[id], Apply(w, a, rho).rows[id];
      && (t.result.Some? ==> u.result.Some?)
      && (u.result.Some? ==> u.result.value in rho(id))
      && (IsTerminal(u.status) ==> u.result.Some?)
  {
    hide Enabled, Apply, CallsOk, RowsOk, Known, Runnable, RuleApplies, Older;
    StepAges(w, a, rho);
    RunnableExcludesRule(w.rows, Apply(w, a, rho).rows, id);
    StepRecords(w, a, rho, id);
    StepEnds(w.rows, Apply(w, a, rho).rows, id);
    OkRow(w.rows, rho, id);
    KnownRow(w, id);
    if a.Write? && a.p in w.calls { OneCall(w, a.p, rho); }
  }

  lemma PendingHasReported(w: World, a: Action, rho: Outcomes, p: Pid)
    requires Known(w) && Reported(w, rho) && CallsOk(w, rho) && RowsOk(w.rows, rho) && Enabled(w, a, rho)
    requires p in Apply(w, a, rho).calls && Apply(w, a, rho).calls[p].Completing?
    requires Apply(w, a, rho).calls[p].written > 0
    ensures var c := Apply(w, a, rho).calls[p];
      c.id in Apply(w, a, rho).rows && Apply(w, a, rho).rows[c.id].result.Some?
  {
    hide Enabled, Apply, CallsOk, RowsOk, Runnable, RuleApplies, Older;
    var u := Apply(w, a, rho);
    PendingCame(w, a, rho, p);
    StepAges(w, a, rho);
    SameRows(w.rows, u.rows);
    var id := u.calls[p].id;
    assert Knows(w.calls[p], w.rows);
    DecisionsAreStable(w.rows, u.rows, id);
    RunnableRow(w, a, rho, id);
    ReportsShow(w, a, rho, p, id, w.calls[p].result);
  }

  /** A completion past its first write was a completion before, and has just written or had. */
  lemma PendingCame(w: World, a: Action, rho: Outcomes, p: Pid)
    requires CallsOk(w, rho) && Known(w) && Enabled(w, a, rho) && p in Apply(w, a, rho).calls
    requires Apply(w, a, rho).calls[p].Completing? && Apply(w, a, rho).calls[p].written > 0
    ensures var c := Apply(w, a, rho).calls[p];
      && p in w.calls && w.calls[p].Completing? && w.calls[p].id == c.id && w.calls[p].result == c.result
      && (w.calls[p].written > 0 || Stamps(w, Apply(w, a, rho), p, c.id, c.result))
  {
    hide Enabled, Apply, CallsOk, Known, Stamps;
    OthersWait(w, a, rho);
    if Actor(a) == Some(p) { PendingActs(w, a, rho, p); }
  }

  lemma PendingActs(w: World, a: Action, rho: Outcomes, p: Pid)
    requires Known(w) && Enabled(w, a, rho) && p in Apply(w, a, rho).calls && Actor(a) == Some(p)
    requires Apply(w, a, rho).calls[p].Completing? && Apply(w, a, rho).calls[p].written > 0
    ensures var c := Apply(w, a, rho).calls[p];
      && p in w.calls && w.calls[p].Completing? && w.calls[p].id == c.id && w.calls[p].result == c.result
      && (w.calls[p].written > 0 || Stamps(w, Apply(w, a, rho), p, c.id, c.result))
  {
    hide DecidesSkip, DecidesLease, ListsBatch, RunDone, Handlers.RollUp, WriteRows, RuleApplies, Runnable, Known;
    if p in w.calls { KnownCall(w, p); }
    match a
    case TrySkip(_) => SkipReads(w, p);
    case TryLease(_, _, _, _) => LeaseReads(w, p);
    case _ =>
  }

  lemma KnownCall(w: World, p: Pid)
    requires Known(w) && p in w.calls
    ensures Knows(w.calls[p], w.rows)
  {
  }

  lemma StepKeepsReported(w: World, a: Action, rho: Outcomes)
    requires Known(w) && Reported(w, rho) && CallsOk(w, rho) && RowsOk(w.rows, rho) && Enabled(w, a, rho)
    ensures Reported(Apply(w, a, rho), rho)
  {
    hide Enabled, Apply, CallsOk, RowsOk, Known, Runnable, RuleApplies, Older;
    var u := Apply(w, a, rho);
    StepAges(w, a, rho);
    SameRows(w.rows, u.rows);
    forall p | p in u.calls && u.calls[p].Completing? && u.calls[p].written > 0
      ensures u.calls[p].id in u.rows && u.rows[u.calls[p].id].result.Some?
    {
      PendingHasReported(w, a, rho, p);
    }
    forall id | id in u.rows && Runnable(u.rows, id)
      ensures IsTerminal(u.rows[id].status) ==> u.rows[id].result.Some?
      ensures u.rows[id].result.Some? ==> u.rows[id].result.value in rho(id)
    {
      RunnableRow(w, a, rho, id);
    }
  }

  lemma {:induction false} RunsStayReported(ws: seq<World>, rho: Outcomes, i: nat)
    requires IsRun(ws, rho) && i < |ws|
    ensures Reported(ws[i], rho)
  {
    hide Enabled, Apply, CallsOk, RowsOk, Known, Runnable, RuleApplies;
    if i > 0 {
      RunsStayReported(ws, rho, i - 1);
      RunsKeepKnown(ws, rho, i - 1);
      RunsStayOk(ws, rho, i - 1);
      assert Follows(ws[i - 1], ws[i - 1 + 1], rho);
      var a :| Enabled(ws[i - 1], a, rho) && ws[i] == Apply(ws[i - 1], a, rho);
      StepKeepsReported(ws[i - 1], a, rho);
    }
  }

  /** If all completions of the row can only report one thing, an ended row shows it in both columns, in
      every state of every interleaving: stale calls and retries then do no harm. */
  lemma OneReportAgrees(ws: seq<World>, rho: Outcomes, n: nat, id: RowId, s: Status)
    requires IsRun(ws, rho) && n < |ws| && id in ws[n].rows && !RuleApplies(ws[n].rows, id)
    requires IsTerminal(ws[n].rows[id].status) && rho(id) <= {s}
    ensures ws[n].rows[id].status == s && ws[n].rows[id].result == Some(s)
  {
    hide IsRun, RuleApplies, Runnable;
    RunsStayReported(ws, rho, n);
    RunsStayOk(ws, rho, n);
    OkRow(ws[n].rows, rho, id);
  }
}
