/** What the status of a run says about its rows, column by column (internal/dispatch/service.go:627-661). */
module RunStatus {
  import opened Jobs
  import opened Gating
  import opened Handlers

  ghost predicate AllEnded(t: Table, run: RunId) {
    forall id :: id in t && t[id].run == run ==> t[id].status in {Success, Failure, Skipped, Cancelled}
  }

  /** failure if some row failed; success if every row succeeded or was skipped; cancelled if none failed
      and some row was cancelled. */
  ghost predicate ShowsRows(t: Table, run: RunId, s: Status) {
    && (s == Failure <==> exists id :: id in t && t[id].run == run && t[id].status == Failure)
    && (s == Success <==> forall id :: id in t && t[id].run == run ==> t[id].status in {Success, Skipped})
    && (s == Cancelled <==>
        && (exists id :: id in t && t[id].run == run && t[id].status == Cancelled)
        && (forall id :: id in t && t[id].run == run ==> t[id].status != Failure))
    && s in {Success, Failure, Cancelled}
  }

  lemma RollUpShows(t: Table, run: RunId)
    requires AllEnded(t, run)
    ensures RunDone(t, run) && ShowsRows(t, run, RollUp(t, run))
  {
    if AnyRow(t, run, Failure) {
      var id :| id in t && t[id].run == run && t[id].status == Failure;
      assert t[id].status !in {Success, Skipped};
    }
  }

  lemma DoneIsEnded(t: Table, run: RunId)
    ensures RunDone(t, run) <==> AllEnded(t, run)
  {
  }

  /** finalizeRunIfComplete: the status of a known run is written once all its rows have ended, no other
      status is touched, and what is written shows the rows. */
  lemma FinalizeIsExact(t: Table, runs: map<RunId, Status>, run: RunId)
    ensures var u := Finalize(t, runs, run);
      && u.Keys == runs.Keys
      && (forall r :: r in runs && r != run ==> u[r] == runs[r])
      && (run in runs && !AllEnded(t, run) ==> u[run] == runs[run])
      && (run in runs && AllEnded(t, run) ==> ShowsRows(t, run, u[run]))
  {
    hide ShowsRows, RollUp;
    DoneIsEnded(t, run);
    if AllEnded(t, run) { RollUpShows(t, run); }
  }
}
