/** Step rows as a summary of the step reports accepted for them
    (internal/dispatch/service.go:371-421, internal/store/step_store.go:44-62). */
module StepHistory {
  import opened Jobs
  import opened Handlers
  import opened Serial

  /** e is an accepted step-level report for step index of row id. */
  ghost predicate Accepts(s: State, e: Event, id: RowId, index: int) {
    && e.Report? && e.update.stepLevel && e.update.index == index && e.update.phase != Unspecified
    && Held(s.rows, e.lease) && HolderOf(s.rows, e.lease) == id
  }

  /** The reports accepted for one step, in order, under whatever leases the row had. */
  ghost function History(s: State, es: seq<Event>, ttl: Time, id: RowId, index: int): seq<Update> {
    if es == [] then [] else
      var rest, e := es[..|es| - 1], es[|es| - 1];
      History(s, rest, ttl, id, index) + if Accepts(Exec(s, rest, ttl), e, id, index) then [e.update] else []
  }

  ghost predicate Starts(u: Update) { u.phase == InProgress }

  ghost predicate Finishes(u: Update) { u.phase in {Succeeded, Failed, SkippedPhase, CancelledPhase} }

  /** The status a step shows after a report, phase by phase. */
  ghost predicate Shows(s: Status, phase: Phase) {
    match phase
    case Unspecified => false
    case Pending => s == Queued
    case InProgress => s == Running
    case Succeeded => s == Success
    case Failed => s == Failure
    case SkippedPhase => s == Skipped
    case CancelledPhase => s == Cancelled
  }

  /** t is the time of the first running report, if there is one. */
  ghost predicate FirstStart(h: seq<Update>, t: Option<Time>) {
    if t.None? then forall k :: 0 <= k < |h| ==> !Starts(h[k])
    else exists k :: 0 <= k < |h| && Starts(h[k]) && h[k].ts == t.value && forall j :: 0 <= j < k ==> !Starts(h[j])
  }

  /** t is the time of the last terminal report, if there is one. */
  ghost predicate LastFinish(h: seq<Update>, t: Option<Time>) {
    if t.None? then forall k :: 0 <= k < |h| ==> !Finishes(h[k])
    else exists k :: 0 <= k < |h| && Finishes(h[k]) && h[k].ts == t.value && forall j :: k < j < |h| ==> !Finishes(h[j])
  }

  ghost predicate Summarizes(st: Option<Step>, h: seq<Update>) {
    if h == [] then st == None
    else
      && st.Some?
      && st.value.id == h[0].freshId
      && st.value.name == h[|h| - 1].name
      && Shows(st.value.status, h[|h| - 1].phase)
      && FirstStart(h, st.value.startedAt)
      && LastFinish(h, st.value.finishedAt)
  }

  lemma StartCarries(h: seq<Update>, u: Update, t: Option<Time>)
    requires FirstStart(h, t)
    ensures FirstStart(h + [u], if t.None? && Starts(u) then Some(u.ts) else t)
  {
    var all := h + [u];
    if t.Some? {
      var k :| 0 <= k < |h| && Starts(h[k]) && h[k].ts == t.value && forall j :: 0 <= j < k ==> !Starts(h[j]);
      assert all[k] == h[k] && forall j :: 0 <= j < k ==> all[j] == h[j];
    } else if Starts(u) {
      assert all[|h|] == u && forall j :: 0 <= j < |h| ==> all[j] == h[j];
    }
  }

  lemma FinishCarries(h: seq<Update>, u: Update, t: Option<Time>)
    requires LastFinish(h, t)
    ensures LastFinish(h + [u], if Finishes(u) then Some(u.ts) else t)
  {
    var all := h + [u];
    if Finishes(u) {
      assert all[|h|] == u;
    } else if t.Some? {
      var k :| 0 <= k < |h| && Finishes(h[k]) && h[k].ts == t.value && forall j :: k < j < |h| ==> !Finishes(h[j]);
      assert all[k] == h[k] && forall j :: k < j < |all| ==> all[j] == u || all[j] == h[j];
    }
  }

  lemma MergeSummarizes(st: Option<Step>, h: seq<Update>, u: Update)
    requires Summarizes(st, h) && PhaseToStatus(u.phase).Some?
    ensures Summarizes(Some(MergeStep(st, u.freshId, u.name, PhaseToStatus(u.phase).value, u.ts)), h + [u])
  {
    hide FirstStart, LastFinish;
    var started := if st.Some? then st.value.startedAt else None;
    var finished := if st.Some? then st.value.finishedAt else None;
    if h == [] {
      EmptyHistory();
    }
    StartCarries(h, u, started);
    FinishCarries(h, u, finished);
  }

  lemma EmptyHistory()
    ensures FirstStart([], None) && LastFinish([], None)
  {
  }

  /** After any run, each step row is exactly the summary of the reports accepted for it. */
  lemma {:induction false} StepRowsSummarizeReports(s: State, es: seq<Event>, ttl: Time, id: RowId, index: int)
    requires s.steps == map[]
    ensures Summarizes(StepAt(Exec(s, es, ttl).steps, (id, index)), History(s, es, ttl, id, index))
  {
    hide Summarizes, Held, MergeStep, Handlers.Complete, Accepts, Next;
    if es == [] {
      NothingReported();
    } else {
      var rest, e := es[..|es| - 1], es[|es| - 1];
      StepRowsSummarizeReports(s, rest, ttl, id, index);
      var u := Exec(s, rest, ttl);
      if Accepts(u, e, id, index) {
        AcceptedMerges(u, e, ttl, id, index);
        MergeSummarizes(StepAt(u.steps, (id, index)), History(s, rest, ttl, id, index), e.update);
      } else {
        OtherEventsKeepStep(u, e, ttl, id, index);
        assert History(s, es, ttl, id, index) == History(s, rest, ttl, id, index);
      }
    }
  }

  lemma AcceptedMerges(s: State, e: Event, ttl: Time, id: RowId, index: int)
    requires Accepts(s, e, id, index)
    ensures e.Report? && PhaseToStatus(e.update.phase).Some?
    ensures var u, before := e.update, StepAt(s.steps, (id, index));
      StepAt(Next(s, e, ttl).steps, (id, index)) ==
        Some(MergeStep(before, u.freshId, u.name, PhaseToStatus(u.phase).value, u.ts))
  {
    hide MergeStep;
  }

  lemma NothingReported()
    ensures Summarizes(None, [])
  {
  }

  lemma OtherEventsKeepStep(s: State, e: Event, ttl: Time, id: RowId, index: int)
    requires !Accepts(s, e, id, index)
    ensures StepAt(Next(s, e, ttl).steps, (id, index)) == StepAt(s.steps, (id, index))
  {
    hide AcquireRows, RenewAll;
  }
}
