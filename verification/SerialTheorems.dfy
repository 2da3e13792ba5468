/** What every run of the dispatcher keeps, one call at a time: run status, the stale-lease fence,
    lease survival, and what a lease carries about its needs. */
module SerialTheorems {
  import opened Jobs
  import opened Gating
  import opened JobStore
  import opened Handlers
  import opened Serial
  import opened NeedRow
  import opened RunStatus
  import Snapshots
  import Service

  lemma PlannedInv(s: State)
    requires Planned(s)
    ensures Inv(s, {})
  {
    forall id ensures !SkipByRule(s.rows, id) {
      assert forall k :: !Blocking(s.rows, id, k);
    }
    forall id | id in s.rows ensures RunAgrees(s.rows, s.runs, s.rows[id].run) {
      assert !IsTerminal(s.rows[id].status);
    }
  }

  lemma {:induction false} RunsKeepInv(s: State, es: seq<Event>, ttl: Time)
    requires Planned(s) && FreshLeases(es)
    ensures Inv(Exec(s, es, ttl), Drawn(es))
  {
    hide Inv, Planned, Next;
    if es == [] {
      PlannedInv(s);
    } else {
      RunsKeepInv(s, es[..|es| - 1], ttl);
      NextKeepsInv(Exec(s, es[..|es| - 1], ttl), es[|es| - 1], ttl, Drawn(es[..|es| - 1]));
    }
  }

  /* ---------- run status ---------- */

  /** Between calls: a run is terminal exactly when all its rows are, and then shows their roll-up;
      no row waits for the rule, so acquire's own skip is never needed. */
  lemma RunStatusAgreement(s: State, es: seq<Event>, ttl: Time, id: RowId)
    requires Planned(s) && FreshLeases(es) && id in Exec(s, es, ttl).rows
    ensures var u := Exec(s, es, ttl); var run := u.rows[id].run;
      && run in u.runs
      && (IsTerminal(u.runs[run]) <==> RunDone(u.rows, run))
      && (RunDone(u.rows, run) ==> u.runs[run] == RollUp(u.rows, run))
      && (forall k :: !SkipByRule(u.rows, k))
      && SkippedOnTheWay(u.rows) == {}
  {
    hide SkipByRule;
    RunsKeepInv(s, es, ttl);
    var u := Exec(s, es, ttl);
    assert RunAgrees(u.rows, u.runs, u.rows[id].run);
    assert SkippedOnTheWay(u.rows) == {};
  }

  /** Between calls, in every run of calls: a run has a final status exactly when all its rows have ended,
      and that status shows them. */
  lemma RunStatusShowsRows(s: State, es: seq<Event>, ttl: Time, id: RowId)
    requires Planned(s) && FreshLeases(es) && id in Exec(s, es, ttl).rows
    ensures var u := Exec(s, es, ttl); var run := u.rows[id].run;
      && run in u.runs
      && (AllEnded(u.rows, run) <==> u.runs[run] in {Success, Failure, Skipped, Cancelled})
      && (AllEnded(u.rows, run) ==> ShowsRows(u.rows, run, u.runs[run]))
  {
    hide ShowsRows, RollUp, Exec, Planned, RunDone;
    var u := Exec(s, es, ttl);
    RunStatusAgreement(s, es, ttl, id);
    DoneIsEnded(u.rows, u.rows[id].run);
    if AllEnded(u.rows, u.rows[id].run) { RollUpShows(u.rows, u.rows[id].run); }
  }

  lemma NextAges(s: State, e: Event, ttl: Time, drawn: set<LeaseId>)
    requires Inv(s, drawn)
    ensures Older(s.rows, Next(s, e, ttl).rows)
  {
    hide Older, Shape, UniqueLeases, Gated, Settled, RunsAgree, AcquireRows, RenewAll, RequeueExpired, Ended,
         SkippedOnTheWay, Picked, TransitionStatus, Handlers.Complete;
    SelfOlder(s.rows);
    match e
    case Acquire(r, l, now, clock) =>
      var got := AcquireWhenSettled(s.rows, r, l, ttl, now, clock);
      if got.Some? {
        PickedIsLeasable(s.rows, got.value);
        LeaseIsQuiet(s.rows, got.value, l, r, now + ttl, now);
      }
    case Report(l, u) =>
      if Held(s.rows, l) { StartIsQuiet(s.rows, HolderOf(s.rows, l)); }
    case Complete(l, p, outs, now, clock) =>
      CompleteUnfolds(s, e);
      if id: RowId :| Ends(s, e, id) {
        EndedAges(s.rows, id, PhaseToStatus(p).value, now, clock);
      }
    case Heartbeat(r, ls, now) => HeartbeatIsQuiet(s.rows, r, ls, now + ttl);
    case Tick(now) => TickIsQuiet(s.rows, now);
  }

  lemma FreshPrefix(es: seq<Event>, more: seq<Event>)
    requires FreshLeases(es + more)
    ensures FreshLeases(es) && Drawn(es) <= Drawn(es + more)
    decreases |more|
  {
    if more == [] {
      assert es + more == es;
    } else {
      assert (es + more)[..|es + more| - 1] == es + more[..|more| - 1];
      FreshPrefix(es, more[..|more| - 1]);
    }
  }

  lemma {:induction false} RunsAge(s: State, es: seq<Event>, more: seq<Event>, ttl: Time)
    requires Planned(s) && FreshLeases(es + more)
    ensures Older(Exec(s, es, ttl).rows, Exec(s, es + more, ttl).rows)
    decreases |more|
  {
    hide Inv, Planned, Next, Older;
    if more == [] {
      assert es + more == es;
      SelfOlder(Exec(s, es, ttl).rows);
    } else {
      var shorter := es + more[..|more| - 1];
      assert (es + more)[..|es + more| - 1] == shorter;
      RunsAge(s, es, more[..|more| - 1], ttl);
      RunsKeepInv(s, shorter, ttl);
      NextAges(Exec(s, shorter, ttl), (es + more)[|es + more| - 1], ttl, Drawn(shorter));
      OlderTransitive(Exec(s, es, ttl).rows, Exec(s, shorter, ttl).rows, Exec(s, es + more, ttl).rows);
    }
  }

  /** A terminal run status never changes again. */
  lemma RunStatusIsFinal(s: State, es: seq<Event>, more: seq<Event>, ttl: Time, id: RowId)
    requires Planned(s) && FreshLeases(es + more)
    requires var u := Exec(s, es, ttl); id in u.rows && u.rows[id].run in u.runs && IsTerminal(u.runs[u.rows[id].run])
    ensures var u, v := Exec(s, es, ttl), Exec(s, es + more, ttl);
            var run := u.rows[id].run;
            run in v.runs && v.runs[run] == u.runs[run]
  {
    hide Planned, Exec;
    var u, v := Exec(s, es, ttl), Exec(s, es + more, ttl);
    FreshPrefix(es, more);
    RunsKeepInv(s, es, ttl);
    RunsKeepInv(s, es + more, ttl);
    RunsAge(s, es, more, ttl);
    assert SamePlan(u.rows[id], v.rows[id]);
    assert RunAgrees(u.rows, u.runs, u.rows[id].run) && RunAgrees(v.rows, v.runs, v.rows[id].run);
    RollUpIsStable(u.rows, v.rows, u.rows[id].run);
  }

  /* ---------- the stale-lease fence ---------- */

  lemma LeaseHolds(t: Table, id: RowId, l: LeaseId, r: RunnerId, d: Time, now: Time)
    ensures forall k, m :: Holds(Lease(t, id, l, r, d, now), k, m) ==> Holds(t, k, m) || m == l
  {
  }

  lemma StartHolds(t: Table, id: RowId)
    ensures forall k, m :: Holds(TransitionStatus(t, id, Leased, Running), k, m) ==> Holds(t, k, m)
  {
  }

  lemma EndedHolds(t: Table, id: RowId, result: Status, now: Time, clock: RowId -> Time)
    requires id in t
    ensures forall k, m :: Holds(Ended(t, id, result, now, clock), k, m) ==> Holds(t, k, m)
  {
    hide Closure;
  }

  lemma RenewedHolds(t: Table, r: RunnerId, ls: seq<LeaseId>, d: Time)
    requires UniqueLeases(t)
    ensures forall k, m :: Holds(RenewAll(t, r, ls, d), k, m) ==> Holds(t, k, m)
  {
    HeartbeatIsExact(t, r, ls, d);
  }

  lemma TickHolds(t: Table, now: Time)
    ensures forall k, m :: Holds(RequeueExpired(t, now), k, m) ==> Holds(t, k, m)
  {
  }

  /** Only acquire gives out a lease, and only the one it drew. */
  lemma OnlyAcquireGrants(s: State, e: Event, ttl: Time, drawn: set<LeaseId>, l: LeaseId)
    requires Inv(s, drawn) && Held(Next(s, e, ttl).rows, l)
    ensures Held(s.rows, l) || (e.Acquire? && e.lease == l)
  {
    hide Shape, UniqueLeases, Gated, Settled, RunsAgree, AcquireRows, RenewAll, RequeueExpired, Ended, Lease,
         SkippedOnTheWay, Picked, TransitionStatus, Handlers.Complete;
    match e
    case Acquire(r, m, now, clock) =>
      var got := AcquireWhenSettled(s.rows, r, m, ttl, now, clock);
      if got.Some? { LeaseHolds(s.rows, got.value, m, r, now + ttl, now); }
    case Report(m, u) =>
      if Held(s.rows, m) { StartHolds(s.rows, HolderOf(s.rows, m)); }
    case Complete(m, p, outs, now, clock) =>
      CompleteUnfolds(s, e);
      if id: RowId :| Ends(s, e, id) {
        EndedHolds(s.rows, id, PhaseToStatus(p).value, now, clock);
      }
    case Heartbeat(r, ls, now) => RenewedHolds(s.rows, r, ls, now + ttl);
    case Tick(now) => TickHolds(s.rows, now);
  }

  /** A lease id that was drawn and is no longer held is never held again. */
  lemma {:induction false} ClearedStaysCleared(s: State, es: seq<Event>, more: seq<Event>, ttl: Time, l: LeaseId)
    requires Planned(s) && FreshLeases(es + more) && l in Drawn(es) && !Held(Exec(s, es, ttl).rows, l)
    ensures !Held(Exec(s, es + more, ttl).rows, l)
    decreases |more|
  {
    hide Inv, Planned, Next, Held;
    if more == [] {
      assert es + more == es;
    } else {
      var shorter, e := es + more[..|more| - 1], more[|more| - 1];
      assert (es + more)[..|es + more| - 1] == shorter && (es + more)[|es + more| - 1] == e;
      ClearedStaysCleared(s, es, more[..|more| - 1], ttl, l);
      RunsKeepInv(s, shorter, ttl);
      FreshPrefix(es, more[..|more| - 1]);
      if Held(Exec(s, es + more, ttl).rows, l) {
        OnlyAcquireGrants(Exec(s, shorter, ttl), e, ttl, Drawn(shorter), l);
        assert false;
      }
    }
  }

  function Without(ls: seq<LeaseId>, l: LeaseId): (r: seq<LeaseId>)
    ensures forall m :: m in r <==> m in ls && m != l
  {
    if ls == [] then [] else
      var rest := Without(ls[1..], l);
      assert ls == [ls[0]] + ls[1..];
      if ls[0] == l then rest else [ls[0]] + rest
  }

  /** e is a report or completion under lease l. */
  ghost predicate Names(e: Event, l: LeaseId) {
    (e.Report? || e.Complete?) && e.lease == l
  }

  /** The fence: for the rest of every run a cleared lease id moves nothing.  A report or completion
      under it leaves the whole database as it is, and in a heartbeat it might as well be absent. */
  lemma StaleLeaseFence(s: State, es: seq<Event>, more: seq<Event>, ttl: Time, l: LeaseId, e: Event)
    requires Planned(s) && FreshLeases(es + more) && l in Drawn(es) && !Held(Exec(s, es, ttl).rows, l)
    ensures Names(e, l) ==> Next(Exec(s, es + more, ttl), e, ttl) == Exec(s, es + more, ttl)
    ensures e.Heartbeat? ==>
      Next(Exec(s, es + more, ttl), e, ttl) == Next(Exec(s, es + more, ttl), e.(leases := Without(e.leases, l)), ttl)
  {
    hide Planned, Exec, Drawn;
    var u := Exec(s, es + more, ttl);
    ClearedStaysCleared(s, es, more, ttl, l);
    RunsKeepInv(s, es + more, ttl);
    if e.Heartbeat? {
      HeartbeatIgnores(u.rows, e.runner, e.leases, l, e.now + ttl);
    }
  }

  lemma HeartbeatIgnores(t: Table, r: RunnerId, ls: seq<LeaseId>, l: LeaseId, d: Time)
    requires UniqueLeases(t) && !Held(t, l)
    ensures RenewAll(t, r, ls, d) == RenewAll(t, r, Without(ls, l), d)
  {
    HeartbeatIsExact(t, r, ls, d);
    HeartbeatIsExact(t, r, Without(ls, l), d);
    assert forall id :: id in t ==> !Holds(t, id, l);
    assert Renewed(t, r, ls, d) == Renewed(t, r, Without(ls, l), d);
  }

  /* ---------- lease survival ---------- */

  /** e grants row id a lease in s, or its owner renews it. */
  ghost predicate Touches(s: State, e: Event, id: RowId) {
    || (e.Acquire? && Picked(s.rows, id))
    || (e.Heartbeat? && id in s.rows && Renews(s.rows[id], e.runner, e.leases))
  }

  function TimeOf(e: Event): Time
    requires e.Acquire? || e.Heartbeat?
  {
    e.now
  }

  /** When row id was last leased or renewed by its owner, read off the history alone. */
  ghost function LastTouch(s: State, es: seq<Event>, ttl: Time, id: RowId): Option<Time> {
    if es == [] then None else
      var e := es[|es| - 1];
      if Touches(Exec(s, es[..|es| - 1], ttl), e, id) then Some(TimeOf(e))
      else LastTouch(s, es[..|es| - 1], ttl, id)
  }

  /** How a step leaves one row's lease: touched, cleared by the reaper, or as it was. */
  ghost predicate LeaseStep(s: State, e: Event, ttl: Time, id: RowId) {
    id in s.rows && id in Next(s, e, ttl).rows &&
    var j, k := s.rows[id], Next(s, e, ttl).rows[id];
    if Touches(s, e, id) then k.lease.Some? && k.deadline == Some(TimeOf(e) + ttl)
    else if e.Tick? && Expired(j, e.now) then k.lease == None && k.status == Queued
    else k.lease == j.lease && k.deadline == j.deadline
  }

  lemma StepLeavesLease(s: State, e: Event, ttl: Time, drawn: set<LeaseId>, id: RowId)
    requires Inv(s, drawn) && id in s.rows
    ensures id in Next(s, e, ttl).rows && LeaseStep(s, e, ttl, id)
  {
    hide Gated, Settled, RunsAgree, AcquireRows, RenewAll, Ended, SkippedOnTheWay, Picked, Handlers.Complete,
         UniqueLeases, Shape;
    match e
    case Acquire(r, m, now, clock) =>
      var got := AcquireWhenSettled(s.rows, r, m, ttl, now, clock);
      if got.Some? { PickedIsLeasable(s.rows, got.value); }
    case Report(m, u) =>
    case Complete(m, p, outs, now, clock) =>
      CompleteUnfolds(s, e);
      if k: RowId :| Ends(s, e, k) {
        EndedKeepsLeases(s.rows, k, PhaseToStatus(p).value, now, clock, id);
      }
    case Heartbeat(r, ls, now) => HeartbeatIsExact(s.rows, r, ls, now + ttl);
    case Tick(now) =>
  }

  lemma EndedKeepsLeases(t: Table, k: RowId, result: Status, now: Time, clock: RowId -> Time, id: RowId)
    requires k in t && id in t
    ensures var u := Ended(t, k, result, now, clock);
            id in u && u[id].lease == t[id].lease && u[id].deadline == t[id].deadline
  {
    hide Closure;
  }

  /** The stored deadline is always the last touch plus the lease time. */
  lemma {:induction false} DeadlineFollowsHistory(s: State, es: seq<Event>, ttl: Time, id: RowId)
    requires Planned(s) && FreshLeases(es) && id in s.rows
    ensures var u := Exec(s, es, ttl).rows;
      id in u && (u[id].lease.Some? ==>
        LastTouch(s, es, ttl, id).Some? && u[id].deadline == Some(LastTouch(s, es, ttl, id).value + ttl))
  {
    hide Inv, Touches, Next;
    if es != [] {
      var rest, e := es[..|es| - 1], es[|es| - 1];
      DeadlineFollowsHistory(s, rest, ttl, id);
      RunsKeepInv(s, rest, ttl);
      StepLeavesLease(Exec(s, rest, ttl), e, ttl, Drawn(rest), id);
    }
  }

  /** A reaper tick takes a row back exactly when it is leased, not running, and its last touch is too old. */
  lemma TickRequeuesIff(s: State, es: seq<Event>, ttl: Time, id: RowId, now: Time)
    requires Planned(s) && FreshLeases(es) && id in s.rows
    ensures var t := Exec(s, es, ttl).rows; var u := Next(Exec(s, es, ttl), Tick(now), ttl).rows;
      id in t && id in u && (u[id] != t[id] <==>
        t[id].status == Leased && LastTouch(s, es, ttl, id).Some? && now - LastTouch(s, es, ttl, id).value > ttl)
  {
    hide Planned, Exec, LastTouch;
    DeadlineFollowsHistory(s, es, ttl, id);
    RunsKeepInv(s, es, ttl);
    var t := Exec(s, es, ttl).rows;
    assert RowShape(t[id]);
  }

  /** At every tick of more, row id has been touched within the lease time. */
  ghost predicate TouchedInTime(s: State, es: seq<Event>, more: seq<Event>, ttl: Time, id: RowId) {
    forall k :: 0 <= k < |more| && more[k].Tick? ==>
      var last := LastTouch(s, es + more[..k], ttl, id);
      last.Some? && more[k].now - last.value <= ttl
  }

  /** A lease renewed in time is kept, for any continuation and however long the row runs. */
  lemma {:induction false} LeaseSurvives(s: State, es: seq<Event>, more: seq<Event>, ttl: Time, id: RowId, l: LeaseId)
    requires Planned(s) && FreshLeases(es + more) && id in s.rows
    requires Holds(Exec(s, es, ttl).rows, id, l) && TouchedInTime(s, es, more, ttl, id)
    ensures Holds(Exec(s, es + more, ttl).rows, id, l)
    decreases |more|
  {
    hide Inv, Planned, Next, Touches, Shape;
    if more == [] {
      assert es + more == es;
    } else {
      var n := |more| - 1;
      var shorter, e := es + more[..n], more[n];
      assert (es + more)[..|es + more| - 1] == shorter && (es + more)[|es + more| - 1] == e;
      assert TouchedInTime(s, es, more[..n], ttl, id) by {
        forall k | 0 <= k < n && more[..n][k].Tick?
          ensures var last := LastTouch(s, es + more[..n][..k], ttl, id);
              last.Some? && more[..n][k].now - last.value <= ttl
        {
          assert more[..n][..k] == more[..k];
        }
      }
      LeaseSurvives(s, es, more[..n], ttl, id, l);
      RunsKeepInv(s, shorter, ttl);
      DeadlineFollowsHistory(s, shorter, ttl, id);
      HeldRowKeepsLease(Exec(s, shorter, ttl), e, ttl, Drawn(shorter), id, l);
    }
  }

  lemma HeldRowKeepsLease(s: State, e: Event, ttl: Time, drawn: set<LeaseId>, id: RowId, l: LeaseId)
    requires Inv(s, drawn) && Holds(s.rows, id, l)
    ensures (e.Tick? && Expired(s.rows[id], e.now)) || Holds(Next(s, e, ttl).rows, id, l)
  {
    hide Gated, Settled, RunsAgree, AcquireRows, RenewAll, Ended, SkippedOnTheWay, Picked, Handlers.Complete,
         UniqueLeases;
    StepLeavesLease(s, e, ttl, drawn, id);
    if e.Acquire? {
      var got := AcquireWhenSettled(s.rows, e.runner, e.lease, ttl, e.now, e.clock);
      if got.Some? {
        PickedIsLeasable(s.rows, got.value);
        assert RowShape(s.rows[id]) && got.value != id;
      }
    } else if e.Heartbeat? {
      HeartbeatIsExact(s.rows, e.runner, e.leases, e.now + ttl);
    }
  }

  /* ---------- what acquire serves ---------- */

  lemma LeastLeasable(t: Table, id: RowId) returns (m: RowId)
    requires Leasable(t, id)
    ensures Leasable(t, m) && m <= id && forall k :: Leasable(t, k) ==> m <= k
  {
    hide Leasable;
    if k: RowId :| Leasable(t, k) && k < id {
      m := LeastLeasable(t, k);
    } else {
      m := id;
    }
  }

  /** Acquire leases some row exactly when a leasable one is among the first ten queued rows. */
  lemma AcquireServesIff(t: Table)
    ensures (exists id :: Picked(t, id)) <==> exists id :: Leasable(t, id) && InBatch(t, CANDIDATE_BATCH_SIZE, id)
  {
    hide Runnable, QueuedBelow;
    if id: RowId :| Leasable(t, id) && InBatch(t, CANDIDATE_BATCH_SIZE, id) {
      var m := LeastLeasable(t, id);
      Service.QueuedBelowGrows(t, m, id);
      assert Picked(t, m);
    }
  }

  /** With at most ten queued rows in the table, a leasable row is always served. */
  lemma SmallQueueIsServed(t: Table, id: RowId)
    requires Leasable(t, id) && |QueuedIds(t)| <= CANDIDATE_BATCH_SIZE
    ensures exists m :: Picked(t, m)
  {
    hide Runnable, Picked;
    var queued := QueuedIds(t);
    assert id in queued && |queued - {id}| == |queued| - 1;
    SubsetSize(QueuedBelow(t, id), queued - {id});
    assert Leasable(t, id) && InBatch(t, CANDIDATE_BATCH_SIZE, id);
    AcquireServesIff(t);
  }

  lemma AcquireLeaves(s: State, e: Event, ttl: Time)
    requires Settled(s.rows) && e.Acquire? && forall id :: !Picked(s.rows, id)
    ensures Next(s, e, ttl) == s
  {
    hide Picked, Settled, AcquireRows, SkippedOnTheWay;
    var got := AcquireWhenSettled(s.rows, e.runner, e.lease, ttl, e.now, e.clock);
  }

  /** Where nothing is held and acquire picks nothing, no call moves anything. */
  lemma NothingMoves(s: State, e: Event, ttl: Time)
    requires Settled(s.rows) && (forall id :: id in s.rows ==> Untouched(s.rows[id]))
    requires forall id :: !Picked(s.rows, id)
    ensures Next(s, e, ttl) == s
  {
    hide Picked, Settled, AcquireRows;
    match e
    case Acquire(_, _, _, _) => AcquireLeaves(s, e, ttl);
    case Heartbeat(r, ls, now) => HeartbeatIsExact(s.rows, r, ls, now + ttl);
    case Tick(now) => assert RequeueExpired(s.rows, now) == s.rows;
    case _ => assert forall id, l :: !Holds(s.rows, id, l);
  }

  lemma {:induction false} NothingEverMoves(s: State, es: seq<Event>, ttl: Time)
    requires Settled(s.rows) && (forall id :: id in s.rows ==> Untouched(s.rows[id]))
    requires forall id :: !Picked(s.rows, id)
    ensures Exec(s, es, ttl) == s
  {
    hide Picked, Settled, Next, Untouched;
    if es != [] {
      NothingEverMoves(s, es[..|es| - 1], ttl);
      NothingMoves(s, es[|es| - 1], ttl);
    }
  }

  lemma AcquireMoves(s: State, id: RowId)
    requires Settled(s.rows) && Picked(s.rows, id)
    ensures Exec(s, [Acquire(0, 0, 0, EPOCH)], 0) != s
  {
    hide Picked, Settled, AcquireRows, SkippedOnTheWay;
    var e := Acquire(0, 0, 0, EPOCH);
    var got := AcquireWhenSettled(s.rows, 0, 0, 0, 0, EPOCH);
    PickedIsLeasable(s.rows, id);
    assert [e][..0] == [] && Exec(s, [], 0) == s;
    assert Next(s, e, 0).rows[id].status == Leased;
  }

  /** A planned database stays as it is through every sequence of calls if and only if no leasable row
      is among the first ten queued rows. */
  lemma NeverMovesIff(s: State)
    requires Planned(s)
    ensures (forall es, ttl :: Exec(s, es, ttl) == s)
      <==> !exists id :: Leasable(s.rows, id) && InBatch(s.rows, CANDIDATE_BATCH_SIZE, id)
  {
    hide Exec, Leasable, InBatch, Picked, Settled;
    AcquireServesIff(s.rows);
    PlannedInv(s);
    if id :| Picked(s.rows, id) {
      AcquireMoves(s, id);
    } else {
      forall es, ttl ensures Exec(s, es, ttl) == s {
        NothingEverMoves(s, es, ttl);
      }
    }
  }

  /** Rows 0 .. n-1, all waiting for job x. */
  function WaitingRows(n: nat): (t: Table)
    ensures forall i :: i in t <==> 0 <= i < n
    ensures forall i :: i in t ==> t[i] == Planning(i, "a", ["x"])
  {
    if n == 0 then map[] else WaitingRows(n - 1)[n - 1 := Planning(n - 1, "a", ["x"])]
  }

  function Planning(i: RowId, name: string, needs: seq<string>): Job {
    Job(i, 0, name, needs, None, Queued, None, None, None, None, None, None)
  }

  lemma {:induction false} BelowCount(t: Table, k: RowId)
    requires forall i :: 0 <= i < k ==> i in t && t[i].status == Queued
    ensures |QueuedBelow(t, k)| == k
  {
    if k > 0 {
      BelowCount(t, k - 1);
      assert QueuedBelow(t, k) == QueuedBelow(t, k - 1) + {k - 1};
    } else {
      assert QueuedBelow(t, 0) == {};
    }
  }

  /** Ten rows that wait for an eleventh with a higher id hide it for ever, although the plan is sound:
      its needs are acyclic and have rows, the eleventh row is leasable, and no call ever moves anything. */
  lemma TenWaitingRowsHideOne() returns (s: State, depth: RowId -> nat)
    ensures Planned(s) && Acyclic(s.rows, 0, depth) && NeedsHaveRows(s.rows, 0)
    ensures Leasable(s.rows, 10) && s.rows[10].run == 0 && forall es, ttl :: Exec(s, es, ttl) == s
  {
    hide WaitingRows, Exec, InBatch;
    var t := WaitingRows(10)[10 := Planning(10, "x", [])];
    s := State(t, map[0 := Queued], map[], map[]);
    depth := id => if id == 10 then 0 else 1;
    HasRowX(t);
    forall m | Leasable(t, m) && InBatch(t, CANDIDATE_BATCH_SIZE, m) ensures false {
      OnlyLastIsLeasable(t, m);
      EleventhIsOutside(t);
    }
    NeverMovesIff(s);
  }

  /** Nine rows that wait do not hide a tenth that may run. */
  lemma NineWaitingRowsHideNone() returns (s: State)
    ensures Planned(s) && s.rows.Keys == {0, 1, 2, 3, 4, 5, 6, 7, 8, 9}
    ensures forall i :: 0 <= i < 9 ==> s.rows[i].needs == ["x"] && !Leasable(s.rows, i)
    ensures s.rows[9].jobId == "x" && Next(s, Acquire(1, 5, 0, EPOCH), 0).rows[9].lease == Some(5)
  {
    hide WaitingRows, Picked, Leasable, Next, Settled, Inv;
    var t := WaitingRows(9)[9 := Planning(9, "x", [])];
    s := State(t, map[0 := Queued], map[], map[]);
    PlannedInv(s);
    NineWait(t);
    BelowCount(t, 9);
    NineIsPicked(t);
    PickedIsLeased(s, Acquire(1, 5, 0, EPOCH), 0, {}, 9);
  }

  lemma NineWait(t: Table)
    requires 9 in t && t[9] == Planning(9, "x", [])
    requires forall i :: 0 <= i < 9 ==> i in t && t[i] == Planning(i, "a", ["x"])
    ensures forall i :: 0 <= i < 9 ==> !Leasable(t, i)
  {
    forall i | 0 <= i < 9 ensures !Leasable(t, i) { assert Needs(t, i, 9) && !IsTerminal(t[9].status); }
  }

  lemma NineIsPicked(t: Table)
    requires 9 in t && t[9] == Planning(9, "x", []) && |QueuedBelow(t, 9)| == 9
    requires t.Keys == {0, 1, 2, 3, 4, 5, 6, 7, 8, 9} && forall i :: 0 <= i < 9 ==> !Leasable(t, i)
    ensures Picked(t, 9)
  {
    assert forall k :: !Needs(t, 9, k);
    assert Leasable(t, 9);
    forall k: RowId | Leasable(t, k) ensures 9 <= k { assert k in t.Keys; }
  }

  lemma EleventhIsOutside(t: Table)
    requires forall i :: 0 <= i < 10 ==> i in t && t[i].status == Queued
    ensures !InBatch(t, CANDIDATE_BATCH_SIZE, 10)
  {
    BelowCount(t, 10);
  }

  lemma HasRowX(t: Table)
    requires 10 in t && t[10] == Planning(10, "x", [])
    ensures HasRow(t, 0, "x")
  {
  }

  lemma OnlyLastIsLeasable(t: Table, m: RowId)
    requires t == WaitingRows(10)[10 := Planning(10, "x", [])]
    ensures Leasable(t, m) ==> m == 10
  {
    hide WaitingRows;
    if m in t && m < 10 {
      assert Needs(t, m, 10) && !IsTerminal(t[10].status);
    }
  }

  /* ---------- what a lease carries about its needs ---------- */

  type Reports = RowId -> (Status, Outputs)

  /** How row id stands in the database when its runner reports what rep says. */
  ghost predicate Recorded(s: State, rep: Reports, id: RowId)
    requires id in s.rows
  {
    var j := s.rows[id];
    if !IsTerminal(j.status) then OutputsOf(s.outputs, id) == map[]
    else if j.lease.Some? then j.result == Some(j.status) && j.status == rep(id).0 &&
        OutputsOf(s.outputs, id) == rep(id).1
    else j.result == Some(j.status) && j.status == Skipped && OutputsOf(s.outputs, id) == map[]
  }

  ghost predicate AllRecorded(s: State, rep: Reports) {
    forall id :: id in s.rows ==> Recorded(s, rep, id)
  }

  /** Every accepted completion, retries included, reports what rep says. */
  ghost predicate Consistent(s: State, es: seq<Event>, ttl: Time, rep: Reports) {
    es != [] ==>
      && Consistent(s, es[..|es| - 1], ttl, rep)
      && ReportsAsSaid(Exec(s, es[..|es| - 1], ttl), es[|es| - 1], rep)
  }

  ghost predicate ReportsAsSaid(s: State, e: Event, rep: Reports) {
    forall id :: Ends(s, e, id) ==> PhaseToStatus(e.phase) == Some(rep(id).0) && e.outs == rep(id).1
  }

  /** The row keeps result and lease once terminal, and no row ends here. */
  ghost predicate StaysRecorded(j: Job, k: Job) {
    && (IsTerminal(k.status) <==> IsTerminal(j.status))
    && (IsTerminal(k.status) ==> k.status == j.status && k.result == j.result && k.lease == j.lease)
  }

  lemma QuietStepStaysRecorded(s: State, e: Event, ttl: Time, drawn: set<LeaseId>, id: RowId)
    requires Inv(s, drawn) && id in s.rows && !e.Complete?
    ensures id in Next(s, e, ttl).rows && StaysRecorded(s.rows[id], Next(s, e, ttl).rows[id])
    ensures Next(s, e, ttl).outputs == s.outputs
  {
    hide Gated, Settled, RunsAgree, AcquireRows, RenewAll, SkippedOnTheWay, Picked, UniqueLeases, Shape;
    match e
    case Acquire(r, m, now, clock) =>
      var got := AcquireWhenSettled(s.rows, r, m, ttl, now, clock);
      if got.Some? { PickedIsLeasable(s.rows, got.value); }
    case Report(m, u) =>
    case Heartbeat(r, ls, now) => HeartbeatIsExact(s.rows, r, ls, now + ttl);
    case Tick(now) =>
  }

  /** An open row was skipped. */
  ghost predicate SkippedOpen(j: Job, k: Job) {
    !IsTerminal(j.status) && k.status == Skipped && k.result == Some(Skipped) && k.lease == None
  }

  lemma EndedRow(t: Table, k: RowId, result: Status, now: Time, clock: RowId -> Time, id: RowId)
    requires Shape(t) && k in t && id in t && t[k].lease.Some? && IsTerminal(result)
    ensures id in Ended(t, k, result, now, clock)
    ensures var u := Ended(t, k, result, now, clock)[id];
      if id == k then u == Completed(t[id], result, now)
      else u == t[id] || SkippedOpen(t[id], u)
  {
    hide Closure;
    assert RowShape(t[k]) && RowShape(t[id]);
  }

  lemma NextKeepsRecords(s: State, e: Event, ttl: Time, drawn: set<LeaseId>, rep: Reports)
    requires Inv(s, drawn) && AllRecorded(s, rep) && ReportsAsSaid(s, e, rep)
    ensures AllRecorded(Next(s, e, ttl), rep)
  {
    hide Inv, Ended, Ends;
    NextAges(s, e, ttl, drawn);
    forall id | id in Next(s, e, ttl).rows ensures Recorded(Next(s, e, ttl), rep, id) {
      if e.Complete? {
        CompleteKeepsRecord(s, e, drawn, rep, id);
      } else {
        QuietStepStaysRecorded(s, e, ttl, drawn, id);
      }
    }
  }

  lemma CompleteKeepsRecord(s: State, e: Event, drawn: set<LeaseId>, rep: Reports, id: RowId)
    requires Inv(s, drawn) && AllRecorded(s, rep) && ReportsAsSaid(s, e, rep) && e.Complete? && id in s.rows
    ensures var u := Handlers.Complete(s, e.lease, e.phase, e.outs, e.now, e.clock);
            id in u.rows && Recorded(u, rep, id)
  {
    hide Handlers.Complete, Ended, Gated, Settled, RunsAgree, UniqueLeases, Shape, Recorded, Completed, Finalize,
         OutputsOf;
    CompleteUnfolds(s, e);
    if k: RowId :| Ends(s, e, k) {
      EndedRow(s.rows, k, PhaseToStatus(e.phase).value, e.now, e.clock, id);
      EndedIsRecorded(s, Handlers.Complete(s, e.lease, e.phase, e.outs, e.now, e.clock), rep, id, k, e.now);
    }
  }

  /** Row k was completed as rep says; row id is k, or was left alone, or was skipped by the gate. */
  lemma EndedIsRecorded(s: State, u: State, rep: Reports, id: RowId, k: RowId, now: Time)
    requires id in s.rows && id in u.rows && k in s.rows && s.rows[k].lease.Some? && Recorded(s, rep, id)
    requires IsTerminal(rep(k).0)
    requires u.outputs == if rep(k).1 == map[] then s.outputs else s.outputs[k := OutputsOf(s.outputs, k) + rep(k).1]
    requires if id == k then u.rows[id] == Completed(s.rows[id], rep(k).0, now)
             else u.rows[id] == s.rows[id] || SkippedOpen(s.rows[id], u.rows[id])
    ensures Recorded(u, rep, id)
  {
  }

  lemma {:induction false} RunsKeepRecords(s: State, es: seq<Event>, ttl: Time, rep: Reports)
    requires Planned(s) && FreshLeases(es) && Consistent(s, es, ttl, rep)
    ensures AllRecorded(Exec(s, es, ttl), rep)
  {
    hide Inv, Next, ReportsAsSaid;
    if es != [] {
      var rest := es[..|es| - 1];
      RunsKeepRecords(s, rest, ttl, rep);
      RunsKeepInv(s, rest, ttl);
      NextKeepsRecords(Exec(s, rest, ttl), es[|es| - 1], ttl, Drawn(rest), rep);
    }
  }

  /** c is the cell of the need that finished last, ties going to the higher row id. */
  ghost predicate IsLastCell(t: Table, run: RunId, name: string, c: RowId) {
    && c in t && t[c].run == run && t[c].jobId == name && t[c].finishedAt.Some?
    && forall k :: k in t && t[k].run == run && t[k].jobId == name ==>
         t[k].finishedAt.Some? &&
             (t[k].finishedAt.value < t[c].finishedAt.value || (t[k].finishedAt == t[c].finishedAt && k <= c))
  }

  /** What the entry for a need must be: the last cell's status, and the outputs its runner reported. */
  ghost predicate EntryIsRight(t: Table, rep: Reports, run: RunId, name: string, entry: Service.NeedOutputs) {
    exists c :: IsLastCell(t, run, name, c)
      && entry == Service.NeedOutputs(t[c].status, if t[c].lease.Some? then rep(c).1 else map[])
  }

  lemma CellIsListed(t: Table, listed: seq<Job>, run: RunId, k: RowId)
    requires Shape(t) && ListsRun(listed, t, run) && k in t && t[k].run == run
    ensures t[k] in listed && t[k].id == k && RowShape(t[k])
  {
  }

  lemma ListedIsCell(t: Table, listed: seq<Job>, run: RunId, j: Job)
    requires Shape(t) && ListsRun(listed, t, run) && j in listed
    ensures j.id in t && t[j.id] == j && j.run == run && RowShape(j)
  {
  }

  /** The cells of a terminal need, as listed: all finished, and the canonical one is the last. */
  lemma CanonicalIsLastCell(t: Table, id: RowId, listed: seq<Job>, name: string) returns (c: RowId)
    requires Shape(t) && id in t && NeedsTerminal(t, id) && name in t[id].needs && ListsRun(listed, t, t[id].run)
    ensures IsLastCell(t, t[id].run, name, c) && Canonical(Snapshots.Group(listed, name)) == Some(t[c])
    ensures c in t && t[c].id == c && t[c].result.Some? && IsTerminal(t[c].status)
  {
    hide Canonical, Snapshots.Group, ListsRun, Shape;
    var run := t[id].run;
    var group := Snapshots.Group(listed, name);
    CanonicalIsDocumented(group);
    forall k | k in t && t[k].run == run && t[k].jobId == name
      ensures t[k] in group && t[k].id == k && Finished(t[k])
    {
      assert Needs(t, id, k);
      CellIsListed(t, listed, run, k);
    }
    forall j | j in group ensures j.id in t && t[j.id] == j && j.run == run && RowShape(j) {
      ListedIsCell(t, listed, run, j);
    }
    assert HasRow(t, run, name);
    var k :| k in t && t[k].run == run && t[k].jobId == name;
    assert t[k] in group && Finished(t[k]);
    c := Canonical(group).value.id;
    assert IsLastFinished(group, t[c]);
    assert Needs(t, id, c);
  }

  lemma EntryFollows(s: State, drawn: set<LeaseId>, rep: Reports, id: RowId, m: map<string, Service.NeedOutputs>,
                     listed: seq<Job>, name: string)
    requires Inv(s, drawn) && AllRecorded(s, rep) && id in s.rows && NeedsTerminal(s.rows, id)
    requires name in s.rows[id].needs
    requires ListsRun(listed, s.rows, s.rows[id].run) && Service.Assembles(m, s.rows[id].needs, listed, s.outputs)
    ensures name in m && EntryIsRight(s.rows, rep, s.rows[id].run, name, m[name])
  {
    hide Gated, Settled, RunsAgree, UniqueLeases, HeldWithin, Shape, Canonical, Snapshots.Group, ListsRun,
         NeedsTerminal, IsLastCell;
    var c := CanonicalIsLastCell(s.rows, id, listed, name);
    assert Recorded(s, rep, c);
    assert Service.EntryFor(m, name, Some(s.rows[c]), s.outputs);
  }

  /** Every lease handed out carries exactly one entry per need, with the status and outputs of its last cell. */
  lemma LeaseCarriesNeeds(s: State, es: seq<Event>, ttl: Time, rep: Reports, e: Event, id: RowId,
                          m: map<string, Service.NeedOutputs>, listed: seq<Job>)
    requires Planned(s) && FreshLeases(es + [e]) && Consistent(s, es, ttl, rep) && e.Acquire?
    requires Picked(Exec(s, es, ttl).rows, id)
    requires var u := Exec(s, es + [e], ttl);
      && id in u.rows && ListsRun(listed, u.rows, u.rows[id].run)
      && Service.Assembles(m, u.rows[id].needs, listed, u.outputs)
    ensures var u := Exec(s, es + [e], ttl); var j := u.rows[id];
      && j.lease == Some(e.lease) && j.status == Leased
      && (forall name :: name in m <==> name in j.needs)
      && (forall name :: name in m ==> EntryIsRight(u.rows, rep, j.run, name, m[name]))
  {
    hide Planned, EntryIsRight, ListsRun, Service.Assembles, Inv, Consistent, Picked, Next;
    var u := Exec(s, es + [e], ttl);
    assert (es + [e])[..|es|] == es && (es + [e])[|es|] == e;
    assert u == Next(Exec(s, es, ttl), e, ttl);
    assert Consistent(s, es + [e], ttl, rep) by { OneMoreConsistent(s, es, ttl, rep, e); }
    RunsKeepInv(s, es + [e], ttl);
    RunsKeepInv(s, es, ttl);
    RunsKeepRecords(s, es + [e], ttl, rep);
    PickedIsLeased(Exec(s, es, ttl), e, ttl, Drawn(es), id);
    LeasedNeedsAreTerminal(u, Drawn(es + [e]), id);
    forall name | name in u.rows[id].needs
        ensures name in m && EntryIsRight(u.rows, rep, u.rows[id].run, name, m[name]) {
      EntryFollows(u, Drawn(es + [e]), rep, id, m, listed, name);
    }
    OnlyNeeds(m, u.rows[id].needs, listed, u.outputs);
  }

  lemma OneMoreConsistent(s: State, es: seq<Event>, ttl: Time, rep: Reports, e: Event)
    requires Consistent(s, es, ttl, rep) && e.Acquire?
    ensures Consistent(s, es + [e], ttl, rep)
  {
    assert (es + [e])[..|es|] == es;
  }

  lemma OnlyNeeds(m: map<string, Service.NeedOutputs>, needs: seq<string>, listed: seq<Job>, outs: map<RowId, Outputs>)
    requires Service.Assembles(m, needs, listed, outs)
    ensures forall name :: name in m ==> name in needs
  {
  }

  lemma PickedIsLeased(s: State, e: Event, ttl: Time, drawn: set<LeaseId>, id: RowId)
    requires Inv(s, drawn) && e.Acquire? && Picked(s.rows, id)
    ensures var u := Next(s, e, ttl).rows; id in u && u[id].status == Leased && u[id].lease == Some(e.lease)
  {
    hide Picked, Gated, RunsAgree, Shape, UniqueLeases, AcquireRows;
    var got := AcquireWhenSettled(s.rows, e.runner, e.lease, ttl, e.now, e.clock);
    PickedIsLeasable(s.rows, id);
  }

  lemma LeasedNeedsAreTerminal(s: State, drawn: set<LeaseId>, id: RowId)
    requires Inv(s, drawn) && id in s.rows && s.rows[id].status == Leased
    ensures NeedsTerminal(s.rows, id)
  {
    assert Runnable(s.rows, id);
  }

  /** What an accepted completion leaves in its row. */
  lemma CompletionWrites(s: State, e: Event, drawn: set<LeaseId>, id: RowId)
    requires Inv(s, drawn) && e.Complete? && Holds(s.rows, id, e.lease)
    requires PhaseToStatus(e.phase).Some? && IsTerminal(PhaseToStatus(e.phase).value)
    ensures var u := Handlers.Complete(s, e.lease, e.phase, e.outs, e.now, e.clock).rows;
      Holds(u, id, e.lease) && u[id] == Completed(s.rows[id], PhaseToStatus(e.phase).value, e.now)
  {
    hide Gated, Settled, RunsAgree, Shape, UniqueLeases, Handlers.Complete, Ended;
    AcceptedEnds(s, e, id);
    EndedRow(s.rows, id, PhaseToStatus(e.phase).value, e.now, e.clock, id);
    assert s.rows[id].lease.Some? && Completed(s.rows[id], PhaseToStatus(e.phase).value, e.now).status != Queued;
  }

  /** Without consistent retries the result column can leave the status: it follows it exactly when
      the row was still open or the retry repeats its status. */
  lemma ResultFollowsStatusIff(s: State, e: Event, drawn: set<LeaseId>, id: RowId)
    requires Inv(s, drawn) && e.Complete? && Holds(s.rows, id, e.lease)
    requires PhaseToStatus(e.phase).Some? && IsTerminal(PhaseToStatus(e.phase).value)
    ensures var u := Handlers.Complete(s, e.lease, e.phase, e.outs, e.now, e.clock).rows;
      && id in u
      && (u[id].result == Some(u[id].status) <==>
          !IsTerminal(s.rows[id].status) || PhaseToStatus(e.phase) == Some(s.rows[id].status))
  {
    hide Inv, Handlers.Complete;
    CompletionWrites(s, e, drawn, id);
  }

  /** A run of one row, completed twice under its lease with different results: status and result differ. */
  lemma RetrySplitsResult() returns (s: State, es: seq<Event>)
    ensures Planned(s) && FreshLeases(es) && 0 in Exec(s, es, 0).rows
    ensures var j := Exec(s, es, 0).rows[0]; j.status == Success && j.result == Some(Failure)
  {
    hide Picked, Inv, AcquireRows, Handlers.Complete;
    s := State(map[0 := Planning(0, "a", [])], map[0 := Queued], map[], map[]);
    var grant := Acquire(1, 5, 0, EPOCH);
    var first, second := Serial.Complete(5, Succeeded, map[], 1, EPOCH), Serial.Complete(5, Failed, map[], 2, EPOCH);
    es := [grant, first, second];
    var a, b, c := Exec(s, [grant], 0), Exec(s, [grant, first], 0), Exec(s, es, 0);
    ThreeSteps(s, grant, first, second);
    RunsKeepInv(s, [], 0);
    RunsKeepInv(s, [grant], 0);
    RunsKeepInv(s, [grant, first], 0);
    assert Picked(s.rows, 0) by { OnlyRowIsPicked(s.rows); }
    PickedIsLeased(s, grant, 0, Drawn([]), 0);
    CompletionWrites(a, first, Drawn([grant]), 0);
    CompletionWrites(b, second, Drawn([grant, first]), 0);
  }

  lemma ThreeSteps(s: State, x: Event, y: Event, z: Event)
    requires x.Acquire? && !y.Acquire? && !z.Acquire?
    ensures FreshLeases([]) && FreshLeases([x]) && FreshLeases([x, y]) && FreshLeases([x, y, z])
    ensures Exec(s, [], 0) == s && Exec(s, [x], 0) == Next(s, x, 0)
    ensures Exec(s, [x, y], 0) == Next(Exec(s, [x], 0), y, 0) && Exec(s, [x, y, z], 0) == Next(Exec(s, [x, y], 0), z, 0)
  {
    hide Next;
    assert [x][..0] == [] && [x, y][..1] == [x] && [x, y, z][..2] == [x, y];
  }

  lemma OnlyRowIsPicked(t: Table)
    requires t == map[0 := Planning(0, "a", [])]
    ensures Picked(t, 0)
  {
    BelowCount(t, 0);
    assert Leasable(t, 0);
  }
}
