/** The statements of the jobs table column by column, and the states they may join
    (internal/store/job_store.go:36-291). */
module Statements {
  import opened Jobs

  /** The pairs TransitionStatus lets through. */
  const LEGAL: set<(Status, Status)> :=
    {(Queued, Leased), (Queued, Cancelled), (Queued, Skipped), (Leased, Running), (Leased, Queued), (Leased, Cancelled),
     (Running, Success), (Running, Failure), (Running, Cancelled), (Running, Skipped)}

  lemma TransitionIsExact(t: Table, id: RowId, from: Status, to: Status)
    ensures var u := TransitionStatus(t, id, from, to);
      && u.Keys == t.Keys && (forall k :: k in t && k != id ==> u[k] == t[k])
      && (id in t ==> u[id] == if (from, to) in LEGAL && t[id].status == from then t[id].(status := to) else t[id])
  {
  }

  /** A queued row gets status, runner, lease and deadline, and a start time if it has none. */
  lemma LeaseIsExact(t: Table, id: RowId, l: LeaseId, r: RunnerId, d: Time, now: Time)
    ensures var u := Lease(t, id, l, r, d, now);
      && u.Keys == t.Keys && (forall k :: k in t && k != id ==> u[k] == t[k])
      && (id in t && t[id].status != Queued ==> u[id] == t[id])
      && (id in t && t[id].status == Queued ==>
          u[id] == t[id].(status := Leased, runner := Some(r), lease := Some(l), deadline := Some(d),
                          startedAt := if t[id].startedAt == None then Some(now) else t[id].startedAt))
  {
  }

  /** A leased row whose deadline has passed loses runner, lease and deadline and is queued again; its
      start time and all else stays. */
  lemma RequeueIsExact(t: Table, now: Time)
    ensures var u := RequeueExpired(t, now);
      && u.Keys == t.Keys
      && forall id :: id in t ==>
           u[id] == if t[id].status == Leased && t[id].deadline != None && t[id].deadline.value < now
                    then t[id].(status := Queued, runner := None, lease := None, deadline := None) else t[id]
  {
  }

  lemma RenewIsExact(t: Table, l: LeaseId, d: Time)
    ensures var u := RenewLease(t, l, d);
      && u.Keys == t.Keys
      && forall id :: id in t ==> u[id] == if t[id].lease == Some(l) then t[id].(deadline := Some(d)) else t[id]
  {
  }

  lemma ResultIsExact(t: Table, id: RowId, result: Status, now: Time)
    ensures var u := SetResult(t, id, result, now);
      && u.Keys == t.Keys && (forall k :: k in t && k != id ==> u[k] == t[k])
      && (id in t ==> u[id] == t[id].(result := Some(result), finishedAt := Some(now)))
  {
  }

  lemma SkipIsExact(t: Table, id: RowId, now: Time)
    ensures var u := SkipJob(t, id, now);
      && u.Keys == t.Keys && (forall k :: k in t && k != id ==> u[k] == t[k])
      && (id in t ==> u[id] == if t[id].status == Queued
                               then t[id].(status := Skipped, result := Some(Skipped), finishedAt := Some(now))
                               else t[id])
  {
  }

  /** The four statuses that nothing leaves, and no others, are the ended ones. */
  lemma EndedIffNothingLeaves(s: Status)
    ensures IsTerminal(s) <==> forall to: Status :: (s, to) !in LEGAL
    ensures IsTerminal(s) <==> s in {Success, Failure, Skipped, Cancelled}
  {
    if !IsTerminal(s) {
      var to := if s == Queued then Leased else if s == Leased then Running else Success;
      assert (s, to) in LEGAL;
    }
  }
}
