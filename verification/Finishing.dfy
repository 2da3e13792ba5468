/** Which rows can be brought to an end at all, given that acquire looks at the first ten queued rows only
    (internal/dispatch/queue.go:51-56, internal/dispatch/queue.go:380-385). */
module Finishing {
  import opened Jobs
  import opened Gating
  import opened JobStore
  import opened Handlers
  import opened Interleaving
  import opened InterleavingTheorems
  import opened SerialRefines
  import Serial
  import SerialTheorems

  /* ---------- the condition on the plan ---------- */

  /** The rows before id in the queue that leave it no earlier than id does, when the rows of s leave it in
      the order of num and the others never. */
  ghost function Ahead(plan: Table, s: set<RowId>, num: RowId -> nat, id: RowId): set<RowId> {
    set k | k in plan && k < id && !(k in s && num(k) < num(id))
  }

  /** The rows of s can leave the queue in the order of num: each row's needs have rows, which lie in s and
      come first; and a row that the rule will not skip comes up among the first ten. */
  ghost predicate Feasible(plan: Table, f: RowId -> Status, s: set<RowId>, num: RowId -> nat) {
    && s <= plan.Keys && Grounded(plan, s, num)
    && (forall id, name :: id in s && name in plan[id].needs ==> HasRow(plan, plan[id].run, name))
    && (forall id :: id in s && !Doomed(plan, f, s, num, id) ==> |Ahead(plan, s, num, id)| < CANDIDATE_BATCH_SIZE)
  }

  /** A choice of one result for each row among those it may report. */
  ghost predicate Allows(plan: Table, rho: Outcomes, f: RowId -> Status) {
    forall id :: id in plan ==> f(id) in rho(id) && IsTerminal(f(id))
  }

  /** For some such choice the rows of the goal lie in a feasible order. */
  ghost predicate Admissible(plan: Table, rho: Outcomes, goal: set<RowId>) {
    exists f, s, num :: Allows(plan, rho, f) && Feasible(plan, f, s, num) && goal <= s
  }

  ghost predicate HasReport(rho: Outcomes, id: RowId) {
    exists s :: s in rho(id) && IsTerminal(s)
  }

  /** Every row has something to report. */
  ghost predicate Reportable(plan: Table, rho: Outcomes) {
    forall id :: id in plan ==> HasReport(rho, id)
  }

  /* ---------- every run keeps to it ---------- */

  ghost predicate Out(w: World, id: RowId) {
    id in w.rows && w.rows[id].status != Queued
  }

  /** The first of the first n worlds in which the row is no longer queued; n if there is none. */
  ghost function OutAt(ws: seq<World>, n: nat, id: RowId): (m: nat)
    requires n <= |ws|
    ensures m <= n && (m < n ==> Out(ws[m], id)) && forall j :: 0 <= j < m ==> !Out(ws[j], id)
  {
    if n == 0 then 0 else
      var m := OutAt(ws, n - 1, id);
      if m < n - 1 || Out(ws[m], id) then m else n
  }

  /** The rows a call has listed and not looked at yet were all seen by someone. */
  ghost predicate Within(c: Call, seen: set<RowId>) {
    match c
    case Acquiring(_, todo, _) => forall id :: id in todo ==> id in seen
    case Stamping(_, next) => Within(next, seen)
    case _ => true
  }

  ghost predicate AllWithin(w: World, seen: set<RowId>) {
    forall p :: p in w.calls ==> Within(w.calls[p], seen)
  }

  lemma TailWithin(c: Call, seen: set<RowId>)
    requires (c.Acquiring? || c.Scanning?) && c.todo != [] && Within(c, seen)
    ensures Within(Tail(c), seen)
    ensures c.Scanning? ==> Within(Tail(c).(progressed := true), seen)
  {
  }

  lemma ActorStaysWithin(w: World, a: Action, rho: Outcomes, seen: set<RowId>, p: Pid)
    requires Enabled(w, a, rho) && Actor(a) == Some(p) && (p in w.calls ==> Within(w.calls[p], seen))
    requires forall id :: InBatch(w.rows, CANDIDATE_BATCH_SIZE, id) ==> id in seen
    ensures p in Apply(w, a, rho).calls && Within(Apply(w, a, rho).calls[p], seen)
  {
    hide DecidesSkip, DecidesLease, WriteRows, InBatch, RunDone, RollUp;
    match a
    case TrySkip(_) =>
      SkipReads(w, p);
      TailWithin(w.calls[p], seen);
    case TryLease(_, _, _, _) =>
      LeaseReads(w, p);
      TailWithin(w.calls[p], seen);
    case _ =>
  }

  lemma StepStaysWithin(w: World, a: Action, rho: Outcomes, seen: set<RowId>)
    requires AllWithin(w, seen) && Enabled(w, a, rho)
    requires forall id :: InBatch(w.rows, CANDIDATE_BATCH_SIZE, id) ==> id in seen
    ensures AllWithin(Apply(w, a, rho), seen)
  {
    hide Enabled, Apply, Within, InBatch;
    OthersWait(w, a, rho);
    if Actor(a).Some? { ActorStaysWithin(w, a, rho, seen, Actor(a).value); }
  }

  /** A row leaves the queue by the rule, or by a lease to an acquirer that had listed it. */
  lemma LeavingStep(w: World, a: Action, rho: Outcomes, seen: set<RowId>, id: RowId)
    requires CallsOk(w, rho) && AllWithin(w, seen) && Enabled(w, a, rho)
    requires id in w.rows && !Out(w, id) && Out(Apply(w, a, rho), id)
    ensures RuleApplies(w.rows, id) || (Runnable(w.rows, id) && id in seen)
  {
    hide RuleApplies, Runnable, Older, DecidesSkip, DecidesLease, CallsOk, RunDone, RollUp;
    match a
    case TrySkip(p) => SkipReads(w, p); SkipIsRight(w, p, rho);
    case TryLease(p, _, _, _) => LeaseReads(w, p); LeaseIsRight(w, p, rho);
    case _ =>
  }

  /** The rows among the first ten of some world up to i. */
  ghost function Seen(ws: seq<World>, i: nat): set<RowId>
    requires i < |ws|
  {
    set id, j | 0 <= j <= i && id in ws[j].rows && InBatch(ws[j].rows, CANDIDATE_BATCH_SIZE, id) :: id
  }

  lemma {:induction false} RunsStayWithin(ws: seq<World>, rho: Outcomes, i: nat)
    requires IsRun(ws, rho) && i < |ws|
    ensures AllWithin(ws[i], Seen(ws, i))
  {
    hide Enabled, Apply, InBatch;
    if i > 0 {
      RunsStayWithin(ws, rho, i - 1);
      assert Follows(ws[i - 1], ws[i - 1 + 1], rho);
      var a :| Enabled(ws[i - 1], a, rho) && ws[i] == Apply(ws[i - 1], a, rho);
      BatchIsSeen(ws, i - 1);
      StepStaysWithin(ws[i - 1], a, rho, Seen(ws, i - 1));
      MoreSeen(ws[i], Seen(ws, i - 1), Seen(ws, i));
    }
  }

  lemma BatchIsSeen(ws: seq<World>, i: nat)
    requires i < |ws|
    ensures forall id :: InBatch(ws[i].rows, CANDIDATE_BATCH_SIZE, id) ==> id in Seen(ws, i)
  {
  }

  lemma {:induction false} MoreWithin(c: Call, a: set<RowId>, b: set<RowId>)
    requires Within(c, a) && a <= b
    ensures Within(c, b)
  {
    match c
    case Stamping(_, next) => MoreWithin(next, a, b);
    case _ =>
  }

  lemma MoreSeen(w: World, a: set<RowId>, b: set<RowId>)
    requires AllWithin(w, a) && a <= b
    ensures AllWithin(w, b)
  {
    forall p | p in w.calls ensures Within(w.calls[p], b) { MoreWithin(w.calls[p], a, b); }
  }

  /** The rows that left the queue at all. */
  ghost function Left(ws: seq<World>): set<RowId>
    requires |ws| > 0
  {
    set id | id in ws[0].rows && OutAt(ws, |ws|, id) < |ws|
  }

  /** The moment a row leaves the queue. */
  lemma Leaving(ws: seq<World>, rho: Outcomes, id: RowId)
    requires IsRun(ws, rho) && id in Left(ws)
    ensures var m := OutAt(ws, |ws|, id);
      && 0 < m && id in ws[m - 1].rows
      && (RuleApplies(ws[m - 1].rows, id) || (Runnable(ws[m - 1].rows, id) && id in Seen(ws, m - 1)))
  {
    hide Enabled, Apply, RowsOk, CallsOk, RuleApplies, Runnable, OutAt, Seen;
    var m := OutAt(ws, |ws|, id);
    assert !Out(ws[0], id);
    assert Follows(ws[m - 1], ws[m - 1 + 1], rho);
    var a :| Enabled(ws[m - 1], a, rho) && ws[m] == Apply(ws[m - 1], a, rho);
    RunsAge(ws, rho, m - 1);
    RunsStayOk(ws, rho, m - 1);
    RunsStayWithin(ws, rho, m - 1);
    LeavingStep(ws[m - 1], a, rho, Seen(ws, m - 1), id);
  }

  lemma NeedsOfOlder(t: Table, u: Table, id: RowId)
    requires Older(t, u) && id in u && NeedsTerminal(u, id)
    ensures id in t && forall name :: name in t[id].needs ==> HasRow(t, t[id].run, name)
    ensures forall k :: Needs(t, id, k) ==> k in u && IsTerminal(u[k].status)
  {
    assert SamePlan(t[id], u[id]);
    forall k | Needs(t, id, k) ensures Needs(u, id, k) {
      assert SamePlan(t[k], u[k]);
    }
    forall name | name in t[id].needs ensures HasRow(t, t[id].run, name) {
      assert HasRow(u, u[id].run, name);
      var k :| k in u && u[k].run == u[id].run && u[k].jobId == name;
      assert SamePlan(t[k], u[k]);
    }
  }

  lemma VerdictNeedsEnd(t: Table, id: RowId)
    requires id in t && (RuleApplies(t, id) || Runnable(t, id))
    ensures NeedsTerminal(t, id)
  {
  }

  lemma NeedsLeftEarlier(ws: seq<World>, rho: Outcomes, id: RowId)
    requires IsRun(ws, rho) && id in Left(ws)
    ensures forall name :: name in ws[0].rows[id].needs ==> HasRow(ws[0].rows, ws[0].rows[id].run, name)
    ensures forall k :: Needs(ws[0].rows, id, k) ==> k in Left(ws) && OutAt(ws, |ws|, k) < OutAt(ws, |ws|, id)
  {
    hide Follows, Fresh, NeedsTerminal, RuleApplies, Runnable, Older, OutAt, HasRow, Seen;
    var t, m := ws[0].rows, OutAt(ws, |ws|, id);
    Leaving(ws, rho, id);
    VerdictNeedsEnd(ws[m - 1].rows, id);
    RunsAge(ws, rho, m - 1);
    NeedsOfOlder(t, ws[m - 1].rows, id);
    forall k | Needs(t, id, k) ensures k in Left(ws) && OutAt(ws, |ws|, k) < m {
      assert Out(ws[m - 1], k);
    }
  }

  /** A row that the rule does not skip was among the first ten when it was listed, and the rows before it
      that left no earlier were all queued then. */
  lemma AheadIsShort(ws: seq<World>, rho: Outcomes, id: RowId)
    requires IsRun(ws, rho) && id in Left(ws) && id in Seen(ws, OutAt(ws, |ws|, id) - 1)
    requires OutAt(ws, |ws|, id) > 0
    ensures |Ahead(ws[0].rows, Left(ws), k => OutAt(ws, |ws|, k), id)| < CANDIDATE_BATCH_SIZE
  {
    hide Follows, Fresh, OutAt;
    var m := OutAt(ws, |ws|, id);
    var j :| 0 <= j <= m - 1 && InBatch(ws[j].rows, CANDIDATE_BATCH_SIZE, id);
    RunsAge(ws, rho, j);
    var ahead := Ahead(ws[0].rows, Left(ws), k => OutAt(ws, |ws|, k), id);
    forall k | k in ahead ensures k in QueuedBelow(ws[j].rows, id) {
      assert !Out(ws[j], k);
    }
    SubsetSize(ahead, QueuedBelow(ws[j].rows, id));
  }

  /** f says how the rows that ran ended. */
  ghost predicate EndsAs(t: Table, f: RowId -> Status) {
    forall id :: id in t && IsTerminal(t[id].status) && Runnable(t, id) ==> f(id) == t[id].status
  }

  lemma {:induction false} RunsAgeFrom(ws: seq<World>, rho: Outcomes, i: nat, j: nat)
    requires IsRun(ws, rho) && i <= j < |ws|
    ensures Older(ws[i].rows, ws[j].rows)
    decreases j
  {
    hide Enabled, Apply, Fresh, Older;
    if i == j {
      SelfOlder(ws[i].rows);
    } else {
      RunsAgeFrom(ws, rho, i, j - 1);
      assert Follows(ws[j - 1], ws[j - 1 + 1], rho);
      var a :| Enabled(ws[j - 1], a, rho) && ws[j] == Apply(ws[j - 1], a, rho);
      StepAges(ws[j - 1], a, rho);
      OlderTransitive(ws[i].rows, ws[j - 1].rows, ws[j].rows);
    }
  }

  /** What the rows of a run finally end as, they have reported in every earlier state. */
  lemma EndsAsBefore(ws: seq<World>, rho: Outcomes, f: RowId -> Status, i: nat)
    requires IsRun(ws, rho) && i < |ws| && EndsAs(ws[|ws| - 1].rows, f)
    ensures RowsOk(ws[i].rows, Only(f))
  {
    hide IsRun, RuleApplies, Runnable, Older, RowsOk;
    var t, last := ws[i].rows, ws[|ws| - 1].rows;
    RunsStayOk(ws, rho, i);
    RunsAgeFrom(ws, rho, i, |ws| - 1);
    forall id | id in t ensures RowOk(t, Only(f), id) {
      OkRow(t, rho, id);
      DecisionsAreStable(t, last, id);
      EndedStays(t, last, id);
    }
    RowsAreOk(t, Only(f));
  }

  lemma EndedStays(t: Table, u: Table, id: RowId)
    requires Older(t, u) && id in t
    ensures id in u && (IsTerminal(t[id].status) ==> u[id].status == t[id].status)
  {
  }

  lemma RowsAreOk(t: Table, rho: Outcomes)
    requires forall id :: id in t ==> RowOk(t, rho, id)
    ensures RowsOk(t, rho)
  {
  }

  /** In every interleaving, the moments at which rows left the queue are a feasible order for the results
      with which its rows ended. */
  lemma RunIsFeasible(ws: seq<World>, rho: Outcomes, f: RowId -> Status)
    requires IsRun(ws, rho) && EndsAs(ws[|ws| - 1].rows, f)
    ensures Feasible(ws[0].rows, f, Left(ws), id => OutAt(ws, |ws|, id))
  {
    hide Follows, Fresh, RuleApplies, Runnable, OutAt, HasRow, Seen, Ahead, Doomed, RowsOk, EndsAs;
    var t, s, num := ws[0].rows, Left(ws), (id: RowId) => OutAt(ws, |ws|, id);
    forall id | id in s
      ensures forall name :: name in t[id].needs ==> HasRow(t, t[id].run, name)
      ensures forall k :: Needs(t, id, k) ==> k in s && num(k) < num(id)
    {
      NeedsLeftEarlier(ws, rho, id);
    }
    forall id | id in s && !Doomed(t, f, s, num, id) ensures |Ahead(t, s, num, id)| < CANDIDATE_BATCH_SIZE {
      NotDoomedWasListed(ws, rho, f, id);
      AheadIsShort(ws, rho, id);
    }
  }

  /** A row that the plan does not doom left the queue by a lease. */
  lemma NotDoomedWasListed(ws: seq<World>, rho: Outcomes, f: RowId -> Status, id: RowId)
    requires IsRun(ws, rho) && EndsAs(ws[|ws| - 1].rows, f) && id in Left(ws)
    requires Grounded(ws[0].rows, Left(ws), k => OutAt(ws, |ws|, k))
    requires !Doomed(ws[0].rows, f, Left(ws), k => OutAt(ws, |ws|, k), id)
    ensures 0 < OutAt(ws, |ws|, id) && id in Seen(ws, OutAt(ws, |ws|, id) - 1)
  {
    hide Follows, Fresh, RuleApplies, Runnable, OutAt, Seen, Doomed, RowsOk, EndsAs, Grounded;
    var m := OutAt(ws, |ws|, id);
    Leaving(ws, rho, id);
    RunsAge(ws, rho, m - 1);
    EndsAsBefore(ws, rho, f, m - 1);
    VerdictIsDoom(ws[0].rows, ws[m - 1].rows, Only(f), f, Left(ws), k => OutAt(ws, |ws|, k), id);
  }

  ghost function Pick(rho: Outcomes, id: RowId): Status {
    if HasReport(rho, id) then
      var s :| s in rho(id) && IsTerminal(s); s
    else Success
  }

  /** What the rows of a table ended as, and for the others anything they may report. */
  ghost function Ends(t: Table, rho: Outcomes): RowId -> Status {
    (id: RowId) =>
      if id in t && IsTerminal(t[id].status) && t[id].status in rho(id) then t[id].status else Pick(rho, id)
  }

  lemma RunEndsAs(ws: seq<World>, rho: Outcomes)
    requires IsRun(ws, rho) && Reportable(ws[0].rows, rho)
    ensures var t := ws[|ws| - 1].rows; EndsAs(t, Ends(t, rho)) && Allows(ws[0].rows, rho, Ends(t, rho))
  {
    hide Follows, Fresh, RuleApplies, Runnable, RowsOk;
    var t := ws[|ws| - 1].rows;
    RunsStayOk(ws, rho, |ws| - 1);
    RunsAge(ws, rho, |ws| - 1);
    forall id | id in t && IsTerminal(t[id].status) && Runnable(t, id) ensures t[id].status in rho(id) {
      OkRow(t, rho, id);
      Serial.RuleExcludesRun(t, id);
    }
  }

  /** In every interleaving, once all rows of a run have ended, the moments at which they left the queue
      number them so that every need comes first. */
  lemma FinishedIsAcyclic(ws: seq<World>, rho: Outcomes, run: RunId)
    requires IsRun(ws, rho) && RunDone(ws[|ws| - 1].rows, run)
    ensures Acyclic(ws[0].rows, run, id => OutAt(ws, |ws|, id)) && NeedsHaveRows(ws[0].rows, run)
  {
    hide Follows, Fresh, HasRow, OutAt;
    var t := ws[0].rows;
    RunsAge(ws, rho, |ws| - 1);
    forall id | id in t && t[id].run == run
      ensures forall name :: name in t[id].needs ==> HasRow(t, run, name)
      ensures forall k :: Needs(t, id, k) ==> OutAt(ws, |ws|, k) < OutAt(ws, |ws|, id)
    {
      assert SamePlan(t[id], ws[|ws| - 1].rows[id]);
      assert Out(ws[|ws| - 1], id);
      NeedsLeftEarlier(ws, rho, id);
    }
  }

  /* ---------- what keeps to it can be done, one call at a time ---------- */

  function PhaseOf(s: Status): (p: Phase)
    ensures PhaseToStatus(p) == Some(s) || s == Leased
  {
    match s
    case Queued => Pending
    case Leased => Unspecified
    case Running => InProgress
    case Success => Succeeded
    case Failure => Failed
    case Skipped => SkippedPhase
    case Cancelled => CancelledPhase
  }

  ghost predicate NoneBusy(t: Table) {
    forall id :: id in t ==> !Busy(t[id])
  }

  ghost predicate AllEnded(t: Table, goal: set<RowId>) {
    forall id :: id in goal ==> id in t && IsTerminal(t[id].status)
  }

  /** A sequence of calls whose leases are new and whose completions report what rho says. */
  ghost predicate Calls(s: State, es: seq<Serial.Event>, ttl: Time, f: RowId -> Status) {
    Serial.FreshLeases(es) && ReportsAs(s, es, ttl, Only(f))
  }

  /** What the rest of the proof needs of the state between calls. */
  lemma CallsKeep(s: State, es: seq<Serial.Event>, ttl: Time, f: RowId -> Status)
    requires Serial.Planned(s) && Calls(s, es, ttl, f)
    ensures var u := Serial.Exec(s, es, ttl);
      Serial.Inv(u, Serial.Drawn(es)) && Older(s.rows, u.rows) && RowsOk(u.rows, Only(f))
  {
    hide Serial.Planned, Serial.Inv, ReportsAs, Follows, Fresh, Older, RowsOk;
    SerialTheorems.RunsKeepInv(s, es, ttl);
    var ws, w := SerialInterleavesAs(s, es, ttl, Only(f));
    RunsStayOk(ws, Only(f), |ws| - 1);
    RunsAge(ws, Only(f), |ws| - 1);
  }

  lemma {:induction false} FirstOpen(t: Table, s: set<RowId>, num: RowId -> nat, id: RowId) returns (m: RowId)
    requires s <= t.Keys && id in s && !IsTerminal(t[id].status)
    ensures m in s && !IsTerminal(t[m].status)
    ensures forall k :: k in s && num(k) < num(m) ==> IsTerminal(t[k].status)
    decreases num(id)
  {
    if k :| k in s && num(k) < num(id) && !IsTerminal(t[k].status) {
      m := FirstOpen(t, s, num, k);
    } else {
      m := id;
    }
  }

  /** The first row of s still open can be leased, and is among the first ten. */
  lemma FirstOpenIsServed(plan: Table, t: Table, f: RowId -> Status, s: set<RowId>, num: RowId -> nat, m: RowId)
    requires Older(plan, t) && RowsOk(t, Only(f)) && Serial.Settled(t) && NoneBusy(t) && Feasible(plan, f, s, num)
    requires m in s && !IsTerminal(t[m].status) && forall k :: k in s && num(k) < num(m) ==> IsTerminal(t[k].status)
    ensures Leasable(t, m) && InBatch(t, CANDIDATE_BATCH_SIZE, m)
  {
    hide RowsOk, Older, RuleApplies, Runnable, Serial.Settled, Doomed, HasRow;
    KeptPlan(plan, t);
    FirstOpenIsDecided(plan, t, f, s, num, m);
    SettledRow(t, m);
    VerdictIsDoom(plan, t, Only(f), f, s, num, m);
    assert QueuedBelow(t, m) <= Ahead(plan, s, num, m);
    SubsetSize(QueuedBelow(t, m), Ahead(plan, s, num, m));
  }

  lemma KeptPlan(a: Table, b: Table)
    requires Older(a, b)
    ensures a.Keys == b.Keys && forall id :: id in a ==> SamePlan(a[id], b[id])
  {
  }

  lemma SettledRow(t: Table, id: RowId)
    requires Serial.Settled(t)
    ensures !SkipByRule(t, id)
  {
  }

  lemma FirstOpenIsDecided(plan: Table, t: Table, f: RowId -> Status, s: set<RowId>, num: RowId -> nat, m: RowId)
    requires Older(plan, t) && Feasible(plan, f, s, num) && m in s
    requires forall k :: k in s && num(k) < num(m) ==> k in t && IsTerminal(t[k].status)
    ensures m in t && (RuleApplies(t, m) || Runnable(t, m))
  {
    hide Doomed, Ahead;
    assert SamePlan(plan[m], t[m]);
    forall k | Needs(t, m, k) ensures IsTerminal(t[k].status) {
      assert SamePlan(plan[k], t[k]) && Needs(plan, m, k);
    }
    forall name | name in t[m].needs ensures HasRow(t, t[m].run, name) {
      assert HasRow(plan, plan[m].run, name);
      var k :| k in plan && plan[k].run == plan[m].run && plan[k].jobId == name;
      assert SamePlan(plan[k], t[k]);
    }
    assert NeedsTerminal(t, m);
  }

  ghost function Waiting(t: Table): set<RowId> {
    set id | id in t && t[id].status == Queued
  }

  /** One acquire and the completion of what it leased. */
  lemma ServeOne(s: State, es: seq<Serial.Event>, ttl: Time, f: RowId -> Status) returns (more: seq<Serial.Event>)
    requires Serial.Planned(s) && Calls(s, es, ttl, f) && forall id :: id in s.rows ==> IsTerminal(f(id))
    requires var t := Serial.Exec(s, es, ttl).rows; NoneBusy(t) && exists id :: Picked(t, id)
    ensures Calls(s, more, ttl, f)
    ensures var t, u := Serial.Exec(s, es, ttl).rows, Serial.Exec(s, more, ttl).rows;
      NoneBusy(u) && Waiting(u) < Waiting(t)
  {
    hide Serial.Planned, Serial.Inv, ReportsAs, Older, RowsOk, Picked, Serial.Next, NoneBusy, Waiting, Serial.Ends,
         Serial.FreshLeases, Serial.Drawn;
    var s0 := Serial.Exec(s, es, ttl);
    CallsKeep(s, es, ttl, f);
    var l := Unused(Serial.Drawn(es));
    var id, s1 := LeaseOne(s0, Serial.Drawn(es), ttl, l);
    KeptPlan(s.rows, s0.rows);
    var e1, e2 := Serial.Acquire(0, l, 0, EPOCH), Serial.Complete(l, PhaseOf(f(id)), map[], 0, EPOCH);
    EndOne(s0, s1, Serial.Drawn(es) + {l}, ttl, id, l, f(id));
    OneMoreCall(s, es, ttl, f, e1);
    OneMoreCall(s, es + [e1], ttl, f, e2);
    more := es + [e1] + [e2];
  }

  lemma OneMoreCall(s: State, es: seq<Serial.Event>, ttl: Time, f: RowId -> Status, e: Serial.Event)
    requires Calls(s, es, ttl, f) && (e.Acquire? ==> e.lease !in Serial.Drawn(es))
    requires e.Complete? ==>
      forall id :: Serial.Ends(Serial.Exec(s, es, ttl), e, id) ==> MayReport(e.phase, {f(id)})
    ensures Calls(s, es + [e], ttl, f) && Serial.Exec(s, es + [e], ttl) == Serial.Next(Serial.Exec(s, es, ttl), e, ttl)
  {
    hide Serial.Next, Complete, Serial.Ended, Finalize;
    assert (es + [e])[..|es + [e]| - 1] == es;
  }

  lemma LeaseOne(s: State, drawn: set<LeaseId>, ttl: Time, l: LeaseId) returns (id: RowId, u: State)
    requires Serial.Inv(s, drawn) && l !in drawn && exists id :: Picked(s.rows, id)
    ensures u == Serial.Next(s, Serial.Acquire(0, l, 0, EPOCH), ttl) && id in s.rows && s.rows[id].status == Queued
    ensures u == s.(rows := Lease(s.rows, id, l, 0, ttl, 0)) && Serial.Inv(u, drawn + {l})
  {
    hide Serial.Shape, Serial.Gated, Serial.Settled, Serial.RunsAgree, UniqueLeases, Picked, AcquireRows, Lease,
         SkippedOnTheWay;
    var e := Serial.Acquire(0, l, 0, EPOCH);
    u := Serial.Next(s, e, ttl);
    var got := Serial.AcquireWhenSettled(s.rows, 0, l, ttl, 0, EPOCH);
    id := got.value;
    Serial.PickedIsLeasable(s.rows, id);
    Serial.NextKeepsInv(s, e, ttl, drawn);
  }

  lemma EndOne(s: State, u: State, drawn: set<LeaseId>, ttl: Time, id: RowId, l: LeaseId, result: Status)
    requires id in s.rows && s.rows[id].status == Queued && NoneBusy(s.rows) && IsTerminal(result)
    requires u == s.(rows := Lease(s.rows, id, l, 0, ttl, 0)) && Serial.Inv(u, drawn)
    ensures var e := Serial.Complete(l, PhaseOf(result), map[], 0, EPOCH);
      && (forall k :: Serial.Ends(u, e, k) ==> k == id)
      && NoneBusy(Serial.Next(u, e, ttl).rows) && Waiting(Serial.Next(u, e, ttl).rows) < Waiting(s.rows)
  {
    hide Serial.Shape, Serial.Gated, Serial.Settled, Serial.RunsAgree, Complete, Serial.Ended, Finalize,
         Waiting, NoneBusy;
    var e := Serial.Complete(l, PhaseOf(result), map[], 0, EPOCH);
    assert Holds(u.rows, id, l);
    Serial.AcceptedEnds(u, e, id);
    EndedWaits(s.rows, u.rows, id, l, ttl, result);
    forall k | Serial.Ends(u, e, k) ensures k == id { assert Holds(u.rows, k, l); }
  }

  lemma EndedWaits(t: Table, u: Table, id: RowId, l: LeaseId, d: Time, result: Status)
    requires id in t && t[id].status == Queued && NoneBusy(t) && IsTerminal(result) && u == Lease(t, id, l, 0, d, 0)
    ensures var v := Serial.Ended(u, id, result, 0, EPOCH); NoneBusy(v) && Waiting(v) < Waiting(t)
  {
    hide Closure;
    assert id in Waiting(t) && id !in Waiting(Serial.Ended(u, id, result, 0, EPOCH));
  }

  lemma {:induction false} EndAll(s: State, es: seq<Serial.Event>, ttl: Time, f: RowId -> Status, rows: set<RowId>,
                                  num: RowId -> nat)
    returns (more: seq<Serial.Event>)
    requires Serial.Planned(s) && Calls(s, es, ttl, f) && forall id :: id in s.rows ==> IsTerminal(f(id))
    requires Feasible(s.rows, f, rows, num) && NoneBusy(Serial.Exec(s, es, ttl).rows)
    ensures Calls(s, more, ttl, f) && AllEnded(Serial.Exec(s, more, ttl).rows, rows)
    decreases Waiting(Serial.Exec(s, es, ttl).rows)
  {
    hide Serial.Planned, Calls, Older, RowsOk, Picked, NoneBusy, Waiting, Serial.Exec, Grounded, Leasable, InBatch,
         Serial.Drawn, Serial.Shape, Serial.Gated, Serial.Settled, Serial.RunsAgree, UniqueLeases;
    var t := Serial.Exec(s, es, ttl).rows;
    CallsKeep(s, es, ttl, f);
    KeptPlan(s.rows, t);
    if id :| id in rows && !IsTerminal(t[id].status) {
      var m := FirstOpen(t, rows, num, id);
      FirstOpenIsServed(s.rows, t, f, rows, num, m);
      SerialTheorems.AcquireServesIff(t);
      more := ServeOne(s, es, ttl, f);
      more := EndAll(s, more, ttl, f, rows, num);
    } else {
      more := es;
    }
  }

  /* ---------- the exact condition ---------- */

  /** Some interleaving from here ends all rows of the goal. */
  ghost predicate CanEnd(start: World, rho: Outcomes, goal: set<RowId>) {
    exists ws: seq<World> :: IsRun(ws, rho) && ws[0] == start && AllEnded(ws[|ws| - 1].rows, goal)
  }

  /** Some sequence of whole calls does. */
  ghost predicate CanEndSerially(s: State, ttl: Time, rho: Outcomes, goal: set<RowId>) {
    exists es :: Serial.FreshLeases(es) && ReportsAs(s, es, ttl, rho) && AllEnded(Serial.Exec(s, es, ttl).rows, goal)
  }

  /** For every plan, every set of rows, all the results the runners may report and every lease time: some
      interleaving ends those rows if and only if a feasible order of rows that holds them exists; and then
      whole calls, one after the other, end them too. */
  lemma EndsIff(s: State, ttl: Time, rho: Outcomes, goal: set<RowId>)
    requires Serial.Planned(s) && Reportable(s.rows, rho)
    ensures CanEnd(Start(s), rho, goal) <==> Admissible(s.rows, rho, goal)
    ensures CanEndSerially(s, ttl, rho, goal) <==> Admissible(s.rows, rho, goal)
  {
    hide Serial.Planned, ReportsAs, Serial.FreshLeases, Follows, Fresh, Feasible, Serial.Exec, Reportable, Allows;
    if CanEnd(Start(s), rho, goal) {
      var ws: seq<World> :| IsRun(ws, rho) && ws[0] == Start(s) && AllEnded(ws[|ws| - 1].rows, goal);
      RunEndsAs(ws, rho);
      RunIsFeasible(ws, rho, Ends(ws[|ws| - 1].rows, rho));
      EndedLeft(ws, rho, goal);
    }
    if Admissible(s.rows, rho, goal) {
      var f, rows, num :| Allows(s.rows, rho, f) && Feasible(s.rows, f, rows, num) && goal <= rows;
      AdmissibleEnds(s, ttl, rho, goal, f, rows, num);
    }
    if CanEndSerially(s, ttl, rho, goal) {
      var es :| Serial.FreshLeases(es) && ReportsAs(s, es, ttl, rho) && AllEnded(Serial.Exec(s, es, ttl).rows, goal);
      SerialCanEnd(s, es, ttl, rho, goal);
    }
  }

  lemma AdmissibleEnds(s: State, ttl: Time, rho: Outcomes, goal: set<RowId>, f: RowId -> Status, rows: set<RowId>,
                       num: RowId -> nat)
    requires Serial.Planned(s) && Allows(s.rows, rho, f) && Feasible(s.rows, f, rows, num) && goal <= rows
    ensures CanEndSerially(s, ttl, rho, goal)
  {
    hide Serial.Planned, ReportsAs, Serial.FreshLeases, Feasible, Serial.Exec;
    NoCalls(s, ttl, f);
    var es := EndAll(s, [], ttl, f, rows, num);
    MoreReports(s, es, ttl, f, rho);
  }

  /** What may be reported under the choice may be reported. */
  lemma {:induction false} MoreReports(s: State, es: seq<Serial.Event>, ttl: Time, f: RowId -> Status, rho: Outcomes)
    requires Serial.Planned(s) && Calls(s, es, ttl, f) && Allows(s.rows, rho, f)
    ensures ReportsAs(s, es, ttl, rho)
    decreases |es|
  {
    hide Serial.Planned, Serial.Inv, RowsOk, Serial.Ends, Serial.Exec, Serial.Drawn, Allows, Older, MayReport;
    if es != [] {
      var rest, e := es[..|es| - 1], es[|es| - 1];
      MoreReports(s, rest, ttl, f, rho);
      CallsKeep(s, rest, ttl, f);
      var u := Serial.Exec(s, rest, ttl);
      KeptPlan(s.rows, u.rows);
      forall id | Serial.Ends(u, e, id) ensures e.Complete? && MayReport(e.phase, rho(id)) {
        EndsRow(u, e, id);
        MoreAllowed(s.rows, f, rho, e.phase, id);
      }
    }
  }

  lemma MoreAllowed(plan: Table, f: RowId -> Status, rho: Outcomes, phase: Phase, id: RowId)
    requires Allows(plan, rho, f) && id in plan && MayReport(phase, Only(f)(id))
    ensures MayReport(phase, rho(id))
  {
  }

  lemma EndsRow(s: State, e: Serial.Event, id: RowId)
    requires Serial.Ends(s, e, id)
    ensures e.Complete? && id in s.rows
  {
  }

  lemma EndedLeft(ws: seq<World>, rho: Outcomes, goal: set<RowId>)
    requires IsRun(ws, rho) && AllEnded(ws[|ws| - 1].rows, goal)
    ensures goal <= Left(ws)
  {
    hide Follows, Fresh;
    RunsAge(ws, rho, |ws| - 1);
    forall id | id in goal ensures id in Left(ws) {
      assert Out(ws[|ws| - 1], id);
    }
  }

  lemma NoCalls(s: State, ttl: Time, f: RowId -> Status)
    requires Serial.Planned(s)
    ensures Calls(s, [], ttl, f) && NoneBusy(Serial.Exec(s, [], ttl).rows)
  {
  }

  lemma SerialCanEnd(s: State, es: seq<Serial.Event>, ttl: Time, rho: Outcomes, goal: set<RowId>)
    requires Serial.Planned(s) && Serial.FreshLeases(es) && ReportsAs(s, es, ttl, rho)
    requires AllEnded(Serial.Exec(s, es, ttl).rows, goal)
    ensures CanEnd(Start(s), rho, goal)
  {
    hide Serial.Planned, ReportsAs, Serial.FreshLeases, Follows, Fresh, Serial.Exec, AllEnded;
    var ws, w := SerialInterleavesAs(s, es, ttl, rho);
  }

  ghost function RowsOf(t: Table, run: RunId): set<RowId> {
    set id | id in t && t[id].run == run
  }

  ghost predicate CanFinish(start: World, rho: Outcomes, run: RunId) {
    exists ws: seq<World> :: IsRun(ws, rho) && ws[0] == start && RunDone(ws[|ws| - 1].rows, run)
  }

  /** A planned run can be finished if and only if its rows lie in a feasible order. */
  lemma FinishesIff(s: State, rho: Outcomes, run: RunId)
    requires Serial.Planned(s) && Reportable(s.rows, rho)
    ensures CanFinish(Start(s), rho, run) <==> Admissible(s.rows, rho, RowsOf(s.rows, run))
  {
    hide Serial.Planned, Reportable, Follows, Fresh, Admissible, RunDone, AllEnded;
    EndsIff(s, 0, rho, RowsOf(s.rows, run));
    forall ws: seq<World> | IsRun(ws, rho) && ws[0] == Start(s)
      ensures RunDone(ws[|ws| - 1].rows, run) <==> AllEnded(ws[|ws| - 1].rows, RowsOf(s.rows, run))
    {
      RunsAge(ws, rho, |ws| - 1);
      DoneIsEnded(s.rows, ws[|ws| - 1].rows, run);
    }
  }

  lemma DoneIsEnded(plan: Table, t: Table, run: RunId)
    requires Older(plan, t)
    ensures RunDone(t, run) <==> AllEnded(t, RowsOf(plan, run))
  {
    assert forall id :: id in plan ==> SamePlan(plan[id], t[id]);
  }

  ghost predicate WellFounded(plan: Table, run: RunId) {
    NeedsHaveRows(plan, run) && exists depth: RowId -> nat :: Acyclic(plan, run, depth)
  }

  /** Where the limit cannot bite, with at most ten rows in the table, only the needs decide. */
  lemma SmallPlanFinishesIff(s: State, rho: Outcomes, run: RunId)
    requires Serial.Planned(s) && |s.rows| <= CANDIDATE_BATCH_SIZE && Reportable(s.rows, rho)
    ensures CanFinish(Start(s), rho, run) <==> WellFounded(s.rows, run)
  {
    hide Serial.Planned, Follows, Fresh, Acyclic, NeedsHaveRows, Feasible, Reportable, Allows;
    FinishesIff(s, rho, run);
    if CanFinish(Start(s), rho, run) {
      var ws: seq<World> :| IsRun(ws, rho) && ws[0] == Start(s) && RunDone(ws[|ws| - 1].rows, run);
      FinishedIsAcyclic(ws, rho, run);
    }
    if WellFounded(s.rows, run) {
      var depth: RowId -> nat :| Acyclic(s.rows, run, depth);
      var f := Ends(map[], rho);
      PickAllows(s.rows, rho);
      SmallIsFeasible(s.rows, f, run, depth);
    }
  }

  lemma PickAllows(plan: Table, rho: Outcomes)
    requires Reportable(plan, rho)
    ensures Allows(plan, rho, Ends(map[], rho))
  {
  }

  lemma SmallIsFeasible(plan: Table, f: RowId -> Status, run: RunId, depth: RowId -> nat)
    requires Acyclic(plan, run, depth) && NeedsHaveRows(plan, run) && |plan| <= CANDIDATE_BATCH_SIZE
    ensures Feasible(plan, f, RowsOf(plan, run), depth)
  {
    var s := RowsOf(plan, run);
    forall id | id in s ensures |Ahead(plan, s, depth, id)| < CANDIDATE_BATCH_SIZE {
      assert |plan.Keys| == |plan| && |plan.Keys - {id}| < |plan|;
      SubsetSize(Ahead(plan, s, depth, id), plan.Keys - {id});
    }
  }

  /** With more rows it does: a plan with sound needs that no interleaving finishes, whatever is reported. */
  lemma TenWaitingRowsNeverFinish(rho: Outcomes) returns (s: State)
    requires forall id :: HasReport(rho, id)
    ensures Serial.Planned(s) && WellFounded(s.rows, 0) && !CanFinish(Start(s), rho, 0)
  {
    hide Serial.Exec, Acyclic, NeedsHaveRows, Leasable, Serial.Planned, CanFinish, Admissible, RunDone, ReportsAs;
    var depth;
    s, depth := SerialTheorems.TenWaitingRowsHideOne();
    AllReportable(s.rows, rho);
    FinishesIff(s, rho, 0);
    EndsIff(s, 0, rho, RowsOf(s.rows, 0));
    LeasableIsRow(s.rows, 10);
  }

  lemma AllReportable(plan: Table, rho: Outcomes)
    requires forall id :: HasReport(rho, id)
    ensures Reportable(plan, rho)
  {
  }

  lemma LeasableIsRow(t: Table, id: RowId)
    requires Leasable(t, id)
    ensures id in t && t[id].status == Queued
  {
  }
}
