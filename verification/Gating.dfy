/** Needs gating (internal/dispatch/queue.go:58-208): when a row may run, when it must be skipped,
    and the set of rows one gateRun call skips. */
module Gating {
  import opened Jobs

  /* ---------- the rule, on a table ---------- */

  /** k is one of the rows (matrix cells) that row id needs. */
  ghost predicate Needs(t: Table, id: RowId, k: RowId) {
    id in t && k in t && t[k].run == t[id].run && t[k].jobId in t[id].needs
  }

  ghost predicate HasRow(t: Table, run: RunId, name: string) {
    exists k :: k in t && t[k].run == run && t[k].jobId == name
  }

  ghost predicate NeedsTerminal(t: Table, id: RowId)
    requires id in t
  {
    && (forall name :: name in t[id].needs ==> HasRow(t, t[id].run, name))
    && (forall k :: Needs(t, id, k) ==> IsTerminal(t[k].status))
  }

  ghost predicate Blocking(t: Table, id: RowId, k: RowId) {
    Needs(t, id, k) && IsTerminal(t[k].status) && t[k].status != Success
  }

  ghost predicate NeedsBlocked(t: Table, id: RowId) {
    exists k :: Blocking(t, id, k)
  }

  /** The default rule decides that the row must not run. */
  ghost predicate RuleApplies(t: Table, id: RowId)
    requires id in t
  {
    NeedsTerminal(t, id) && NeedsBlocked(t, id) && HasDefaultIfExpr(t[id])
  }

  ghost predicate SkipByRule(t: Table, id: RowId) {
    id in t && t[id].status == Queued && RuleApplies(t, id)
  }

  /** The row may be handed to a runner. */
  ghost predicate Runnable(t: Table, id: RowId)
    requires id in t
  {
    NeedsTerminal(t, id) && (NeedsBlocked(t, id) ==> !HasDefaultIfExpr(t[id]))
  }

  ghost predicate Leasable(t: Table, id: RowId) {
    id in t && t[id].status == Queued && Runnable(t, id)
  }

  /** Decisions survive: whatever an old table said about needs still holds of any later table. */
  lemma DecisionsAreStable(a: Table, b: Table, id: RowId)
    requires Older(a, b) && id in a
    ensures NeedsTerminal(a, id) ==> NeedsTerminal(b, id)
    ensures RuleApplies(a, id) ==> RuleApplies(b, id)
    ensures Runnable(a, id) ==> Runnable(b, id)
  {
    assert SamePlan(a[id], b[id]);
    assert forall k :: Needs(a, id, k) <==> Needs(b, id, k) by {
      forall k | k in a ensures SamePlan(a[k], b[k]) {}
    }
    if NeedsTerminal(a, id) {
      forall name | name in b[id].needs ensures HasRow(b, b[id].run, name) {
        assert HasRow(a, a[id].run, name);
        var k :| k in a && a[k].run == a[id].run && a[k].jobId == name;
        assert SamePlan(a[k], b[k]);
      }
      assert NeedsTerminal(b, id);
      assert forall k :: Blocking(a, id, k) <==> Blocking(b, id, k);
    }
  }

  /* ---------- the rows one gateRun call skips ---------- */

  /** Every queued row of s marked skipped.  clock(id) is the reading taken when row id is skipped. */
  function SkipAll(t: Table, s: set<RowId>, clock: RowId -> Time): Table {
    map id | id in t ::
      if id in s && t[id].status == Queued
      then t[id].(status := Skipped, result := Some(Skipped), finishedAt := Some(clock(id))) else t[id]
  }

  const EPOCH: RowId -> Time := (_: RowId) => 0

  /** s is closed under the rule: with s skipped, the rule asks for no further row of the run. */
  ghost predicate Closed(t: Table, run: RunId, s: set<RowId>) {
    forall id {:trigger RuleApplies(SkipAll(t, s, EPOCH), id)} |
      id in t && t[id].run == run && t[id].status == Queued ::
      RuleApplies(SkipAll(t, s, EPOCH), id) ==> id in s
  }

  /** The least fixpoint: the rows that lie in every closed set. */
  ghost function Closure(t: Table, run: RunId): set<RowId> {
    set id | id in t && t[id].run == run && t[id].status == Queued
             && (forall s: set<RowId> {:trigger Closed(t, run, s)} :: Closed(t, run, s) ==> id in s)
  }

  ghost function Gate(t: Table, run: RunId, clock: RowId -> Time): Table {
    SkipAll(t, Closure(t, run), clock)
  }

  /** Skipping more rows, at whatever times, only ages the table. */
  lemma SkipAllMonotone(t: Table, s: set<RowId>, s': set<RowId>, c: RowId -> Time, c': RowId -> Time)
    requires forall id :: id in s && id in t && t[id].status == Queued ==> id in s'
    ensures Older(SkipAll(t, s, c), SkipAll(t, s', c'))
  {
  }

  lemma SkipAllAges(t: Table, s: set<RowId>, c: RowId -> Time)
    ensures Older(t, SkipAll(t, s, c))
  {
  }

  /** A row the rule asks for after skipping part of the closure is in the closure. */
  lemma ClosureAbsorbs(t: Table, run: RunId, part: set<RowId>, c: RowId -> Time, id: RowId)
    requires part <= Closure(t, run)
    requires id in t && t[id].run == run && t[id].status == Queued
    requires RuleApplies(SkipAll(t, part, c), id)
    ensures id in Closure(t, run)
  {
    forall s: set<RowId> | Closed(t, run, s) ensures id in s {
      SkipAllMonotone(t, part, s, c, EPOCH);
      DecisionsAreStable(SkipAll(t, part, c), SkipAll(t, s, EPOCH), id);
    }
  }

  lemma ClosureIsClosed(t: Table, run: RunId)
    ensures Closed(t, run, Closure(t, run))
  {
    var c := Closure(t, run);
    forall id | id in t && t[id].run == run && t[id].status == Queued && RuleApplies(SkipAll(t, c, EPOCH), id)
      ensures id in c
    {
      ClosureAbsorbs(t, run, c, EPOCH, id);
    }
  }

  /** The rows of the run the rule asks for right now. */
  ghost function Asked(t: Table, run: RunId): set<RowId> {
    set id | id in t && t[id].run == run && SkipByRule(t, id)
  }

  lemma AskedRows(t: Table, run: RunId)
    requires Keyed(t)
    ensures forall id :: id in Asked(t, run) ==> id in t && t[id].id == id && t[id].run == run && t[id].status == Queued
  {
  }

  /** One more scan stays within the closure. */
  lemma ScanStaysInClosure(t: Table, run: RunId, done: set<RowId>, clock: RowId -> Time)
    requires done <= Closure(t, run)
    ensures Asked(SkipAll(t, done, clock), run) <= Closure(t, run)
    ensures Asked(SkipAll(t, done, clock), run) !! done
  {
    forall id | id in Asked(SkipAll(t, done, clock), run) ensures id in Closure(t, run) && id !in done {
      ClosureAbsorbs(t, run, done, clock, id);
    }
  }

  lemma SkipAllTwice(t: Table, a: set<RowId>, b: set<RowId>, clock: RowId -> Time)
    ensures SkipAll(SkipAll(t, a, clock), b, clock) == SkipAll(t, a + b, clock)
  {
  }

  lemma SkipOneMore(t: Table, done: set<RowId>, clock: RowId -> Time, id: RowId)
    requires id in t && t[id].status == Queued && id !in done
    ensures CanTransition(SkipAll(t, done, clock), id, Queued, Skipped)
    ensures SkipJob(SkipAll(t, done, clock), id, clock(id)) == SkipAll(t, done + {id}, clock)
  {
  }

  /** Each skipped row is justified by the final table: the closure is a fixpoint, not merely closed. */
  lemma ClosureIsJustified(t: Table, run: RunId, clock: RowId -> Time, id: RowId)
    requires id in Closure(t, run)
    ensures RuleApplies(Gate(t, run, clock), id)
  {
    var c := Closure(t, run);
    if !RuleApplies(SkipAll(t, c, EPOCH), id) {
      var rest := c - {id};
      forall k | k in t && t[k].run == run && t[k].status == Queued && RuleApplies(SkipAll(t, rest, EPOCH), k)
        ensures k in rest
      {
        ClosureAbsorbs(t, run, rest, EPOCH, k);
        SkipAllMonotone(t, rest, c, EPOCH, EPOCH);
        DecisionsAreStable(SkipAll(t, rest, EPOCH), SkipAll(t, c, EPOCH), k);
      }
      assert Closed(t, run, rest);
      assert false;
    }
    SkipAllMonotone(t, c, c, EPOCH, clock);
    DecisionsAreStable(SkipAll(t, c, EPOCH), SkipAll(t, c, clock), id);
  }

  /** After gating, no row of the run is left for the rule, and gating again changes nothing. */
  lemma GateSettles(t: Table, run: RunId, clock: RowId -> Time, again: RowId -> Time)
    ensures forall id :: id in t && t[id].run == run ==> !SkipByRule(Gate(t, run, clock), id)
    ensures Gate(Gate(t, run, clock), run, again) == Gate(t, run, clock)
  {
    var c := Closure(t, run);
    var u := Gate(t, run, clock);
    ClosureIsClosed(t, run);
    forall id | id in t && t[id].run == run ensures !SkipByRule(u, id) {
      if SkipByRule(u, id) {
        SkipAllMonotone(t, c, c, clock, EPOCH);
        DecisionsAreStable(u, SkipAll(t, c, EPOCH), id);
        assert false;
      }
    }
    assert SkipAll(u, {}, EPOCH) == u;
    assert Closed(u, run, {});
    assert Closure(u, run) == {};
  }

  /** A set of skipped rows that is part of the closure and leaves nothing to ask for is the closure. */
  lemma SettledIsClosure(t: Table, run: RunId, s: set<RowId>, clock: RowId -> Time)
    requires s <= Closure(t, run) && Asked(SkipAll(t, s, clock), run) == {}
    ensures s == Closure(t, run)
  {
    forall id | id in t && t[id].run == run && t[id].status == Queued && RuleApplies(SkipAll(t, s, EPOCH), id)
      ensures id in s
    {
      SkipAllMonotone(t, s, s, EPOCH, clock);
      DecisionsAreStable(SkipAll(t, s, EPOCH), SkipAll(t, s, clock), id);
      assert id !in Asked(SkipAll(t, s, clock), run);
    }
    assert Closed(t, run, s);
  }

  /* ---------- progress ---------- */

  /** A numbering of rows that every need strictly lowers: the needs graph of the run is acyclic. */
  ghost predicate Acyclic(t: Table, run: RunId, depth: RowId -> nat) {
    forall id, k :: Needs(t, id, k) && t[id].run == run ==> depth(k) < depth(id)
  }

  ghost predicate NeedsHaveRows(t: Table, run: RunId) {
    forall id, name :: id in t && t[id].run == run && name in t[id].needs ==> HasRow(t, run, name)
  }

  ghost predicate Busy(j: Job) {
    j.status == Leased || j.status == Running
  }

  ghost predicate RunDone(t: Table, run: RunId) {
    forall id :: id in t && t[id].run == run ==> IsTerminal(t[id].status)
  }

  lemma ShallowestOpenRow(t: Table, run: RunId, depth: RowId -> nat, id: RowId) returns (m: RowId)
    requires id in t && t[id].run == run && !IsTerminal(t[id].status)
    ensures m in t && t[m].run == run && !IsTerminal(t[m].status)
    ensures forall k :: k in t && t[k].run == run && depth(k) < depth(m) ==> IsTerminal(t[k].status)
    decreases depth(id)
  {
    if k :| k in t && t[k].run == run && depth(k) < depth(id) && !IsTerminal(t[k].status) {
      m := ShallowestOpenRow(t, run, depth, k);
    } else {
      m := id;
    }
  }

  lemma PlanIsKept(t: Table, u: Table, run: RunId, depth: RowId -> nat)
    requires Older(t, u) && Acyclic(t, run, depth) && NeedsHaveRows(t, run)
    ensures Acyclic(u, run, depth) && NeedsHaveRows(u, run)
  {
    forall id, k | Needs(u, id, k) && u[id].run == run ensures depth(k) < depth(id) {
      assert SamePlan(t[id], u[id]) && SamePlan(t[k], u[k]);
      assert Needs(t, id, k);
    }
    forall id, name | id in u && u[id].run == run && name in u[id].needs ensures HasRow(u, run, name) {
      assert SamePlan(t[id], u[id]);
      assert HasRow(t, run, name);
      var k :| k in t && t[k].run == run && t[k].jobId == name;
      assert SamePlan(t[k], u[k]);
    }
  }

  lemma SettledRunProgresses(u: Table, run: RunId, depth: RowId -> nat)
    requires Acyclic(u, run, depth) && NeedsHaveRows(u, run)
    requires forall id :: id in u && u[id].run == run ==> !SkipByRule(u, id)
    ensures RunDone(u, run) || exists id :: id in u && u[id].run == run && (Busy(u[id]) || Leasable(u, id))
  {
    if id :| id in u && u[id].run == run && !IsTerminal(u[id].status) {
      var m := ShallowestOpenRow(u, run, depth, id);
      assert NeedsTerminal(u, m);
      assert Busy(u[m]) || Leasable(u, m);
    }
  }

  /** Deadlock freedom: a gated run is finished, or a runner holds one of its rows, or one can be leased. */
  lemma NoDeadlock(t: Table, run: RunId, clock: RowId -> Time, depth: RowId -> nat)
    requires Acyclic(t, run, depth) && NeedsHaveRows(t, run)
    ensures var u := Gate(t, run, clock);
            || RunDone(u, run)
            || exists id :: id in u && u[id].run == run && (Busy(u[id]) || Leasable(u, id))
  {
    GateSettles(t, run, clock, clock);
    SkipAllAges(t, Closure(t, run), clock);
    PlanIsKept(t, Gate(t, run, clock), run, depth);
    SettledRunProgresses(Gate(t, run, clock), run, depth);
  }

  /** Without the premise it fails: a row that needs itself is neither skipped, leasable nor held. */
  lemma CyclicRunIsStuck()
    ensures exists t: Table, run: RunId ::
      && NeedsHaveRows(t, run) && !RunDone(Gate(t, run, EPOCH), run)
      && forall id :: id in t ==> !Busy(Gate(t, run, EPOCH)[id]) && !Leasable(Gate(t, run, EPOCH), id)
  {
    var j := Job(0, 0, "a", ["a"], None, Queued, None, None, None, None, None, None);
    var t: Table := map[0 := j];
    assert HasRow(t, 0, "a") by { assert t[0].jobId == "a"; }
    assert SkipAll(t, {}, EPOCH) == t;
    assert Needs(t, 0, 0) && !IsTerminal(t[0].status);
    assert Closed(t, 0, {});
    assert Closure(t, 0) == {};
    assert Gate(t, 0, EPOCH) == t;
  }
}
