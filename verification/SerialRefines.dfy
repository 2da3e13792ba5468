/** The two grains are one system: a call whose statements run without interruption leaves the table
    that the one-call model gives it, so every serial run is one of the interleaved runs. */
module SerialRefines {
  import opened Jobs
  import opened Gating
  import opened JobStore
  import opened Handlers
  import opened Interleaving
  import Serial
  import SerialTheorems
  import Service
  import InterleavingTheorems

  /* ---------- gateRun alone ---------- */

  /** The ids in some order. */
  lemma {:induction false} Enumerate(s: set<RowId>) returns (ids: seq<RowId>)
    ensures forall id :: id in ids <==> id in s
    ensures forall i, j :: 0 <= i < j < |ids| ==> ids[i] != ids[j]
  {
    if s == {} {
      ids := [];
    } else {
      var k :| k in s;
      var rest := Enumerate(s - {k});
      ids := [k] + rest;
    }
  }

  /** Only the call of p changed. */
  ghost predicate OthersStay(w: World, u: World, p: Pid) {
    forall q :: q != p ==> (q in u.calls <==> q in w.calls) && (q in w.calls ==> u.calls[q] == w.calls[q])
  }

  /** Call p is the given one, and the rest of the world is w's apart from its rows. */
  ghost predicate At(u: World, w: World, p: Pid, c: Call, t: Table) {
    u == w.(rows := t, calls := u.calls) && p in u.calls && u.calls[p] == c && OthersStay(w, u, p)
  }

  lemma BlockedHasNeeds(t: Table, id: RowId)
    requires id in t && RuleApplies(t, id)
    ensures t[id].needs != []
  {
  }

  /** One row of a scan: skipped and stamped if the rule asked for it in the snapshot, else passed over. */
  lemma ScanRow(ws: seq<World>, start: World, rho: Outcomes, w: World, p: Pid, run: RunId, snap: Table,
                todo: seq<RowId>, done: set<RowId>, clock: RowId -> Time)
                    returns (more: seq<World>, u: World, done': set<RowId>)
    requires Reaches(ws, start, rho, w) && todo != [] && todo[0] in snap && snap[todo[0]].run == run && todo[0] !in done
    requires At(w, w, p, Scanning(run, snap, todo, done != {}), SkipAll(snap, done, clock))
    ensures done' == if todo[0] in Asked(snap, run) then done + {todo[0]} else done
    ensures Reaches(more, start, rho, u)
    ensures At(u, w, p, Scanning(run, snap, todo[1..], done' != {}), SkipAll(snap, done', clock))
  {
    hide Reaches, Asked, SkipAll, DecidesSkip, SkipJob;
    var id := todo[0];
    ScanDecides(w, p, run, snap, todo, clock, done);
    if id in Asked(snap, run) {
      AskedIsQueued(snap, run, id);
      SkipOneMore(snap, done, clock, id);
      done' := done + {id};
      more, u := Skips(ws, start, rho, w, p, clock(id));
    } else {
      done' := done;
      more, u := Passes(ws, start, rho, w, p);
    }
  }

  lemma AskedIsQueued(t: Table, run: RunId, id: RowId)
    requires id in Asked(t, run)
    ensures id in t && t[id].status == Queued
  {
  }

  /** A scan decides to skip exactly the rows the rule asked for in its snapshot. */
  lemma ScanDecides(w: World, p: Pid, run: RunId, snap: Table, todo: seq<RowId>, clock: RowId -> Time, done: set<RowId>)
    requires p in w.calls && w.calls[p].Scanning? && w.calls[p].snap == snap && w.calls[p].todo == todo != []
    requires todo[0] in snap && snap[todo[0]].run == run && w.rows == SkipAll(snap, done, clock)
    ensures DecidesSkip(w.calls[p], w.rows) <==> todo[0] in Asked(snap, run)
    ensures HasRead(w.calls[p], w.rows, todo[0]) && !DecidesLease(w.calls[p], w.rows)
  {
    hide RuleApplies, Runnable;
    if RuleApplies(snap, todo[0]) { BlockedHasNeeds(snap, todo[0]); }
  }

  lemma {:induction false} ScanRows(ws: seq<World>, start: World, rho: Outcomes, w: World, p: Pid, run: RunId,
                                    snap: Table, todo: seq<RowId>, done: set<RowId>, clock: RowId -> Time)
    returns (more: seq<World>, u: World, done': set<RowId>)
    requires Reaches(ws, start, rho, w)
    requires At(w, w, p, Scanning(run, snap, todo, done != {}), SkipAll(snap, done, clock))
    requires forall i :: 0 <= i < |todo| ==> todo[i] in snap && snap[todo[i]].run == run && todo[i] !in done
    requires forall i, j :: 0 <= i < j < |todo| ==> todo[i] != todo[j]
    ensures Reaches(more, start, rho, u)
    ensures At(u, w, p, Scanning(run, snap, [], done' != {}), SkipAll(snap, done', clock))
    ensures forall id :: id in done' <==> id in done || (id in todo && id in Asked(snap, run))
    decreases |todo|
  {
    hide Reaches, Asked, SkipAll;
    if todo == [] {
      more, u, done' := ws, w, done;
    } else {
      more, u, done' := ScanRow(ws, start, rho, w, p, run, snap, todo, done, clock);
      assert todo == [todo[0]] + todo[1..];
      more, u, done' := ScanRows(more, start, rho, u, p, run, snap, todo[1..], done', clock);
    }
  }

  /** One pass of gateRun. */
  lemma PassAlone(ws: seq<World>, start: World, rho: Outcomes, w: World, p: Pid, run: RunId,
                  clock: RowId -> Time)
    returns (more: seq<World>, u: World)
    requires Reaches(ws, start, rho, w) && p in w.calls && w.calls[p] == Call.Gating(run)
    ensures Reaches(more, start, rho, u)
    ensures var asked := Asked(w.rows, run);
      At(u, w, p, if asked == {} then Closing(run) else Call.Gating(run), SkipAll(w.rows, asked, clock))
  {
    hide Reaches, Asked, SkipAll;
    var snap, asked := w.rows, Asked(w.rows, run);
    var todo := Enumerate(set id | id in snap && snap[id].run == run);
    SkipNone(snap, clock);
    more, u := Scans(ws, start, rho, w, p, run, todo);
    var done;
    more, u, done := ScanRows(more, start, rho, u, p, run, snap, todo, {}, clock);
    AskedInRun(snap, run);
    assert done == asked;
    more, u := EndsScan(more, start, rho, u, p);
  }

  lemma SkipNone(t: Table, clock: RowId -> Time)
    ensures SkipAll(t, {}, clock) == t
  {
  }

  lemma AskedInRun(t: Table, run: RunId)
    ensures forall id :: id in Asked(t, run) ==> id in t && t[id].run == run
  {
  }

  lemma {:induction false} PassesAlone(ws: seq<World>, start: World, rho: Outcomes, w: World, p: Pid, run: RunId,
                    t: Table, done: set<RowId>, clock: RowId -> Time) returns (more: seq<World>, u: World)
    requires Reaches(ws, start, rho, w) && At(w, w, p, Call.Gating(run), SkipAll(t, done, clock))
    requires done <= Closure(t, run)
    ensures Reaches(more, start, rho, u) && At(u, w, p, Closing(run), Gate(t, run, clock))
    decreases Closure(t, run) - done
  {
    hide Reaches, Asked, Closure, SkipAll;
    var asked := Asked(w.rows, run);
    ScanStaysInClosure(t, run, done, clock);
    SkipAllTwice(t, done, asked, clock);
    more, u := PassAlone(ws, start, rho, w, p, run, clock);
    if asked == {} {
      SettledIsClosure(t, run, done, clock);
      assert done + {} == done;
    } else {
      more, u := PassesAlone(more, start, rho, u, p, run, t, done + asked, clock);
    }
  }

  /** finalizeRunIfComplete. */
  lemma CloseAlone(ws: seq<World>, start: World, rho: Outcomes, w: World, p: Pid, run: RunId)
    returns (more: seq<World>, u: World)
    requires Reaches(ws, start, rho, w) && p in w.calls && w.calls[p] == Closing(run)
    ensures Reaches(more, start, rho, u) && At(u, w.(runs := Finalize(w.rows, w.runs, run)), p, Done, w.rows)
  {
    hide Reaches, RunDone, RollUp;
    more, u := Closes(ws, start, rho, w, p, run);
    if RunDone(w.rows, run) {
      more := Extend(more, start, rho, u, SetRun(p));
      u := Apply(u, SetRun(p), rho);
    }
  }

  /** gateRun without interruption skips exactly the rows that Gate skips, and closes the run if done. */
  lemma GateAlone(ws: seq<World>, start: World, rho: Outcomes, w: World, p: Pid, run: RunId,
                  clock: RowId -> Time)
    returns (more: seq<World>, u: World)
    requires Reaches(ws, start, rho, w) && p in w.calls && w.calls[p] == Call.Gating(run)
    ensures Reaches(more, start, rho, u)
    ensures var t := Gate(w.rows, run, clock); At(u, w.(runs := Finalize(t, w.runs, run)), p, Done, t)
  {
    hide Reaches, Closure, Finalize, SkipAll;
    SkipNone(w.rows, clock);
    more, u := PassesAlone(ws, start, rho, w, p, run, w.rows, {}, clock);
    more, u := CloseAlone(more, start, rho, u, p, run);
  }

  /** The three statements of a completion. */
  lemma WritesAlone(ws: seq<World>, start: World, rho: Outcomes, w: World, p: Pid, id: RowId, l: LeaseId,
                    result: Status, now: Time)
    returns (more: seq<World>, u: World)
    requires Reaches(ws, start, rho, w) && p in w.calls && w.calls[p] == Completing(id, l, result, 0) && id in w.rows
    ensures Reaches(more, start, rho, u)
    ensures At(u, w, p, Call.Gating(w.rows[id].run), CompleteRow(w.rows, id, result, now))
  {
    hide Reaches, DecidesSkip, DecidesLease;
    more, u := Writes(ws, start, rho, w, p, now);
    more, u := Writes(more, start, rho, u, p, now);
    more, u := Writes(more, start, rho, u, p, now);
  }

  /** CompleteJob without interruption, for the holder of a lease. */
  lemma CompleteAlone(ws: seq<World>, start: World, rho: Outcomes, w: World, id: RowId, l: LeaseId,
                      result: Status, now: Time, clock: RowId -> Time)
    returns (more: seq<World>, u: World)
    requires Reaches(ws, start, rho, w) && Holds(w.rows, id, l) && IsTerminal(result) && result in rho(id)
    ensures Reaches(more, start, rho, u) && u.granted == w.granted
    ensures u.rows == Gate(CompleteRow(w.rows, id, result, now), w.rows[id].run, clock)
    ensures u.runs == Finalize(u.rows, w.runs, w.rows[id].run)
  {
    hide Reaches, Gate, CompleteRow, DecidesSkip, DecidesLease, Finalize;
    var p := Unused(w.calls.Keys);
    more, u := Completes(ws, start, rho, w, p, id, l, result);
    more, u := WritesAlone(more, start, rho, u, p, id, l, result, now);
    more, u := GateAlone(more, start, rho, u, p, w.rows[id].run, clock);
  }

  /* ---------- acquireOneQueuedJob alone ---------- */

  /** The rows of the cached run are still those of the table the call began on. */
  ghost predicate CacheOk(cache: map<RunId, Table>, t: Table) {
    forall r :: r in cache ==> Serial.SameRun(t, cache[r], r)
  }

  lemma ReadIsInitial(cs: seq<Job>, i: nat, t: Table, done: set<RowId>, clock: RowId -> Time, runs: set<RunId>,
                      run: RunId)
    requires Keyed(t) && Service.Scanned(cs, i, t, done, runs) && run !in runs
    ensures Serial.SameRun(t, SkipAll(t, done, clock), run)
  {
    hide SkipByRule, Leasable;
  }

  /** The ids the call has still to look at. */
  function Ids(cs: seq<Job>): seq<RowId> {
    seq(|cs|, i requires 0 <= i < |cs| => cs[i].id)
  }

  /** Reading the candidate's run, unless it was read before. */
  lemma ReadAlone(ws: seq<World>, start: World, rho: Outcomes, w: World, p: Pid, r: RunnerId, cs: seq<Job>,
                  i: nat,
                  t: Table, done: set<RowId>, clock: RowId -> Time, cache: map<RunId, Table>)
    returns (more: seq<World>, u: World, cache': map<RunId, Table>)
    requires Reaches(ws, start, rho, w) && Keyed(t) && ListsQueued(cs, t, CANDIDATE_BATCH_SIZE) && i < |cs|
    requires Service.Scanned(cs, i, t, done, cache.Keys) && CacheOk(cache, t)
    requires At(w, w, p, Acquiring(r, Ids(cs[i..]), cache), SkipAll(t, done, clock))
    ensures Reaches(more, start, rho, u) && CacheOk(cache', t) && cache.Keys <= cache'.Keys && cs[i].run in cache'
    ensures At(u, w, p, Acquiring(r, Ids(cs[i..]), cache'), SkipAll(t, done, clock))
  {
    hide Reaches, RuleApplies, Runnable, ListsQueued, Service.Scanned, Serial.SameRun;
    Service.QueuedRows(cs, t);
    if cs[i].run !in cache { ReadIsInitial(cs, i, t, done, clock, cache.Keys, cs[i].run); }
    assert Ids(cs[i..])[0] == cs[i].id;
    more, u := Reads(ws, start, rho, w, p);
    cache' := u.calls[p].cache;
  }

  lemma TailIds(cs: seq<Job>, i: nat)
    requires i < |cs|
    ensures Ids(cs[i..]) != [] && Ids(cs[i..])[0] == cs[i].id && Ids(cs[i..])[1..] == Ids(cs[i + 1..])
  {
  }

  /** What the cached rows say about the candidate is what the table said when the call began. */
  lemma ViewIsInitial(cache: map<RunId, Table>, t: Table, id: RowId)
    requires id in t && CacheOk(cache, t) && t[id].run in cache
    ensures var v := cache[t[id].run];
      && id in v
      && (RuleApplies(v, id) <==> RuleApplies(t, id))
      && (Runnable(v, id) <==> Runnable(t, id))
  {
    Serial.RuleIsLocal(t, cache[t[id].run], id);
  }

  /** From candidate i on, with done skipped so far. */
  lemma {:induction false} CandidatesAlone(ws: seq<World>, start: World, rho: Outcomes, w: World, p: Pid,
                                           r: RunnerId, l: LeaseId, ttl: Time, now: Time, clock: RowId -> Time,
                                           cs: seq<Job>, i: nat, t: Table, done: set<RowId>,
                                           cache: map<RunId, Table>)
    returns (more: seq<World>, u: World)
    requires Reaches(ws, start, rho, w) && Keyed(t) && ListsQueued(cs, t, CANDIDATE_BATCH_SIZE) && i <= |cs|
    requires l !in w.granted
    requires Service.Scanned(cs, i, t, done, cache.Keys) && CacheOk(cache, t)
    requires At(w, w, p, Acquiring(r, Ids(cs[i..]), cache), SkipAll(t, done, clock))
    ensures Reaches(more, start, rho, u) && u.rows == AcquireRows(t, r, l, ttl, now, clock)
    ensures u.granted.Keys <= w.granted.Keys + {l} && u.runs == w.runs && u.requeued == w.requeued
    ensures OthersStay(w, u, p)
    decreases |cs| - i
  {
    hide Reaches, RuleApplies, Runnable, ListsQueued, Service.Scanned, AcquireRows, CacheOk, SkipAll, Keyed, Ids,
         OthersStay;
    if i == |cs| {
      Service.AcquireFinds(cs, t, done, cache.Keys, r, l, ttl, now, clock);
      more, u := ws, w;
    } else {
      var id := cs[i].id;
      Service.QueuedRows(cs, t);
      var v, cache';
      more, v, cache' := ReadAlone(ws, start, rho, w, p, r, cs, i, t, done, clock, cache);
      StaysItself(v, p);
      ViewIsInitial(cache', t, id);
      Service.ScanOne(cs, i, t, done, cache.Keys, cache'.Keys);
      if SkipByRule(t, id) {
        var x;
        more, x := SkipCandidate(more, start, rho, v, p, r, cs, i, t, done, clock, cache');
        StaysItself(x, p);
        more, u := CandidatesAlone(more, start, rho, x, p, r, l, ttl, now, clock, cs, i + 1, t, done + {id}, cache');
        StayThrough(w, v, x, u, p);
      } else if Leasable(t, id) {
        Service.AcquirePicks(cs, i, t, done, cache.Keys, r, l, ttl, now, clock);
        more, u := LeaseCandidate(more, start, rho, v, p, r, l, ttl, now, cs, i, t, done, clock, cache');
        StayThrough(w, v, v, u, p);
      } else {
        var x;
        more, x := PassCandidate(more, start, rho, v, p, r, cs, i, t, done, clock, cache');
        StaysItself(x, p);
        more, u := CandidatesAlone(more, start, rho, x, p, r, l, ttl, now, clock, cs, i + 1, t, done, cache');
        StayThrough(w, v, x, u, p);
      }
    }
  }

  lemma StaysItself(u: World, p: Pid)
    ensures OthersStay(u, u, p)
  {
  }

  lemma StayThrough(w: World, v: World, x: World, u: World, p: Pid)
    requires OthersStay(w, v, p) && OthersStay(v, x, p) && OthersStay(x, u, p)
    ensures OthersStay(w, u, p)
  {
  }

  /** A candidate not skipped so far stands in the table as it was listed. */
  lemma CandidateStands(t: Table, done: set<RowId>, clock: RowId -> Time, id: RowId)
    requires id in t && id !in done
    ensures id in SkipAll(t, done, clock) && SkipAll(t, done, clock)[id] == t[id]
  {
  }

  lemma PassesOver(u: World, p: Pid, t: Table, id: RowId, c: Job, cache: map<RunId, Table>)
    requires p in u.calls && u.calls[p].Acquiring? && u.calls[p].todo != [] && u.calls[p].todo[0] == id
    requires u.calls[p].cache == cache
    requires id in t && t[id] == c && c.status == Queued && id in u.rows && u.rows[id] == c && c.run in cache
    requires id in cache[c.run]
    requires RuleApplies(cache[c.run], id) <==> RuleApplies(t, id)
    requires Runnable(cache[c.run], id) <==> Runnable(t, id)
    requires !SkipByRule(t, id) && !Leasable(t, id)
    ensures HasRead(u.calls[p], u.rows, id) && !DecidesSkip(u.calls[p], u.rows) && !DecidesLease(u.calls[p], u.rows)
  {
    hide RuleApplies;
    if c.needs == [] {
      assert forall k :: !Needs(t, id, k);
      NoNeedsRuns(t, id);
    }
  }

  lemma NoNeedsRuns(t: Table, id: RowId)
    requires id in t && t[id].needs == []
    ensures Runnable(t, id)
  {
    assert forall k :: !Needs(t, id, k);
  }

  lemma PassCandidate(ws: seq<World>, start: World, rho: Outcomes, w: World, p: Pid, r: RunnerId, cs: seq<Job>,
                      i: nat, t: Table, done: set<RowId>, clock: RowId -> Time, cache: map<RunId, Table>)
    returns (more: seq<World>, u: World)
    requires Reaches(ws, start, rho, w) && i < |cs| && cs[i].id in t && cs[i].id !in done && t[cs[i].id] == cs[i]
    requires cs[i].status == Queued && cs[i].run in cache && cs[i].id in cache[cs[i].run]
    requires RuleApplies(cache[cs[i].run], cs[i].id) <==> RuleApplies(t, cs[i].id)
    requires Runnable(cache[cs[i].run], cs[i].id) <==> Runnable(t, cs[i].id)
    requires !SkipByRule(t, cs[i].id) && !Leasable(t, cs[i].id)
    requires At(w, w, p, Acquiring(r, Ids(cs[i..]), cache), SkipAll(t, done, clock))
    ensures Reaches(more, start, rho, u)
    ensures At(u, w, p, Acquiring(r, Ids(cs[i + 1..]), cache), SkipAll(t, done, clock))
  {
    hide Reaches, RuleApplies, Runnable, SkipAll, Ids, DecidesSkip, DecidesLease, SkipByRule, Leasable;
    TailIds(cs, i);
    CandidateStands(t, done, clock, cs[i].id);
    PassesOver(w, p, t, cs[i].id, cs[i], cache);
    more, u := Passes(ws, start, rho, w, p);
  }

  lemma LeaseCandidate(ws: seq<World>, start: World, rho: Outcomes, w: World, p: Pid, r: RunnerId, l: LeaseId,
                       ttl: Time, now: Time, cs: seq<Job>, i: nat, t: Table, done: set<RowId>, clock: RowId -> Time,
                       cache: map<RunId, Table>)
    returns (more: seq<World>, u: World)
    requires Reaches(ws, start, rho, w) && i < |cs| && cs[i].id in t && cs[i].id !in done && t[cs[i].id] == cs[i]
    requires Leasable(t, cs[i].id) && cs[i].run in cache && cs[i].id in cache[cs[i].run] && l !in w.granted
    requires Runnable(cache[cs[i].run], cs[i].id)
    requires At(w, w, p, Acquiring(r, Ids(cs[i..]), cache), SkipAll(t, done, clock))
    ensures Reaches(more, start, rho, u) && u.rows == Lease(SkipAll(t, done, clock), cs[i].id, l, r, now + ttl, now)
    ensures u.granted.Keys == w.granted.Keys + {l} && u.runs == w.runs && u.requeued == w.requeued
    ensures OthersStay(w, u, p)
  {
    hide Reaches, Runnable, SkipAll, Ids, Lease;
    TailIds(cs, i);
    CandidateStands(t, done, clock, cs[i].id);
    more, u := Leases(ws, start, rho, w, p, l, now + ttl, now);
  }

  lemma SkipCandidate(ws: seq<World>, start: World, rho: Outcomes, w: World, p: Pid, r: RunnerId, cs: seq<Job>,
                      i: nat,
                      t: Table, done: set<RowId>, clock: RowId -> Time, cache: map<RunId, Table>)
    returns (more: seq<World>, u: World)
    requires Reaches(ws, start, rho, w) && i < |cs| && cs[i].id in t && cs[i].id !in done && t[cs[i].id] == cs[i]
    requires SkipByRule(t, cs[i].id) && cs[i].run in cache && cs[i].id in cache[cs[i].run]
    requires RuleApplies(cache[cs[i].run], cs[i].id)
    requires At(w, w, p, Acquiring(r, Ids(cs[i..]), cache), SkipAll(t, done, clock))
    ensures Reaches(more, start, rho, u)
    ensures At(u, w, p, Acquiring(r, Ids(cs[i + 1..]), cache), SkipAll(t, done + {cs[i].id}, clock))
  {
    hide Reaches, RuleApplies, Runnable, SkipAll, SkipJob, Ids;
    var id := cs[i].id;
    TailIds(cs, i);
    BlockedHasNeeds(t, id);
    SkipOneMore(t, done, clock, id);
    CandidateStands(t, done, clock, id);
    more, u := Skips(ws, start, rho, w, p, clock(id));
  }

  /** acquireOneQueuedJob without interruption leaves what AcquireRows gives. */
  lemma AcquireAlone(ws: seq<World>, start: World, rho: Outcomes, w: World, r: RunnerId, l: LeaseId, ttl: Time,
                     now: Time,
                     clock: RowId -> Time) returns (more: seq<World>, u: World)
    requires Reaches(ws, start, rho, w) && Keyed(w.rows) && l !in w.granted
    ensures Reaches(more, start, rho, u) && u.rows == AcquireRows(w.rows, r, l, ttl, now, clock)
    ensures u.granted.Keys <= w.granted.Keys + {l} && u.runs == w.runs && u.requeued == w.requeued
    ensures forall q :: q in w.calls ==> q in u.calls && u.calls[q] == w.calls[q]
  {
    hide Reaches, RuleApplies, Runnable, AcquireRows, ListsQueued, ListsBatch, FirstQueued;
    var t := w.rows;
    var cs := FirstQueued(t, CANDIDATE_BATCH_SIZE);
    Service.QueuedRows(cs, t);
    var p := Unused(w.calls.Keys);
    assert cs[0..] == cs;
    BatchIsListed(cs, t);
    more, u := Begins(ws, start, rho, w, p, r, Ids(cs));
    SkipNone(t, clock);
    NothingRead(cs, t, map[]);
    more, u := CandidatesAlone(more, start, rho, u, p, r, l, ttl, now, clock, cs, 0, t, {}, map[]);
  }

  lemma NothingRead(cs: seq<Job>, t: Table, cache: map<RunId, Table>)
    requires cache == map[]
    ensures CacheOk(cache, t) && Service.Scanned(cs, 0, t, {}, cache.Keys)
  {
    Service.EmptyCache(cs, t);
    assert cache.Keys == {};
  }

  lemma BatchIsListed(cs: seq<Job>, t: Table)
    requires Keyed(t) && ListsQueued(cs, t, CANDIDATE_BATCH_SIZE)
    ensures ListsBatch(Ids(cs), t)
  {
    hide InBatch;
    forall id | InBatch(t, CANDIDATE_BATCH_SIZE, id) ensures id in Ids(cs) {
      InBatchIsRow(t, id);
      var i :| 0 <= i < |cs| && cs[i] == t[id];
      assert Ids(cs)[i] == id;
    }
  }

  lemma InBatchIsRow(t: Table, id: RowId)
    requires InBatch(t, CANDIDATE_BATCH_SIZE, id)
    ensures id in t
  {
  }

  /* ---------- the other calls ---------- */

  lemma ReportAlone(ws: seq<World>, start: World, rho: Outcomes, w: World, id: RowId, l: LeaseId)
    returns (more: seq<World>, u: World)
    requires Reaches(ws, start, rho, w) && Holds(w.rows, id, l)
    ensures Reaches(more, start, rho, u)
    ensures u == w.(rows := TransitionStatus(w.rows, id, Leased, Running), calls := u.calls)
  {
    hide Reaches;
    var p := Unused(w.calls.Keys);
    more := Extend(ws, start, rho, w, BeginReport(p, id, l));
    u := Apply(w, BeginReport(p, id, l), rho);
    more := Extend(more, start, rho, u, Write(p, 0));
    u := Apply(u, Write(p, 0), rho);
  }

  lemma {:induction false} HeartbeatAlone(ws: seq<World>, start: World, rho: Outcomes, w: World, r: RunnerId,
                                          ls: seq<LeaseId>, d: Time)
    returns (more: seq<World>, u: World)
    requires Reaches(ws, start, rho, w)
    ensures Reaches(more, start, rho, u) && u == w.(rows := RenewAll(w.rows, r, ls, d), calls := u.calls)
    decreases |ls|
  {
    hide Reaches;
    if ls == [] {
      more, u := ws, w;
    } else {
      var l := ls[|ls| - 1];
      more, u := HeartbeatAlone(ws, start, rho, w, r, ls[..|ls| - 1], d);
      if OwnedBy(u.rows, l, r) {
        var p := Unused(u.calls.Keys);
        var begin := BeginRenew(p, HolderOf(u.rows, l), l, r, d);
        more := Extend(more, start, rho, u, begin);
        u := Apply(u, begin, rho);
        more := Extend(more, start, rho, u, Write(p, 0));
        u := Apply(u, Write(p, 0), rho);
      }
    }
  }

  /* ---------- whole runs ---------- */

  predicate MayReport(phase: Phase, may: set<Status>) {
    PhaseToStatus(phase).Some? && PhaseToStatus(phase).value in may
  }

  /** Every accepted completion reports something rho allows for its row. */
  ghost predicate ReportsAs(s: State, es: seq<Serial.Event>, ttl: Time, rho: Outcomes) {
    es != [] ==>
      && ReportsAs(s, es[..|es| - 1], ttl, rho)
      && forall id :: Serial.Ends(Serial.Exec(s, es[..|es| - 1], ttl), es[|es| - 1], id) ==>
           MayReport(es[|es| - 1].phase, rho(id))
  }

  lemma CompleteCall(ws: seq<World>, start: World, rho: Outcomes, w: World, s: State, e: Serial.Event,
                     drawn: set<LeaseId>)
    returns (more: seq<World>, u: World)
    requires Reaches(ws, start, rho, w) && w.rows == s.rows && w.runs == s.runs && Serial.Inv(s, drawn) && e.Complete?
    requires forall id :: Serial.Ends(s, e, id) ==> MayReport(e.phase, rho(id))
    ensures Reaches(more, start, rho, u) && u.granted == w.granted
    ensures var v := Complete(s, e.lease, e.phase, e.outs, e.now, e.clock); u.rows == v.rows && u.runs == v.runs
  {
    hide Reaches, Gate, Serial.Ends, Finalize, Serial.Gated, Serial.Settled, Serial.RunsAgree, UniqueLeases,
         Serial.Shape;
    var result := PhaseToStatus(e.phase);
    if Held(s.rows, e.lease) && result.Some? && IsTerminal(result.value) {
      var id := HolderOf(s.rows, e.lease);
      Serial.AcceptedEnds(s, e, id);
      more, u := CompleteAlone(ws, start, rho, w, id, e.lease, result.value, e.now, e.clock);
    } else {
      more, u := ws, w;
    }
  }

  lemma CallAlone(ws: seq<World>, start: World, rho: Outcomes, w: World, s: State, e: Serial.Event, ttl: Time,
                  drawn: set<LeaseId>)
    returns (more: seq<World>, u: World)
    requires Reaches(ws, start, rho, w) && w.rows == s.rows && w.runs == s.runs && Serial.Inv(s, drawn)
    requires w.granted.Keys <= drawn
    requires e.Acquire? ==> e.lease !in drawn
    requires forall id :: Serial.Ends(s, e, id) ==> MayReport(e.phase, rho(id))
    ensures Reaches(more, start, rho, u)
    ensures u.rows == Serial.Next(s, e, ttl).rows && u.runs == Serial.Next(s, e, ttl).runs
    ensures u.granted.Keys <= drawn + if e.Acquire? then {e.lease} else {}
  {
    hide Reaches, AcquireRows, Complete, RenewAll, RequeueExpired, Serial.Ends, Serial.Inv, TransitionStatus;
    match e
    case Acquire(r, l, now, clock) =>
      InvIsKeyed(s, drawn);
      more, u := AcquireAlone(ws, start, rho, w, r, l, ttl, now, clock);
    case Report(l, update) =>
      if Held(s.rows, l) && PhaseToStatus(update.phase) == Some(Running) {
        more, u := ReportAlone(ws, start, rho, w, HolderOf(s.rows, l), l);
      } else {
        more, u := ws, w;
      }
    case Complete(_, _, _, _, _) => more, u := CompleteCall(ws, start, rho, w, s, e, drawn);
    case Heartbeat(r, ls, now) => more, u := HeartbeatAlone(ws, start, rho, w, r, ls, now + ttl);
    case Tick(now) =>
      more := Extend(ws, start, rho, w, Reap(now));
      u := Apply(w, Reap(now), rho);
  }

  lemma InvIsKeyed(s: State, drawn: set<LeaseId>)
    requires Serial.Inv(s, drawn)
    ensures Keyed(s.rows)
  {
  }

  /** The world of a planned database before any call. */
  function Start(s: State): World {
    World(s.rows, s.runs, map[], map[], {})
  }

  lemma PlannedIsFresh(s: State)
    requires Serial.Planned(s)
    ensures Fresh(Start(s))
  {
  }

  /** Every run of whole calls whose completions report what rho allows is an interleaved run: some
      interleaving of their statements starts from the same plan and ends with the same jobs and runs. */
  lemma {:induction false} SerialInterleavesAs(s: State, es: seq<Serial.Event>, ttl: Time, rho: Outcomes)
    returns (ws: seq<World>, w: World)
    requires Serial.Planned(s) && Serial.FreshLeases(es) && ReportsAs(s, es, ttl, rho)
    ensures Reaches(ws, Start(s), rho, w) && w.granted.Keys <= Serial.Drawn(es)
    ensures w.rows == Serial.Exec(s, es, ttl).rows && w.runs == Serial.Exec(s, es, ttl).runs
  {
    hide Reaches, Serial.Next, Serial.Ends, Serial.Inv, Fresh, Serial.Planned;
    if es == [] {
      w := Start(s);
      ws := [w];
      PlannedIsFresh(s);
      StartsRun(w, rho);
    } else {
      var rest := es[..|es| - 1];
      ws, w := SerialInterleavesAs(s, rest, ttl, rho);
      SerialTheorems.RunsKeepInv(s, rest, ttl);
      ws, w := CallAlone(ws, Start(s), rho, w, Serial.Exec(s, rest, ttl), es[|es| - 1], ttl, Serial.Drawn(rest));
    }
  }

  lemma {:induction false} AllReport(s: State, es: seq<Serial.Event>, ttl: Time)
    ensures ReportsAs(s, es, ttl, ANY)
  {
    if es != [] {
      AllReport(s, es[..|es| - 1], ttl);
    }
  }

  /** Every run of whole calls is an interleaved run, whatever its completions and retries report. */
  lemma SerialIsInterleaved(s: State, es: seq<Serial.Event>, ttl: Time) returns (ws: seq<World>, w: World)
    requires Serial.Planned(s) && Serial.FreshLeases(es)
    ensures Reaches(ws, Start(s), ANY, w) && w.granted.Keys <= Serial.Drawn(es)
    ensures w.rows == Serial.Exec(s, es, ttl).rows && w.runs == Serial.Exec(s, es, ttl).runs
  {
    hide Serial.Planned, Serial.FreshLeases, ReportsAs, Reaches, Serial.Exec;
    AllReport(s, es, ttl);
    ws, w := SerialInterleavesAs(s, es, ttl, ANY);
  }

  /** So whatever is proved of all interleavings holds of serial runs: a row that ends in a serial run
      and in any interleaving of the same plan ends alike, if it and all it depends on can each report one
      result only. */
  lemma SerialAgreesWithAny(s: State, es: seq<Serial.Event>, ttl: Time, rho: Outcomes, vs: seq<World>, sigma: Outcomes,
                            f: RowId -> Status, own: set<RowId>, j: nat, id: RowId)
    requires Serial.Planned(s) && Serial.FreshLeases(es) && ReportsAs(s, es, ttl, rho)
    requires IsRun(vs, sigma) && vs[0].rows == s.rows && j < |vs|
    requires InterleavingTheorems.HoldsNeeds(s.rows, own) && id in own
    requires InterleavingTheorems.OneReport(rho, f, own) && InterleavingTheorems.OneReport(sigma, f, own)
    requires var t := Serial.Exec(s, es, ttl).rows;
      id in t && id in vs[j].rows && IsTerminal(t[id].status) && IsTerminal(vs[j].rows[id].status)
    ensures Serial.Exec(s, es, ttl).rows[id].status == vs[j].rows[id].status
  {
    hide Serial.Exec, Serial.Planned, ReportsAs, Serial.FreshLeases, Follows, Fresh;
    var ws, w := SerialInterleavesAs(s, es, ttl, rho);
    InterleavingTheorems.SchedulesAgree(ws, vs, rho, sigma, f, own, |ws| - 1, j, id);
  }
}
