/** A runner's log stream: resolve the lease, persist, publish what is new (internal/dispatch/service.go:268-335). */
module LogStream {
  import opened Jobs
  import opened Handlers
  import opened Service
  import LogStore

  /** One message of the stream. */
  datatype Message = Message(lease: LeaseId, step: string, num: int, ts: Time, data: string)

  /** The chunk table and the live subscribers. */
  datatype Logs = Logs(chunks: map<LogStore.Key, LogStore.Chunk>, hub: LogStore.Hub)

  function ToChunk(job: RowId, m: Message): LogStore.Chunk {
    LogStore.Chunk(job, m.lease, m.step, m.num, m.ts, m.data)
  }

  /** A stale lease is dropped, a known (lease, seq) is ignored, anything else is persisted and published. */
  ghost function Accept(l: Logs, t: Table, m: Message): Logs {
    if !Held(t, m.lease) || (m.lease, m.num) in l.chunks then l
    else
      var c := ToChunk(HolderOf(t, m.lease), m);
      Logs(l.chunks[(m.lease, m.num) := c], LogStore.Step(l.hub, LogStore.Op.Publish(c)))
  }

  ghost function AcceptAll(l: Logs, t: Table, ms: seq<Message>): Logs {
    if ms == [] then l else Accept(AcceptAll(l, t, ms[..|ms| - 1]), t, ms[|ms| - 1])
  }

  /** StreamLogs alone: the cached resolution of a lease answers as a fresh lookup would. */
  method StreamLogs(service: Service, logs: LogStore.Store, incoming: seq<Message>)
    requires Keyed(service.jobs.rows) && UniqueLeases(service.jobs.rows)
    requires LogStore.Valid(logs.Registry()) && LogStore.KeyedChunks(logs.chunks)
    modifies logs
    ensures LogStore.Valid(logs.Registry()) && LogStore.KeyedChunks(logs.chunks)
    ensures Logs(logs.chunks, logs.Registry()) ==
            AcceptAll(Logs(old(logs.chunks), old(logs.Registry())), service.jobs.rows, incoming)
  {
    hide LogStore.Valid, LogStore.Step, UniqueLeases, Keyed;
    var resolved: map<LeaseId, Option<Job>> := map[];
    var i := 0;
    while i < |incoming|
      invariant 0 <= i <= |incoming|
      invariant LogStore.Valid(logs.Registry()) && LogStore.KeyedChunks(logs.chunks)
      invariant forall l :: l in resolved ==> (resolved[l].Some? <==> Held(service.jobs.rows, l))
      invariant forall l :: l in resolved && resolved[l].Some? ==>
          resolved[l].value.id == HolderOf(service.jobs.rows, l)
      invariant Logs(logs.chunks, logs.Registry()) ==
        AcceptAll(Logs(old(logs.chunks), old(logs.Registry())), service.jobs.rows, incoming[..i])
    {
      var m := incoming[i];
      assert incoming[..i + 1][..i] == incoming[..i];
      if m.lease !in resolved {
        var job := service.ResolveLeaseJob(m.lease);
        resolved := resolved[m.lease := job];
      }
      var job := resolved[m.lease];
      i := i + 1;
      if job.Some? {
        var c := ToChunk(job.value.id, m);
        var inserted := logs.Append(c);
        if inserted { logs.Publish(c); }
      }
    }
    assert incoming[..|incoming|] == incoming;
  }

  /** Persisted chunks keep their payload. */
  lemma {:induction false} AcceptedStays(l: Logs, t: Table, ms: seq<Message>, k: LogStore.Key)
    requires k in l.chunks
    ensures k in AcceptAll(l, t, ms).chunks && AcceptAll(l, t, ms).chunks[k] == l.chunks[k]
  {
    if ms != [] { AcceptedStays(l, t, ms[..|ms| - 1], k); }
  }

  /** After a stream, every message of a held lease is persisted. */
  lemma {:induction false} AcceptedIsPersisted(l: Logs, t: Table, ms: seq<Message>, i: nat)
    requires i < |ms| && Held(t, ms[i].lease)
    ensures (ms[i].lease, ms[i].num) in AcceptAll(l, t, ms).chunks
  {
    if i < |ms| - 1 { AcceptedIsPersisted(l, t, ms[..|ms| - 1], i); }
  }

  lemma {:induction false} NothingNew(l: Logs, t: Table, ms: seq<Message>)
    requires forall i :: 0 <= i < |ms| && Held(t, ms[i].lease) ==> (ms[i].lease, ms[i].num) in l.chunks
    ensures AcceptAll(l, t, ms) == l
  {
    if ms != [] { NothingNew(l, t, ms[..|ms| - 1]); }
  }

  /** A runner may send any part of a stream again, in any order and with any payload: nothing is
      persisted, overwritten or published a second time. */
  lemma ResendIsIgnored(l: Logs, t: Table, ms: seq<Message>, again: seq<Message>)
    requires forall k :: 0 <= k < |again| ==>
        exists i :: 0 <= i < |ms| && ms[i].lease == again[k].lease && ms[i].num == again[k].num
    ensures AcceptAll(AcceptAll(l, t, ms), t, again) == AcceptAll(l, t, ms)
  {
    hide AcceptAll, Held;
    forall k | 0 <= k < |again| && Held(t, again[k].lease)
      ensures (again[k].lease, again[k].num) in AcceptAll(l, t, ms).chunks
    {
      var i :| 0 <= i < |ms| && ms[i].lease == again[k].lease && ms[i].num == again[k].num;
      AcceptedIsPersisted(l, t, ms, i);
    }
    NothingNew(AcceptAll(l, t, ms), t, again);
  }

  /** A stream of leases no row holds leaves everything as it was. */
  lemma StaleStreamIsDropped(l: Logs, t: Table, ms: seq<Message>)
    requires forall i :: 0 <= i < |ms| ==> !Held(t, ms[i].lease)
    ensures AcceptAll(l, t, ms) == l
  {
    NothingNew(l, t, ms);
  }

  /* ---------- what was sent is what is kept ---------- */

  /** The chunk holds what the message says, under the given row. */
  ghost predicate Carries(c: LogStore.Chunk, m: Message, job: RowId) {
    && c.job == job && c.lease == m.lease && c.num == m.num && c.step == m.step && c.ts == m.ts && c.data == m.data
  }

  /** Message i is the first of the stream with that lease and seq. */
  ghost predicate IsFirst(ms: seq<Message>, i: int, lease: LeaseId, num: int) {
    && 0 <= i < |ms| && ms[i].lease == lease && ms[i].num == num
    && forall j :: 0 <= j < i ==> ms[j].lease != lease || ms[j].num != num
  }

  ghost predicate Sent(ms: seq<Message>, lease: LeaseId, num: int) {
    exists i :: IsFirst(ms, i, lease, num)
  }

  /** StreamLogs, key by key: what was persisted stays as it was; besides, exactly the keys of messages under
      held leases are persisted, each with step, time and data of its first message, under the row that
      holds the lease. */
  lemma {:induction false} StreamPersists(l: Logs, t: Table, ms: seq<Message>, lease: LeaseId, num: int)
    ensures var kept := AcceptAll(l, t, ms).chunks;
      && ((lease, num) in kept <==> (lease, num) in l.chunks || (Sent(ms, lease, num) && Held(t, lease)))
      && ((lease, num) in l.chunks ==> kept[(lease, num)] == l.chunks[(lease, num)])
      && ((lease, num) !in l.chunks && (lease, num) in kept ==>
          exists i, job :: IsFirst(ms, i, lease, num) && Holds(t, job, lease)
                           && Carries(kept[(lease, num)], ms[i], job))
  {
    hide LogStore.Step, Carries;
    if ms == [] {
      assert forall i :: !IsFirst([], i, lease, num);
    } else {
      var rest, m := ms[..|ms| - 1], ms[|ms| - 1];
      StreamPersists(l, t, rest, lease, num);
      FirstGrows(rest, m, lease, num);
      assert rest + [m] == ms;
      if m.lease == lease && m.num == num && Held(t, lease) && (lease, num) !in AcceptAll(l, t, rest).chunks {
        OneCarries(AcceptAll(l, t, rest), t, m);
      }
    }
  }

  lemma FirstGrows(ms: seq<Message>, m: Message, lease: LeaseId, num: int)
    ensures forall i :: IsFirst(ms, i, lease, num) ==> IsFirst(ms + [m], i, lease, num) && (ms + [m])[i] == ms[i]
    ensures Sent(ms + [m], lease, num) <==> Sent(ms, lease, num) || (m.lease == lease && m.num == num)
    ensures !Sent(ms, lease, num) && m.lease == lease && m.num == num ==> IsFirst(ms + [m], |ms|, lease, num)
  {
    var all := ms + [m];
    forall i | IsFirst(ms, i, lease, num) ensures IsFirst(all, i, lease, num) && all[i] == ms[i] {
      assert forall j :: 0 <= j < i ==> all[j] == ms[j];
    }
    if m.lease == lease && m.num == num && !Sent(ms, lease, num) {
      NoneBefore(ms, |ms|, lease, num);
      assert IsFirst(all, |ms|, lease, num);
    }
    if i :| IsFirst(all, i, lease, num) {
      if i < |ms| {
        assert forall j :: 0 <= j <= i ==> all[j] == ms[j];
        assert IsFirst(ms, i, lease, num);
      }
    }
    if i :| IsFirst(ms, i, lease, num) { assert IsFirst(all, i, lease, num); }
  }

  lemma {:induction false} NoneBefore(ms: seq<Message>, n: nat, lease: LeaseId, num: int)
    requires !Sent(ms, lease, num) && n <= |ms|
    ensures forall j :: 0 <= j < n ==> ms[j].lease != lease || ms[j].num != num
  {
    if n > 0 {
      NoneBefore(ms, n - 1, lease, num);
      assert !IsFirst(ms, n - 1, lease, num);
    }
  }

  lemma OneCarries(l: Logs, t: Table, m: Message)
    requires Held(t, m.lease) && (m.lease, m.num) !in l.chunks
    ensures Carries(Accept(l, t, m).chunks[(m.lease, m.num)], m, HolderOf(t, m.lease))
    ensures Holds(t, HolderOf(t, m.lease), m.lease)
  {
  }

  /** The messages of the stream that are new and go to the subscribers of the job, in order: the first of
      their lease and seq, not persisted before, under a lease that the job's row holds. */
  ghost function NewFor(l: Logs, t: Table, ms: seq<Message>, job: RowId): seq<Message> {
    if ms == [] then [] else
      var rest, m := ms[..|ms| - 1], ms[|ms| - 1];
      NewFor(l, t, rest, job)
      + if Holds(t, job, m.lease) && (m.lease, m.num) !in l.chunks && !Sent(rest, m.lease, m.num) then [m] else []
  }

  /** buf continues with one chunk per message. */
  ghost predicate Delivers(before: seq<LogStore.Chunk>, after: seq<LogStore.Chunk>, ms: seq<Message>, job: RowId) {
    && |after| == |before| + |ms| && before <= after
    && forall i :: 0 <= i < |ms| ==> Carries(after[|before| + i], ms[i], job)
  }

  lemma DeliversOne(before: seq<LogStore.Chunk>, after: seq<LogStore.Chunk>, ms: seq<Message>, job: RowId,
                    c: LogStore.Chunk, m: Message)
    requires Delivers(before, after, ms, job) && Carries(c, m, job)
    ensures Delivers(before, after + [c], ms + [m], job)
  {
    hide Carries;
  }

  /** StreamLogs, subscriber by subscriber: an open channel of a job stays open exactly while what was
      buffered and what is new fits into 256, and then it has received exactly the new messages in order;
      a closed one, and one of another job's, receives nothing. */
  lemma {:induction false} StreamDelivers(l: Logs, t: Table, ms: seq<Message>, ch: LogStore.ChanId)
    requires LogStore.Valid(l.hub) && UniqueLeases(t) && ch in l.hub.chans
    ensures var hub := AcceptAll(l, t, ms).hub; var before := l.hub.chans[ch];
      && LogStore.Valid(hub) && ch in hub.chans && hub.chans[ch].job == before.job
      && (!before.open ==> hub.chans[ch] == before)
      && (before.open ==>
          var news := NewFor(l, t, ms, before.job);
          && (hub.chans[ch].open <==> |before.buf| + |news| <= 256)
          && (hub.chans[ch].open ==> Delivers(before.buf, hub.chans[ch].buf, news, before.job)))
  {
    hide LogStore.Step, LogStore.Valid, Carries, NewFor, LogStore.Alone, Delivers, Sent;
    if ms == [] {
      NothingSent(l, t, ms, l.hub.chans[ch]);
      BufferFits(l.hub, ch);
    } else {
      var rest, m := ms[..|ms| - 1], ms[|ms| - 1];
      StreamDelivers(l, t, rest, ch);
      StreamPersists(l, t, rest, m.lease, m.num);
      var mid := AcceptAll(l, t, rest);
      AcceptDelivers(mid, t, m, ch);
      NewForLast(l, t, ms, l.hub.chans[ch].job);
      DeliversLength(l.hub.chans[ch].buf, mid.hub.chans[ch].buf, NewFor(l, t, rest, l.hub.chans[ch].job),
                     l.hub.chans[ch].job);
      if !IsNewFor(mid, t, m, l.hub.chans[ch].job) {
        assert NewFor(l, t, ms, l.hub.chans[ch].job) == NewFor(l, t, rest, l.hub.chans[ch].job);
      } else if mid.hub.chans[ch].open && |mid.hub.chans[ch].buf| < 256 {
        var c := Accept(mid, t, m).hub.chans[ch].buf[|mid.hub.chans[ch].buf|];
        DeliversOne(l.hub.chans[ch].buf, mid.hub.chans[ch].buf, NewFor(l, t, rest, l.hub.chans[ch].job),
                    l.hub.chans[ch].job, c, m);
      }
    }
  }

  lemma NothingSent(l: Logs, t: Table, ms: seq<Message>, c: LogStore.Chan)
    requires ms == []
    ensures NewFor(l, t, ms, c.job) == [] && Delivers(c.buf, c.buf, [], c.job)
  {
  }

  lemma BufferFits(h: LogStore.Hub, ch: LogStore.ChanId)
    requires LogStore.Valid(h) && ch in h.chans
    ensures |h.chans[ch].buf| <= 256
  {
  }

  lemma DeliversLength(before: seq<LogStore.Chunk>, after: seq<LogStore.Chunk>, ms: seq<Message>, job: RowId)
    ensures Delivers(before, after, ms, job) ==> |after| == |before| + |ms|
  {
  }

  /** The message is new to the store and its lease is held by the job's row. */
  ghost predicate IsNewFor(l: Logs, t: Table, m: Message, job: RowId) {
    Holds(t, job, m.lease) && (m.lease, m.num) !in l.chunks
  }

  lemma NewForLast(l: Logs, t: Table, ms: seq<Message>, job: RowId)
    requires ms != []
    ensures var rest, m := ms[..|ms| - 1], ms[|ms| - 1];
      NewFor(l, t, ms, job) == NewFor(l, t, rest, job)
        + if Holds(t, job, m.lease) && (m.lease, m.num) !in l.chunks && !Sent(rest, m.lease, m.num) then [m] else []
  {
  }

  /** One message, for one channel. */
  lemma AcceptDelivers(l: Logs, t: Table, m: Message, ch: LogStore.ChanId)
    requires LogStore.Valid(l.hub) && UniqueLeases(t) && ch in l.hub.chans
    ensures var hub := Accept(l, t, m).hub; var before := l.hub.chans[ch];
      && LogStore.Valid(hub) && ch in hub.chans && hub.chans[ch].job == before.job
      && (!before.open || !IsNewFor(l, t, m, before.job) ==> hub.chans[ch] == before)
      && (before.open && IsNewFor(l, t, m, before.job) ==>
          if |before.buf| < 256
          then hub.chans[ch].open && |hub.chans[ch].buf| == |before.buf| + 1
            && before.buf == hub.chans[ch].buf[..|before.buf|]
            && hub.chans[ch].buf == before.buf + [hub.chans[ch].buf[|before.buf|]]
            && Carries(hub.chans[ch].buf[|before.buf|], m, before.job)
          else !hub.chans[ch].open)
  {
    hide LogStore.Step, LogStore.Valid;
    if Held(t, m.lease) && (m.lease, m.num) !in l.chunks {
      var c := ToChunk(HolderOf(t, m.lease), m);
      LogStore.StepKeepsValid(l.hub, LogStore.Op.Publish(c));
      LogStore.StepIsAlone(l.hub, LogStore.Op.Publish(c), ch);
    }
  }
}
