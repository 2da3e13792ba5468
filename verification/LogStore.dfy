/** Log chunks and their live subscribers (internal/logstore/logstore.go). */
module LogStore {
  import opened Jobs

  datatype Chunk = Chunk(job: RowId, lease: LeaseId, step: string, num: int, ts: Time, data: string)

  type Key = (LeaseId, int)
  type ChanId = nat

  /** A subscriber's buffered Go channel.  Closing it leaves the buffered chunks to be received. */
  datatype Chan = Chan(job: RowId, buf: seq<Chunk>, open: bool)

  const SUBSCRIBER_BUFFER: nat := 256

  /** The registry: which open channels listen to a job. */
  datatype Hub = Hub(subs: map<RowId, set<ChanId>>, chans: map<ChanId, Chan>)

  function Members(subs: map<RowId, set<ChanId>>, job: RowId): set<ChanId> {
    if job in subs then subs[job] else {}
  }

  /** The registry without an empty set for the job. */
  function WithMembers(subs: map<RowId, set<ChanId>>, job: RowId, s: set<ChanId>): map<RowId, set<ChanId>> {
    if s == {} then subs - {job} else subs[job := s]
  }

  /** A non-blocking send, or the drop of a subscriber that has fallen behind. */
  function Deliver(ch: Chan, c: Chunk): Chan {
    if |ch.buf| < SUBSCRIBER_BUFFER then ch.(buf := ch.buf + [c]) else ch.(open := false)
  }

  function DeliverAll(chans: map<ChanId, Chan>, s: set<ChanId>, c: Chunk): map<ChanId, Chan> {
    map ch | ch in chans :: if ch in s then Deliver(chans[ch], c) else chans[ch]
  }

  function StillOpen(s: set<ChanId>, chans: map<ChanId, Chan>): set<ChanId> {
    set ch | ch in s && ch in chans && chans[ch].open
  }

  datatype Op =
    | Subscribe(job: RowId, ch: ChanId)
    | Publish(c: Chunk)
    | Cancel(ch: ChanId)
    | Receive(ch: ChanId)

  function Step(h: Hub, op: Op): Hub {
    match op
    case Subscribe(job, ch) =>
      if ch in h.chans then h
      else Hub(h.subs[job := Members(h.subs, job) + {ch}], h.chans[ch := Chan(job, [], true)])
    case Publish(c) =>
      if c.job in h.subs
      then var chans := DeliverAll(h.chans, h.subs[c.job], c);
           Hub(WithMembers(h.subs, c.job, StillOpen(h.subs[c.job], chans)), chans)
      else h
    case Cancel(ch) =>
      if ch in h.chans && ch in Members(h.subs, h.chans[ch].job)
      then Hub(WithMembers(h.subs, h.chans[ch].job, Members(h.subs, h.chans[ch].job) - {ch}),
               h.chans[ch := h.chans[ch].(open := false)])
      else h
    case Receive(ch) =>
      if ch in h.chans && h.chans[ch].buf != []
      then h.(chans := h.chans[ch := h.chans[ch].(buf := h.chans[ch].buf[1..])])
      else h
  }

  /** A channel is open exactly while it is registered for its job, and no empty set remains. */
  ghost predicate Valid(h: Hub) {
    && (forall job :: job in h.subs ==> h.subs[job] != {})
    && (forall job, ch :: job in h.subs && ch in h.subs[job] ==>
        ch in h.chans && h.chans[ch].job == job && h.chans[ch].open)
    && (forall ch :: ch in h.chans && h.chans[ch].open ==> ch in Members(h.subs, h.chans[ch].job))
    && (forall ch :: ch in h.chans ==> |h.chans[ch].buf| <= SUBSCRIBER_BUFFER)
  }

  lemma StepKeepsValid(h: Hub, op: Op)
    requires Valid(h)
    ensures Valid(Step(h, op))
  {
    hide Valid, Step;
    match op
    case Publish(c) => PublishKeepsValid(h, c);
    case Subscribe(job, ch) => SubscribeKeepsValid(h, job, ch);
    case Cancel(ch) => CancelKeepsValid(h, ch);
    case Receive(ch) => ReceiveKeepsValid(h, ch);
  }

  lemma SubscribeKeepsValid(h: Hub, job: RowId, ch: ChanId)
    requires Valid(h)
    ensures Valid(Step(h, Subscribe(job, ch)))
  {
  }

  lemma CancelKeepsValid(h: Hub, ch: ChanId)
    requires Valid(h)
    ensures Valid(Step(h, Cancel(ch)))
  {
  }

  lemma ReceiveKeepsValid(h: Hub, ch: ChanId)
    requires Valid(h)
    ensures Valid(Step(h, Receive(ch)))
  {
  }

  lemma PublishKeepsValid(h: Hub, c: Chunk)
    requires Valid(h)
    ensures Valid(Step(h, Publish(c)))
  {
    hide Deliver, DeliverAll, Step;
    if c.job in h.subs {
      var s, chans := h.subs[c.job], DeliverAll(h.chans, h.subs[c.job], c);
      DeliveredAll(h.chans, s, c);
      PublishStep(h, c);
      var subs := WithMembers(h.subs, c.job, StillOpen(s, chans));
      forall job, ch | job in subs && ch in subs[job] ensures ch in chans && chans[ch].job == job && chans[ch].open {
        assert job in h.subs && ch in h.subs[job];
      }
      forall ch | ch in chans && chans[ch].open ensures ch in Members(subs, chans[ch].job) {
        assert ch in Members(h.subs, h.chans[ch].job);
      }
    } else {
      PublishToNone(h, c);
    }
  }

  lemma PublishStep(h: Hub, c: Chunk)
    requires c.job in h.subs
    ensures var chans := DeliverAll(h.chans, h.subs[c.job], c);
      Step(h, Publish(c)) == Hub(WithMembers(h.subs, c.job, StillOpen(h.subs[c.job], chans)), chans)
  {
  }

  lemma PublishToNone(h: Hub, c: Chunk)
    requires c.job !in h.subs
    ensures Step(h, Publish(c)) == h
  {
  }

  lemma DeliveredAll(chans: map<ChanId, Chan>, s: set<ChanId>, c: Chunk)
    ensures var out := DeliverAll(chans, s, c);
      && out.Keys == chans.Keys
      && (forall ch :: ch in chans && ch !in s ==> out[ch] == chans[ch])
      && (forall ch :: ch in chans ==> out[ch].job == chans[ch].job && (out[ch].open ==> chans[ch].open))
      && (forall ch :: ch in chans && |chans[ch].buf| <= SUBSCRIBER_BUFFER ==> |out[ch].buf| <= SUBSCRIBER_BUFFER)
  {
  }

  /** One publish, channel by channel: an open channel of the job takes the chunk while it holds fewer than
      256, and is closed otherwise; every other channel stays as it is. */
  lemma PublishIsExact(h: Hub, c: Chunk, ch: ChanId)
    requires Valid(h) && ch in h.chans
    ensures var u := Step(h, Publish(c)).chans; var was := h.chans[ch];
      && u.Keys == h.chans.Keys
      && (!was.open || was.job != c.job ==> u[ch] == was)
      && (was.open && was.job == c.job && |was.buf| <= 255 ==> u[ch] == Chan(c.job, was.buf + [c], true))
      && (was.open && was.job == c.job && |was.buf| >= 256 ==> u[ch] == Chan(c.job, was.buf, false))
  {
    StepIsAlone(h, Publish(c), ch);
  }

  function Exec(ops: seq<Op>): Hub {
    if ops == [] then Hub(map[], map[]) else Step(Exec(ops[..|ops| - 1]), ops[|ops| - 1])
  }

  lemma {:induction false} RegistryIsSound(ops: seq<Op>)
    ensures Valid(Exec(ops))
  {
    if ops != [] {
      RegistryIsSound(ops[..|ops| - 1]);
      StepKeepsValid(Exec(ops[..|ops| - 1]), ops[|ops| - 1]);
    }
  }

  /* ---------- one subscriber does not feel another ---------- */

  /** The life of one channel as if it were the only subscriber. */
  function Alone(ch: ChanId, state: Option<Chan>, op: Op): Option<Chan> {
    match op
    case Subscribe(job, k) => if k == ch && state.None? then Some(Chan(job, [], true)) else state
    case Publish(c) =>
      if state.Some? && state.value.open && state.value.job == c.job then Some(Deliver(state.value, c)) else state
    case Cancel(k) => if k == ch && state.Some? then Some(state.value.(open := false)) else state
    case Receive(k) =>
      if k == ch && state.Some? && state.value.buf != []
      then Some(state.value.(buf := state.value.buf[1..])) else state
  }

  function AloneExec(ch: ChanId, ops: seq<Op>): Option<Chan> {
    if ops == [] then None else Alone(ch, AloneExec(ch, ops[..|ops| - 1]), ops[|ops| - 1])
  }

  function ChanAt(h: Hub, ch: ChanId): Option<Chan> {
    if ch in h.chans then Some(h.chans[ch]) else None
  }

  lemma StepIsAlone(h: Hub, op: Op, ch: ChanId)
    requires Valid(h)
    ensures ChanAt(Step(h, op), ch) == Alone(ch, ChanAt(h, ch), op)
  {
  }

  /** Each subscriber sees exactly what it would see alone, whoever else is served, dropped or cancelled. */
  lemma {:induction false} SubscribersAreIndependent(ops: seq<Op>, ch: ChanId)
    ensures ChanAt(Exec(ops), ch) == AloneExec(ch, ops)
  {
    if ops != [] {
      var rest := ops[..|ops| - 1];
      SubscribersAreIndependent(rest, ch);
      RegistryIsSound(rest);
      StepIsAlone(Exec(rest), ops[|ops| - 1], ch);
    }
  }

  /** drained is what is left of buf after some receives. */
  ghost predicate Drains(buf: seq<Chunk>, drained: seq<Chunk>) {
    exists k :: 0 <= k <= |buf| && drained == buf[k..]
  }

  lemma DrainsOn(buf: seq<Chunk>, drained: seq<Chunk>)
    requires Drains(buf, drained)
    ensures drained != [] ==> Drains(buf, drained[1..])
  {
    var k :| 0 <= k <= |buf| && drained == buf[k..];
    if drained != [] {
      assert drained[1..] == buf[k + 1..];
    }
  }

  lemma ClosedStep(ch: ChanId, state: Option<Chan>, op: Op)
    requires state.Some? && !state.value.open
    ensures var next := Alone(ch, state, op);
      next.Some? && !next.value.open
      && (next.value.buf == state.value.buf || (state.value.buf != [] && next.value.buf == state.value.buf[1..]))
  {
  }

  lemma {:induction false} ClosedAlone(ops: seq<Op>, more: seq<Op>, ch: ChanId)
    requires AloneExec(ch, ops).Some? && !AloneExec(ch, ops).value.open
    ensures AloneExec(ch, ops + more).Some? && !AloneExec(ch, ops + more).value.open
    ensures Drains(AloneExec(ch, ops).value.buf, AloneExec(ch, ops + more).value.buf)
    decreases |more|
  {
    hide Alone, Drains;
    if more == [] {
      assert ops + more == ops;
      AllLeft(AloneExec(ch, ops).value.buf);
    } else {
      var shorter := more[..|more| - 1];
      assert (ops + more)[..|ops + more| - 1] == ops + shorter;
      ClosedAlone(ops, shorter, ch);
      ClosedStep(ch, AloneExec(ch, ops + shorter), (ops + more)[|ops + more| - 1]);
      DrainsOn(AloneExec(ch, ops).value.buf, AloneExec(ch, ops + shorter).value.buf);
    }
  }

  lemma AllLeft(buf: seq<Chunk>)
    ensures Drains(buf, buf)
  {
    assert buf == buf[0..];
  }

  /** A channel of the registry, once closed, stays closed for every continuation: it is never reopened
      or sent to, and its buffer only drains. */
  lemma ClosedStaysClosed(ops: seq<Op>, more: seq<Op>, ch: ChanId)
    requires ch in Exec(ops).chans && !Exec(ops).chans[ch].open
    ensures ch in Exec(ops + more).chans && !Exec(ops + more).chans[ch].open
    ensures Drains(Exec(ops).chans[ch].buf, Exec(ops + more).chans[ch].buf)
  {
    hide Exec, AloneExec, Drains;
    SubscribersAreIndependent(ops, ch);
    SubscribersAreIndependent(ops + more, ch);
    ClosedAlone(ops, more, ch);
  }

  /* ---------- the store ---------- */

  /** The chunk is persisted under the lease, with a seq from fromSeq on. */
  ghost predicate Found(c: Chunk, chunks: map<Key, Chunk>, lease: Option<LeaseId>, fromSeq: int) {
    lease.Some? && c.num >= fromSeq && (lease.value, c.num) in chunks && chunks[(lease.value, c.num)] == c
  }

  /** out lists exactly those chunks, in ascending order. */
  ghost predicate IsReplay(out: seq<Chunk>, chunks: map<Key, Chunk>, lease: Option<LeaseId>, fromSeq: int) {
    && (forall c :: c in out <==> Found(c, chunks, lease, fromSeq))
    && (forall i, j :: 0 <= i < j < |out| ==> out[i].num < out[j].num)
  }

  function CurrentLease(rows: Table, job: RowId): Option<LeaseId> {
    if job in rows then rows[job].lease else None
  }

  ghost predicate KeyedChunks(chunks: map<Key, Chunk>) {
    forall k :: k in chunks ==> chunks[k].lease == k.0 && chunks[k].num == k.1
  }

  predicate IsLeastSeq(s: set<Chunk>, m: Chunk) {
    m in s && forall k :: k in s ==> m.num <= k.num
  }

  predicate DistinctSeqs(s: set<Chunk>) {
    forall a, b :: a in s && b in s && a.num == b.num ==> a == b
  }

  lemma {:induction false} LeastSeqExists(s: set<Chunk>)
    requires s != {}
    ensures exists m :: IsLeastSeq(s, m)
  {
    var m :| m in s;
    if s == {m} {
      assert IsLeastSeq(s, m);
    } else {
      LeastSeqExists(s - {m});
      var n :| IsLeastSeq(s - {m}, n);
      var least := if n.num < m.num then n else m;
      forall k | k in s ensures least.num <= k.num {
        if k != m { assert k in s - {m}; }
      }
      assert IsLeastSeq(s, least);
    }
  }

  function LeastSeq(s: set<Chunk>): (m: Chunk)
    requires s != {} && DistinctSeqs(s)
    ensures IsLeastSeq(s, m)
  {
    LeastSeqExists(s);
    var m :| m in s && IsLeastSeq(s, m);
    m
  }

  /** ORDER BY seq. */
  function InSeqOrder(s: set<Chunk>): (out: seq<Chunk>)
    requires DistinctSeqs(s)
    ensures forall c :: c in out <==> c in s
    ensures forall i, j :: 0 <= i < j < |out| ==> out[i].num < out[j].num
  {
    if s == {} then [] else
      var m := LeastSeq(s);
      var rest := InSeqOrder(s - {m});
      assert forall j :: 0 <= j < |rest| ==> rest[j] in rest;
      [m] + rest
  }

  /** The persisted chunks of a lease from a seq on. */
  function ReplayOf(chunks: map<Key, Chunk>, lease: Option<LeaseId>, start: int): (out: seq<Chunk>)
    requires KeyedChunks(chunks)
    ensures IsReplay(out, chunks, lease, start)
  {
    hide InSeqOrder;
    if lease.None? then [] else
      var found := set k | k in chunks && k.0 == lease.value && k.1 >= start :: chunks[k];
      assert forall c :: c in found <==> Found(c, chunks, lease, start) by {
        assert forall c :: Found(c, chunks, lease, start) ==> (lease.value, c.num) in chunks;
      }
      InSeqOrder(found)
  }

  class Store {
    var chunks: map<Key, Chunk>
    var subs: map<RowId, set<ChanId>>
    var chans: map<ChanId, Chan>

    constructor ()
      ensures chunks == map[] && Registry() == Hub(map[], map[])
    {
      chunks, subs, chans := map[], map[], map[];
    }

    ghost function Registry(): Hub
      reads this
    {
      Hub(subs, chans)
    }

    /** INSERT ... ON CONFLICT DO NOTHING: the first payload of a (lease, seq) stays. */
    method Append(c: Chunk) returns (inserted: bool)
      requires KeyedChunks(chunks)
      modifies this`chunks
      ensures KeyedChunks(chunks)
      ensures inserted <==> (c.lease, c.num) !in old(chunks)
      ensures chunks == if inserted then old(chunks)[(c.lease, c.num) := c] else old(chunks)
    {
      inserted := (c.lease, c.num) !in chunks;
      if inserted { chunks := chunks[(c.lease, c.num) := c]; }
    }

    /** A send that would block is refused; sending on a closed channel would panic. */
    method TrySend(ch: ChanId, c: Chunk) returns (sent: bool)
      requires ch in chans && chans[ch].open
      modifies this`chans
      ensures sent <==> |old(chans)[ch].buf| < SUBSCRIBER_BUFFER
      ensures chans == if sent then old(chans)[ch := old(chans)[ch].(buf := old(chans)[ch].buf + [c])] else old(chans)
    {
      sent := |chans[ch].buf| < SUBSCRIBER_BUFFER;
      if sent { chans := chans[ch := chans[ch].(buf := chans[ch].buf + [c])]; }
    }

    /** Closing a closed channel would panic. */
    method Close(ch: ChanId)
      requires ch in chans && chans[ch].open
      modifies this`chans
      ensures chans == old(chans)[ch := old(chans)[ch].(open := false)]
    {
      chans := chans[ch := chans[ch].(open := false)];
    }

    method PublishTo(c: Chunk, listeners: set<ChanId>) returns (kept: set<ChanId>)
      requires forall ch :: ch in listeners ==> ch in chans && chans[ch].open
      modifies this`chans
      ensures chans == DeliverAll(old(chans), listeners, c) && kept == StillOpen(listeners, chans)
    {
      ghost var before := chans;
      var rest := listeners;
      kept := listeners;
      while rest != {}
        invariant rest <= listeners && chans.Keys == before.Keys && rest <= kept <= listeners
        invariant forall ch :: ch in before ==>
          chans[ch] == if ch in listeners && ch !in rest then Deliver(before[ch], c) else before[ch]
        invariant forall ch :: ch in listeners && ch !in rest ==> (ch in kept <==> chans[ch].open)
        decreases rest
      {
        var ch :| ch in rest;
        rest := rest - {ch};
        var sent := TrySend(ch, c);
        if !sent {
          kept := kept - {ch};
          Close(ch);
        }
      }
    }

    method Publish(c: Chunk)
      requires Valid(Registry())
      modifies this`subs, this`chans
      ensures Registry() == Step(old(Registry()), Op.Publish(c)) && Valid(Registry())
    {
      StepKeepsValid(Registry(), Op.Publish(c));
      if c.job !in subs {
        return;
      }
      var job := c.job;
      var kept := PublishTo(c, subs[job]);
      if |kept| == 0 { subs := subs - {job}; } else { subs := subs[job := kept]; }
    }

    method Subscribe(job: RowId, ch: ChanId)
      requires Valid(Registry()) && ch !in chans
      modifies this`subs, this`chans
      ensures Registry() == Step(old(Registry()), Op.Subscribe(job, ch)) && Valid(Registry())
    {
      StepKeepsValid(Registry(), Op.Subscribe(job, ch));
      chans := chans[ch := Chan(job, [], true)];
      subs := subs[job := Members(subs, job) + {ch}];
    }

    /** The cancel func of one subscription; safe to call any number of times. */
    method Cancel(job: RowId, ch: ChanId)
      requires Valid(Registry()) && ch in chans && chans[ch].job == job
      modifies this`subs, this`chans
      ensures Registry() == Step(old(Registry()), Op.Cancel(ch)) && Valid(Registry())
    {
      StepKeepsValid(Registry(), Op.Cancel(ch));
      if job in subs {
        var set0 := subs[job];
        if ch in set0 {
          set0 := set0 - {ch};
          Close(ch);
        }
        if |set0| == 0 { subs := subs - {job}; } else { subs := subs[job := set0]; }
      }
    }

    /** A receive that does not wait: None when nothing is buffered. */
    method Receive(ch: ChanId) returns (c: Option<Chunk>)
      requires Valid(Registry()) && ch in chans
      modifies this`chans
      ensures Registry() == Step(old(Registry()), Op.Receive(ch)) && Valid(Registry())
      ensures c == if old(chans)[ch].buf == [] then None else Some(old(chans)[ch].buf[0])
    {
      StepKeepsValid(Registry(), Op.Receive(ch));
      c := None;
      if chans[ch].buf != [] {
        c := Some(chans[ch].buf[0]);
        chans := chans[ch := chans[ch].(buf := chans[ch].buf[1..])];
      }
    }

    /** The chunks of the job's current lease, found by a join with the jobs table. */
    method ReplayFrom(rows: Table, job: RowId, fromSeq: int) returns (out: seq<Chunk>)
      requires KeyedChunks(chunks)
      ensures IsReplay(out, chunks, CurrentLease(rows, job), fromSeq)
      ensures forall c :: c in out <==> job in rows && rows[job].lease == Some(c.lease) && c.num >= fromSeq
                                        && (c.lease, c.num) in chunks && chunks[(c.lease, c.num)] == c
    {
      out := ReplayOf(chunks, CurrentLease(rows, job), fromSeq);
    }
  }
}
