/** One job's log from runner to browser (internal/dispatch/service.go:318-334, internal/api/logs.go:204-384):
    chunks are appended and then published, while an SSE connection subscribes, replays, follows the
    live channel, resynchronizes or finishes, breaks, and is resumed by the client.  Every database
    read, channel operation and write is one step, and any of them may interleave. */
module LogBridge {
  import opened Jobs
  import opened LogStore

  /** Where logsSSEHandler stands. */
  datatype Pc =
    | Connecting
    | Subscribed
    /** Chunks of the first replay still to be written. */
    | Replaying(todo: seq<Chunk>)
    | Live
    /** The channel was closed under us: chunks of the resync still to be written. */
    | Resyncing(todo: seq<Chunk>)
    /** The job is over: emptying the channel without blocking. */
    | Draining
    /** The channel was found empty: the final replay is still to be read. */
    | Drained
    /** Chunks of the final replay still to be written; ok tells whether that replay succeeded. */
    | Finishing(todo: seq<Chunk>, ok: bool)
    /** The end event was written. */
    | Ended(ok: bool)
    | Broken

  /** chunks is the log_chunks table and inflight the appended chunks whose publish is still to come.
      got is what the client received on earlier connections, out what this one has written.
      History: order lists the chunks as appended, sent those published, base is the place in order of
      the channel's next chunk, read is how much of order the last database read saw. */
  datatype World = World(
    chunks: map<Key, Chunk>, inflight: seq<Chunk>, lease: Option<LeaseId>,
    pc: Pc, chan: Chan, start: int, lastSeq: int, out: seq<Chunk>, origin: int, got: seq<Chunk>,
    order: seq<Chunk>, sent: seq<Chunk>, base: nat, read: nat)

  datatype Action =
    | Append(c: Chunk)
    | Publish(i: nat)
    | ReLease(lease: Option<LeaseId>)
    | Subscribe
    | Replay(found: seq<Chunk>)
    | WriteNext
    | EndReplay(over: bool)
    | Receive
    | Resync(found: seq<Chunk>)
    | SeeOver
    | StopDraining
    | Finish(found: seq<Chunk>, ok: bool)
    | WriteEnd
    | Break
    | Reconnect(k: nat)

  predicate Listening(pc: Pc) {
    pc.Subscribed? || pc.Replaying? || pc.Live? || pc.Draining? || pc.Drained?
  }

  predicate HasTodo(pc: Pc) {
    (pc.Replaying? || pc.Resyncing? || pc.Finishing?) && pc.todo != []
  }

  ghost predicate Enabled(w: World, a: Action) {
    match a
    case Append(c) => true
    case Publish(i) => i < |w.inflight|
    case ReLease(l) => true
    case Subscribe => w.pc.Connecting?
    case Replay(found) => w.pc.Subscribed? && IsReplay(found, w.chunks, w.lease, w.start)
    case WriteNext => HasTodo(w.pc)
    case EndReplay(over) => w.pc.Replaying? && w.pc.todo == []
    case Receive => (w.pc.Live? || w.pc.Draining?) && w.chan.buf != []
    case Resync(found) =>
        w.pc.Live? && w.chan.buf == [] && !w.chan.open && IsReplay(found, w.chunks, w.lease, w.lastSeq + 1)
    case SeeOver => w.pc.Live?
    case StopDraining => w.pc.Draining? && w.chan.buf == []
    case Finish(found, ok) =>
        w.pc.Drained? && if ok then IsReplay(found, w.chunks, w.lease, w.lastSeq + 1) else found == []
    case WriteEnd => w.pc.Finishing? && w.pc.todo == []
    case Break => true
    case Reconnect(k) => k <= |w.out|
  }

  /** The chunk is written unless it was already sent. */
  function Offer(w: World, c: Chunk): World {
    if c.num <= w.lastSeq then w else w.(out := w.out + [c], lastSeq := c.num)
  }

  function Resume(origin: int, got: seq<Chunk>): int {
    if got == [] then origin else got[|got| - 1].num + 1
  }

  /** A new connection asking for everything from start on. */
  function Connect(w: World, got: seq<Chunk>): World {
    var start := Resume(w.origin, got);
    w.(pc := Connecting, start := start, lastSeq := start - 1, out := [], got := got)
  }

  function Apply(w: World, a: Action): World
    requires Enabled(w, a)
  {
    match a
    case Append(c) =>
      if (c.lease, c.num) in w.chunks then w
      else w.(chunks := w.chunks[(c.lease, c.num) := c], inflight := w.inflight + [c], order := w.order + [c])
    case Publish(i) =>
      var u := w.(inflight := w.inflight[..i] + w.inflight[i + 1..], sent := w.sent + [w.inflight[i]]);
      if Listening(w.pc) && w.chan.open then u.(chan := Deliver(w.chan, w.inflight[i])) else u
    case ReLease(l) => w.(lease := l)
    case Subscribe => w.(pc := Subscribed, chan := Chan(0, [], true), base := Published(w))
    case Replay(found) => w.(pc := Replaying(found), read := |w.order|)
    case WriteNext => w.(pc := w.pc.(todo := w.pc.todo[1..]), out := w.out + [w.pc.todo[0]],
        lastSeq := w.pc.todo[0].num)
    case EndReplay(over) => w.(pc := if over then Draining else Live)
    case Receive => Offer(w, w.chan.buf[0]).(chan := w.chan.(buf := w.chan.buf[1..]), base := w.base + 1)
    case Resync(found) => w.(pc := Resyncing(found), read := |w.order|)
    case SeeOver => w.(pc := Draining)
    case StopDraining => w.(pc := Drained)
    case Finish(found, ok) => w.(pc := Finishing(found, ok), read := |w.order|)
    case WriteEnd => w.(pc := Ended(w.pc.ok))
    case Break => w.(pc := Broken)
    case Reconnect(k) => Connect(w, w.got + w.out[..k])
  }

  function Published(w: World): nat {
    if |w.inflight| <= |w.order| then |w.order| - |w.inflight| else 0
  }

  ghost predicate Opening(w: World) {
    && w.chunks == map[] && w.inflight == [] && w.order == [] && w.sent == [] && w.read == 0 && w.got == [] &&
        w == Connect(w, [])
  }

  /** ws is a run whose steps all satisfy the given discipline. */
  ghost predicate IsRun(ws: seq<World>, orderly: bool) {
    && |ws| > 0 && Opening(ws[0])
    && forall i :: 0 <= i < |ws| - 1 ==> Follows(ws[i], ws[i + 1], orderly)
  }

  ghost predicate Follows(w: World, w': World, orderly: bool) {
    exists a :: Enabled(w, a) && (orderly ==> Orderly(w, a)) && w' == Apply(w, a)
  }

  /** One lease for the job, its chunks appended in increasing seq order and published in that order. */
  ghost predicate Orderly(w: World, a: Action) {
    match a
    case Append(c) => Some(c.lease) == w.lease &&
        ((c.lease, c.num) in w.chunks || forall i :: 0 <= i < |w.order| ==> w.order[i].num < c.num)
    case Publish(i) => i == 0
    case ReLease(l) => false
    case _ => true
  }

  /* ---------- under any schedule: seqs strictly increase ---------- */

  ghost predicate Increasing(s: seq<Chunk>) {
    forall i, j :: 0 <= i < j < |s| ==> s[i].num < s[j].num
  }

  ghost predicate TodoOk(pc: Pc, lastSeq: int) {
    (pc.Replaying? || pc.Resyncing? || pc.Finishing?) ==>
      Increasing(pc.todo) && forall i :: 0 <= i < |pc.todo| ==> pc.todo[i].num > lastSeq
  }

  ghost predicate WritesIncrease(w: World) {
    && Increasing(w.out) && (forall i :: 0 <= i < |w.out| ==> w.start <= w.out[i].num <= w.lastSeq)
    && w.lastSeq >= w.start - 1 && (w.pc.Connecting? || w.pc.Subscribed? ==> w.lastSeq == w.start - 1)
    && TodoOk(w.pc, w.lastSeq)
  }

  lemma StepKeepsIncrease(w: World, a: Action)
    requires WritesIncrease(w) && Enabled(w, a)
    ensures WritesIncrease(Apply(w, a))
  {
    hide WritesIncrease, Enabled, Apply, Offer;
    match a
    case WriteNext => WriteIncreases(w);
    case Receive => ReceiveIncreases(w);
    case Replay(found) => ReadIncreases(w, a);
    case Resync(found) => ReadIncreases(w, a);
    case Finish(found, ok) => ReadIncreases(w, a);
    case Reconnect(k) => ConnectIncreases(w, k);
    case _ => OthersIncrease(w, a);
  }

  lemma GrownIncreases(s: seq<Chunk>, c: Chunk, start: int, last: int)
    requires Increasing(s) && (forall i :: 0 <= i < |s| ==> start <= s[i].num <= last) && c.num > last && start <= c.num
    ensures Increasing(s + [c]) && forall i :: 0 <= i < |s + [c]| ==> start <= (s + [c])[i].num <= c.num
  {
  }

  lemma WriteIncreases(w: World)
    requires WritesIncrease(w) && Enabled(w, WriteNext)
    ensures WritesIncrease(Apply(w, WriteNext))
  {
    hide Increasing;
    var todo := w.pc.todo;
    GrownIncreases(w.out, todo[0], w.start, w.lastSeq);
    TailIncreases(todo);
  }

  lemma TailIncreases(s: seq<Chunk>)
    requires Increasing(s) && s != []
    ensures Increasing(s[1..]) && forall i :: 0 <= i < |s[1..]| ==> s[1..][i].num > s[0].num
  {
  }

  lemma ReceiveIncreases(w: World)
    requires WritesIncrease(w) && Enabled(w, Action.Receive)
    ensures WritesIncrease(Apply(w, Action.Receive))
  {
    hide Increasing;
    if w.chan.buf[0].num > w.lastSeq {
      GrownIncreases(w.out, w.chan.buf[0], w.start, w.lastSeq);
    }
  }

  lemma ReadIncreases(w: World, a: Action)
    requires WritesIncrease(w) && Enabled(w, a) && (a.Replay? || a.Resync? || a.Finish?)
    ensures WritesIncrease(Apply(w, a))
  {
    hide IsReplay, Increasing;
    if !a.Finish? || a.ok {
      ReplayIncreases(a.found, w.chunks, w.lease, w.lastSeq + 1);
    } else {
      NothingIncreases();
    }
  }

  lemma ReplayIncreases(found: seq<Chunk>, chunks: map<Key, Chunk>, lease: Option<LeaseId>, start: int)
    requires IsReplay(found, chunks, lease, start)
    ensures Increasing(found) && forall i :: 0 <= i < |found| ==> found[i].num >= start
  {
    forall i | 0 <= i < |found| ensures found[i].num >= start {
      assert found[i] in found;
    }
  }

  lemma NothingIncreases()
    ensures Increasing([])
  {
  }

  lemma ConnectIncreases(w: World, k: nat)
    requires Enabled(w, Action.Reconnect(k))
    ensures WritesIncrease(Apply(w, Action.Reconnect(k)))
  {
    hide IsReplay;
  }

  lemma OthersIncrease(w: World, a: Action)
    requires WritesIncrease(w) && Enabled(w, a)
    requires !a.WriteNext? && !a.Receive? && !a.Replay? && !a.Resync? && !a.Finish? && !a.Reconnect?
    ensures WritesIncrease(Apply(w, a))
  {
    hide IsReplay, Increasing, Deliver;
    if a.EndReplay? || a.Break? || a.WriteEnd? {
      NothingIncreases();
    }
  }

  /** The first payload of a (lease, seq) is kept, and each is handed to the publisher exactly once. */
  ghost predicate AppendedOnce(w: World) {
    && (forall k :: k in w.chunks ==> w.chunks[k].lease == k.0 && w.chunks[k].num == k.1)
    && (forall i :: 0 <= i < |w.order| ==>
        (w.order[i].lease, w.order[i].num) in w.chunks && w.chunks[(w.order[i].lease, w.order[i].num)] == w.order[i])
    && (forall i, j :: 0 <= i < j < |w.order| ==>
        (w.order[i].lease, w.order[i].num) != (w.order[j].lease, w.order[j].num))
    && (forall k :: k in w.chunks ==> w.chunks[k] in w.order)
  }

  lemma StepAppendsOnce(w: World, a: Action)
    requires AppendedOnce(w) && Enabled(w, a)
    ensures AppendedOnce(Apply(w, a))
  {
    hide IsReplay, Deliver;
    if a.Append? {
      AppendsOnce(w, a.c);
    } else {
      SameTable(w, a);
    }
  }

  lemma SameTable(w: World, a: Action)
    requires Enabled(w, a) && !a.Append?
    ensures Apply(w, a).chunks == w.chunks && Apply(w, a).order == w.order
  {
    hide IsReplay, Deliver;
  }

  lemma AppendsOnce(w: World, c: Chunk)
    requires AppendedOnce(w)
    ensures AppendedOnce(Apply(w, Action.Append(c)))
  {
    hide IsReplay;
  }

  /** Every appended chunk is published once or still to be: nothing is published twice or invented. */
  ghost predicate PublishedOnce(w: World) {
    multiset(w.sent) + multiset(w.inflight) == multiset(w.order)
  }

  lemma StepPublishesOnce(w: World, a: Action)
    requires PublishedOnce(w) && Enabled(w, a)
    ensures PublishedOnce(Apply(w, a))
  {
    hide IsReplay, Deliver, Offer;
    match a
    case Publish(i) => PublishesOnce(w, i);
    case Append(c) =>
    case _ => SameOrder(w, a);
  }

  lemma SameOrder(w: World, a: Action)
    requires Enabled(w, a) && !a.Append? && !a.Publish?
    ensures var u := Apply(w, a); u.sent == w.sent && u.inflight == w.inflight && u.order == w.order
  {
    hide IsReplay, Deliver;
  }

  lemma PublishesOnce(w: World, i: nat)
    requires PublishedOnce(w) && Enabled(w, Action.Publish(i))
    ensures PublishedOnce(Apply(w, Action.Publish(i)))
  {
    hide IsReplay, Deliver;
    TakenOut(w.inflight, i);
  }

  lemma TakenOut(s: seq<Chunk>, i: nat)
    requires i < |s|
    ensures multiset(s[..i] + s[i + 1..]) + multiset([s[i]]) == multiset(s)
  {
    assert s == s[..i] + [s[i]] + s[i + 1..];
  }

  /** For every publisher order, duplicate send, re-lease and resync: the seqs one connection writes
      strictly increase, the first payload of a (lease, seq) stays, and it is published at most once. */
  lemma {:induction false} IdsIncrease(ws: seq<World>, orderly: bool, i: nat)
    requires IsRun(ws, orderly) && i < |ws|
    ensures WritesIncrease(ws[i]) && AppendedOnce(ws[i]) && PublishedOnce(ws[i])
  {
    hide WritesIncrease, AppendedOnce, PublishedOnce, Enabled, Apply, Orderly;
    if i == 0 {
      OpeningIsOk(ws[0]);
    } else {
      IdsIncrease(ws, orderly, i - 1);
      assert Follows(ws[i - 1], ws[i - 1 + 1], orderly);
      var a :| Enabled(ws[i - 1], a) && ws[i] == Apply(ws[i - 1], a);
      StepKeepsIncrease(ws[i - 1], a);
      StepAppendsOnce(ws[i - 1], a);
      StepPublishesOnce(ws[i - 1], a);
    }
  }

  /** The log only grows: a persisted (lease, seq) keeps the payload it first had, for the rest of every run. */
  lemma {:induction false} FirstPayloadStays(ws: seq<World>, orderly: bool, i: nat, j: nat)
    requires IsRun(ws, orderly) && i <= j < |ws|
    ensures ws[i].order <= ws[j].order
    ensures forall k :: k in ws[i].chunks ==> k in ws[j].chunks && ws[j].chunks[k] == ws[i].chunks[k]
    decreases j
  {
    hide Enabled, Apply, Orderly, Opening;
    if i < j {
      FirstPayloadStays(ws, orderly, i, j - 1);
      assert Follows(ws[j - 1], ws[j - 1 + 1], orderly);
      var a :| Enabled(ws[j - 1], a) && ws[j] == Apply(ws[j - 1], a);
      LogGrows(ws[j - 1], a);
    }
  }

  lemma LogGrows(w: World, a: Action)
    requires Enabled(w, a)
    ensures var u := Apply(w, a); w.order <= u.order && forall k :: k in w.chunks ==>
        k in u.chunks && u.chunks[k] == w.chunks[k]
  {
    hide IsReplay, Deliver;
  }

  lemma OpeningIsOk(w: World)
    requires Opening(w)
    ensures WritesIncrease(w) && AppendedOnce(w) && PublishedOnce(w)
  {
  }
}
