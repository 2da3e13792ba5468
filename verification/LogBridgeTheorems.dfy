/** With one lease and in-order appends, what the client holds is always exactly the log so far:
    no gap and no duplicate, across replay, live delivery, overflow, resync and reconnects. */
module LogBridgeTheorems {
  import opened Jobs
  import opened LogStore
  import opened LogBridge

  /** The chunks with lo <= seq <= hi, in order. */
  function Between(s: seq<Chunk>, lo: int, hi: int): seq<Chunk> {
    if s == [] then [] else
      var c := s[|s| - 1];
      Between(s[..|s| - 1], lo, hi) + if lo <= c.num <= hi then [c] else []
  }

  /** The chunks with seq >= lo, in order: the whole log as the client asked for it. */
  function From(s: seq<Chunk>, lo: int): seq<Chunk> {
    if s == [] then [] else
      var c := s[|s| - 1];
      From(s[..|s| - 1], lo) + if lo <= c.num then [c] else []
  }

  lemma {:induction false} BetweenMember(s: seq<Chunk>, lo: int, hi: int, c: Chunk)
    ensures c in Between(s, lo, hi) <==> c in s && lo <= c.num <= hi
  {
    if s != [] {
      var n := |s| - 1;
      BetweenMember(s[..n], lo, hi, c);
      assert s == s[..n] + [s[n]];
    }
  }

  lemma {:induction false} BetweenSame(s: seq<Chunk>, lo: int, hi: int, hi': int)
    requires forall i :: 0 <= i < |s| ==> s[i].num <= hi && s[i].num <= hi'
    ensures Between(s, lo, hi) == Between(s, lo, hi')
  {
    if s != [] { BetweenSame(s[..|s| - 1], lo, hi, hi'); }
  }

  /** Writing the first chunk above last extends the written range by that chunk. */
  lemma {:induction false} BetweenNext(s: seq<Chunk>, lo: int, last: int, k: nat)
    requires Increasing(s) && k < |s| && (forall i :: 0 <= i < k ==> s[i].num <= last) && s[k].num > last
    requires lo <= last + 1
    ensures Between(s, lo, s[k].num) == Between(s, lo, last) + [s[k]]
  {
    var n := |s| - 1;
    if k == n {
      BetweenSame(s[..n], lo, last, s[k].num);
    } else {
      BetweenNext(s[..n], lo, last, k);
    }
  }

  lemma BetweenAppend(s: seq<Chunk>, c: Chunk, lo: int, hi: int)
    requires c.num > hi || c.num < lo
    ensures Between(s + [c], lo, hi) == Between(s, lo, hi)
  {
    assert (s + [c])[..|s|] == s;
  }

  lemma {:induction false} BetweenEmpty(s: seq<Chunk>, lo: int, hi: int)
    requires hi < lo
    ensures Between(s, lo, hi) == []
  {
    if s != [] { BetweenEmpty(s[..|s| - 1], lo, hi); }
  }

  lemma {:induction false} BetweenJoin(s: seq<Chunk>, lo: int, mid: int, hi: int)
    requires Increasing(s) && lo <= mid + 1 && mid <= hi
    ensures Between(s, lo, mid) + Between(s, mid + 1, hi) == Between(s, lo, hi)
  {
    if s != [] {
      var n := |s| - 1;
      var a, b := Between(s[..n], lo, mid), Between(s[..n], mid + 1, hi);
      BetweenJoin(s[..n], lo, mid, hi);
      if s[n].num <= mid {
        BetweenBelow(s[..n], mid + 1, hi);
        assert Between(s, mid + 1, hi) == [];
      } else {
        assert Between(s, lo, mid) == a;
        assert a + (b + [s[n]]) == (a + b) + [s[n]];
      }
    }
  }

  lemma {:induction false} BetweenBelow(s: seq<Chunk>, lo: int, hi: int)
    requires forall i :: 0 <= i < |s| ==> s[i].num < lo
    ensures Between(s, lo, hi) == []
  {
    if s != [] { BetweenBelow(s[..|s| - 1], lo, hi); }
  }

  lemma {:induction false} BetweenIncreases(s: seq<Chunk>, lo: int, hi: int)
    requires Increasing(s)
    ensures Increasing(Between(s, lo, hi))
  {
    if s != [] {
      var n := |s| - 1;
      BetweenIncreases(s[..n], lo, hi);
      forall i | 0 <= i < |Between(s[..n], lo, hi)| ensures Between(s[..n], lo, hi)[i].num < s[n].num {
        var c := Between(s[..n], lo, hi)[i];
        BetweenMember(s[..n], lo, hi, c);
        assert c in s[..n];
      }
    }
  }

  /** A prefix of a range is the range up to its own last chunk. */
  lemma {:induction false} BetweenPrefix(s: seq<Chunk>, lo: int, hi: int, k: nat)
    requires Increasing(s) && k <= |Between(s, lo, hi)|
    ensures var r := Between(s, lo, hi); r[..k] == Between(s, lo, if k == 0 then lo - 1 else r[k - 1].num)
    decreases |Between(s, lo, hi)| - k
  {
    var r := Between(s, lo, hi);
    if k == 0 {
      BetweenEmpty(s, lo, lo - 1);
    } else {
      BetweenIncreases(s, lo, hi);
      BetweenIncreases(s, lo, r[k - 1].num);
      var q := Between(s, lo, r[k - 1].num);
      BetweenMember(s, lo, hi, r[k - 1]);
      forall c ensures c in r[..k] <==> c in q {
        BetweenMember(s, lo, hi, c);
        BetweenMember(s, lo, r[k - 1].num, c);
        if c in q {
          var i :| 0 <= i < |r| && r[i] == c;
        }
      }
      SortedEqual(r[..k], q);
    }
  }

  lemma {:induction false} SortedEqual(a: seq<Chunk>, b: seq<Chunk>)
    requires Increasing(a) && Increasing(b) && forall c :: c in a <==> c in b
    ensures a == b
  {
    hide Increasing;
    if a == [] {
      HasMember(b);
    } else {
      var n, m := |a| - 1, |b| - 1;
      SameLast(a, b);
      InitIncreases(a);
      InitIncreases(b);
      forall c ensures c in a[..n] <==> c in b[..m] {
        SortedInit(a, b, c);
        SortedInit(b, a, c);
      }
      SortedEqual(a[..n], b[..m]);
      assert a == a[..n] + [a[n]] && b == b[..m] + [b[m]];
    }
  }

  lemma SameLast(a: seq<Chunk>, b: seq<Chunk>)
    requires Increasing(a) && Increasing(b) && a != [] && forall c :: c in a <==> c in b
    ensures b != [] && a[|a| - 1] == b[|b| - 1]
  {
    assert a[|a| - 1] in b;
    assert b[|b| - 1] in a;
  }

  lemma InitIncreases(s: seq<Chunk>)
    requires Increasing(s) && s != []
    ensures Increasing(s[..|s| - 1])
  {
  }

  lemma HasMember(s: seq<Chunk>)
    ensures s != [] ==> exists c :: c in s
  {
    if s != [] { assert s[0] in s; }
  }

  lemma SortedInit(a: seq<Chunk>, b: seq<Chunk>, c: Chunk)
    requires Increasing(a) && Increasing(b) && a != [] && b != [] && a[|a| - 1] == b[|b| - 1] && (c in a ==> c in b)
    ensures c in a[..|a| - 1] ==> c in b[..|b| - 1]
  {
    if c in a[..|a| - 1] {
      var i :| 0 <= i < |b| && b[i] == c;
      assert i < |b| - 1 && b[..|b| - 1][i] == c;
    }
  }

  lemma {:induction false} BetweenIsPrefix(s: seq<Chunk>, lo: int, hi: int)
    requires Increasing(s)
    ensures Between(s, lo, hi) <= From(s, lo)
  {
    if s != [] {
      var n := |s| - 1;
      BetweenIsPrefix(s[..n], lo, hi);
      if lo <= s[n].num <= hi {
        BetweenAll(s[..n], lo, hi);
      }
    }
  }

  lemma {:induction false} BetweenAll(s: seq<Chunk>, lo: int, hi: int)
    requires forall i :: 0 <= i < |s| ==> s[i].num <= hi
    ensures Between(s, lo, hi) == From(s, lo)
  {
    if s != [] { BetweenAll(s[..|s| - 1], lo, hi); }
  }

  /** A range followed by everything above it is the whole log from its start. */
  lemma {:induction false} RangeThenRest(s: seq<Chunk>, lo: int, hi: int, k: nat)
    requires k <= |s| && lo <= hi + 1
    requires (forall i :: 0 <= i < k ==> s[i].num <= hi) && forall i :: k <= i < |s| ==> s[i].num > hi
    ensures Between(s, lo, hi) + s[k..] == From(s, lo)
  {
    if k == |s| {
      BetweenAll(s, lo, hi);
    } else {
      var n := |s| - 1;
      RangeThenRest(s[..n], lo, hi, k);
      assert s[k..] == s[..n][k..] + [s[n]];
      assert Between(s, lo, hi) == Between(s[..n], lo, hi);
    }
  }

  /* ---------- the invariant ---------- */

  /** One lease, appended in order, published in order. */
  ghost predicate InOrder(w: World) {
    && Increasing(w.order) && w.read <= |w.order|
    && (forall i :: 0 <= i < |w.order| ==> Some(w.order[i].lease) == w.lease)
    && |w.inflight| <= |w.order| && w.inflight == w.order[Published(w)..]
  }

  /** Every chunk before place n was sent, or lies below what was asked for. */
  ghost predicate Covered(w: World, n: nat) {
    forall i :: 0 <= i < n && i < |w.order| ==> w.order[i].num <= w.lastSeq
  }

  /** The channel holds a stretch of the log, up to the last published chunk while it is open. */
  ghost predicate ChannelOk(w: World) {
    Listening(w.pc) ==>
      && w.base + |w.chan.buf| <= Published(w)
      && w.chan.buf == w.order[w.base..w.base + |w.chan.buf|]
      && (w.chan.open ==> w.base + |w.chan.buf| == Published(w))
  }

  /** What is still to be written is the rest of what was read. */
  ghost predicate TodoIs(w: World, todo: seq<Chunk>) {
    |todo| <= w.read && w.read <= |w.order| && todo == w.order[w.read - |todo|..w.read] && Covered(w, w.read - |todo|)
  }

  /** With todo written, the client holds all that the last read saw. */
  ghost predicate Completes(w: World, todo: seq<Chunk>) {
    w.read <= |w.order| && w.got + w.out + todo == From(w.order[..w.read], w.origin)
  }

  ghost predicate PlaceOk(w: World) {
    match w.pc
    case Replaying(todo) => TodoIs(w, todo) && w.base <= w.read
    case Live => Covered(w, w.base)
    case Draining => Covered(w, w.base)
    case Drained => Covered(w, w.base)
    case Resyncing(todo) => TodoIs(w, todo)
    case Finishing(todo, ok) => if ok then TodoIs(w, todo) && Completes(w, todo) else todo == []
    case Ended(ok) => ok ==> Completes(w, [])
    case _ => true
  }

  /** A bound is either just below what was asked for, or not above the newest chunk. */
  ghost predicate Bounded(w: World, lo: int, hi: int) {
    lo - 1 <= hi && (hi == lo - 1 || (w.order != [] && hi <= w.order[|w.order| - 1].num))
  }

  ghost predicate Delivered(w: World) {
    && w.out == Between(w.order, w.start, w.lastSeq) && Bounded(w, w.start, w.lastSeq)
    && w.got == Between(w.order, w.origin, w.start - 1) && Bounded(w, w.origin, w.start - 1)
  }

  ghost predicate Bridged(w: World) {
    InOrder(w) && ChannelOk(w) && PlaceOk(w) && Delivered(w)
  }

  /* ---------- the steps that move chunks ---------- */

  lemma AppendKeeps(w: World, c: Chunk)
    requires Bridged(w) && AppendedOnce(w) && Orderly(w, Action.Append(c))
    ensures Bridged(Apply(w, Action.Append(c)))
  {
    hide InOrder, ChannelOk, PlaceOk, Delivered, AppendedOnce;
    if (c.lease, c.num) !in w.chunks {
      var u := Apply(w, Action.Append(c));
      AppendInOrder(w, u, c);
      AppendChannel(w, u, c);
      AppendPlace(w, u, c);
      AppendDelivered(w, u, c);
    }
  }

  /** A chunk newer than all others was persisted and is to be published after them. */
  ghost predicate Grown(w: World, u: World, c: Chunk) {
    && u == w.(chunks := u.chunks, inflight := w.inflight + [c], order := w.order + [c])
    && Some(c.lease) == w.lease && forall i :: 0 <= i < |w.order| ==> w.order[i].num < c.num
  }

  lemma AppendInOrder(w: World, u: World, c: Chunk)
    requires InOrder(w) && Grown(w, u, c)
    ensures InOrder(u) && Published(u) == Published(w)
  {
    hide Increasing;
    IncreasingAppend(w.order, c);
  }

  lemma AppendChannel(w: World, u: World, c: Chunk)
    requires InOrder(w) && ChannelOk(w) && Grown(w, u, c)
    ensures ChannelOk(u)
  {
    hide Increasing;
    assert Published(u) == Published(w);
  }

  lemma AppendPlace(w: World, u: World, c: Chunk)
    requires InOrder(w) && ChannelOk(w) && PlaceOk(w) && Grown(w, u, c)
    ensures PlaceOk(u)
  {
    hide Increasing, From;
    assert u.order[..u.read] == w.order[..w.read];
    forall n: nat | Covered(w, n) && n <= |w.order| ensures Covered(u, n) {
    }
  }

  lemma AppendDelivered(w: World, u: World, c: Chunk)
    requires InOrder(w) && Delivered(w) && Grown(w, u, c)
    ensures Delivered(u)
  {
    hide Increasing, Between, Published;
    BetweenAfterAppend(w, c, w.start, w.lastSeq);
    BetweenAfterAppend(w, c, w.origin, w.start - 1);
    assert w.order != [] ==> w.order[|w.order| - 1].num < c.num;
  }

  lemma BetweenAfterAppend(w: World, c: Chunk, lo: int, hi: int)
    requires Bounded(w, lo, hi) && forall i :: 0 <= i < |w.order| ==> w.order[i].num < c.num
    ensures Between(w.order + [c], lo, hi) == Between(w.order, lo, hi)
  {
    if hi == lo - 1 {
      BetweenEmpty(w.order, lo, hi);
      BetweenEmpty(w.order + [c], lo, hi);
    } else {
      BetweenAppend(w.order, c, lo, hi);
    }
  }

  lemma IncreasingAppend(s: seq<Chunk>, c: Chunk)
    requires Increasing(s) && forall i :: 0 <= i < |s| ==> s[i].num < c.num
    ensures Increasing(s + [c])
  {
  }

  lemma BelowLast(s: seq<Chunk>, k: nat)
    requires Increasing(s) && k < |s|
    ensures s[k].num <= s[|s| - 1].num
  {
  }

  lemma PublishKeeps(w: World)
    requires Bridged(w) && Enabled(w, Action.Publish(0))
    ensures Bridged(Apply(w, Action.Publish(0)))
  {
    hide InOrder, ChannelOk, PlaceOk, Delivered;
    PublishInOrder(w);
    PublishChannel(w);
    PublishRest(w);
  }

  lemma PublishInOrder(w: World)
    requires InOrder(w) && w.inflight != []
    ensures InOrder(Apply(w, Action.Publish(0)))
  {
    hide Increasing;
  }

  lemma PublishChannel(w: World)
    requires InOrder(w) && ChannelOk(w) && w.inflight != []
    ensures ChannelOk(Apply(w, Action.Publish(0)))
  {
    hide Increasing;
    assert Published(Apply(w, Action.Publish(0))) == Published(w) + 1;
    assert w.inflight[0] == w.order[Published(w)];
  }

  lemma PublishRest(w: World)
    requires PlaceOk(w) && Delivered(w) && w.inflight != []
    ensures PlaceOk(Apply(w, Action.Publish(0))) && Delivered(Apply(w, Action.Publish(0)))
  {
    hide PlaceOk, Delivered, Deliver, Covered;
    var u := Apply(w, Action.Publish(0));
    SameDelivered(w, u);
    SamePlace(w, u);
  }

  lemma SamePlace(w: World, u: World)
    requires PlaceOk(w) && u.pc == w.pc && u.order == w.order && u.lastSeq == w.lastSeq && u.base == w.base
    requires u.read == w.read && u.got == w.got && u.out == w.out && u.origin == w.origin
    ensures PlaceOk(u)
  {
    hide From;
  }

  /** A read of the table returns exactly the rest of the log above what was sent. */
  lemma ReplayIsSuffix(w: World, found: seq<Chunk>)
    requires InOrder(w) && Increasing(w.order) && Increasing(found) && AppendedOnce(w)
    requires IsReplay(found, w.chunks, w.lease, w.lastSeq + 1)
    ensures |found| <= |w.order| && found == w.order[|w.order| - |found|..]
    ensures Covered(w, |w.order| - |found|)
    ensures forall i :: |w.order| - |found| <= i < |w.order| ==> w.order[i].num > w.lastSeq
  {
    hide InOrder, AppendedOnce, IsReplay;
    var k := FirstAbove(w.order, w.lastSeq);
    FoundIsAbove(w, found, k);
    SortedEqual(found, w.order[k..]);
  }

  lemma FoundIsAbove(w: World, found: seq<Chunk>, k: nat)
    requires InOrder(w) && AppendedOnce(w) && IsReplay(found, w.chunks, w.lease, w.lastSeq + 1) && k <= |w.order|
    requires (forall i :: 0 <= i < k ==> w.order[i].num <= w.lastSeq)
    requires forall i :: k <= i < |w.order| ==> w.order[i].num > w.lastSeq
    ensures forall c :: c in found <==> c in w.order[k..]
  {
    hide InOrder, AppendedOnce;
    forall c ensures c in found <==> c in w.order[k..] {
      LogIsFound(w, c);
      if c in w.order[k..] {
        var i :| k <= i < |w.order| && w.order[i] == c;
      }
      if c in found {
        var i :| 0 <= i < |w.order| && w.order[i] == c;
        assert w.order[k..][i - k] == c;
      }
    }
  }

  /** Under one lease a chunk is found from some seq on exactly if it was appended and lies there. */
  lemma LogIsFound(w: World, c: Chunk)
    requires InOrder(w) && AppendedOnce(w)
    ensures forall n :: Found(c, w.chunks, w.lease, n) <==> c in w.order && c.num >= n
  {
    hide Increasing, Published;
    if c in w.order {
      var i :| 0 <= i < |w.order| && w.order[i] == c;
      assert Some(w.order[i].lease) == w.lease;
    }
    if w.lease.Some? && (w.lease.value, c.num) in w.chunks && w.chunks[(w.lease.value, c.num)] == c {
      assert c in w.order;
    }
  }

  lemma FirstAbove(s: seq<Chunk>, last: int) returns (k: nat)
    requires Increasing(s)
    ensures k <= |s| && (forall i :: 0 <= i < k ==> s[i].num <= last) && (forall i :: k <= i < |s| ==> s[i].num > last)
  {
    k := 0;
    while k < |s| && s[k].num <= last
      invariant k <= |s| && forall i :: 0 <= i < k ==> s[i].num <= last
    {
      k := k + 1;
    }
  }

  lemma ReadKeeps(w: World, a: Action)
    requires Bridged(w) && AppendedOnce(w) && WritesIncrease(w) && Enabled(w, a)
    requires (a.Replay? || a.Resync? || a.Finish?)
    ensures Bridged(Apply(w, a))
  {
    hide IsReplay, Increasing, AppendedOnce, InOrder, ChannelOk, PlaceOk, Delivered, WritesIncrease, TodoIs, Completes,
         Covered;
    var u := Apply(w, a);
    ReadInOrder(w, a);
    ReadChannel(w, a);
    SameDelivered(w, u);
    if !a.Finish? || a.ok {
      ReadsOn(w, a);
      ReplayIncreases(a.found, w.chunks, w.lease, w.lastSeq + 1);
      ReplayIsSuffix(w, a.found);
      ReadTodo(w, u, a.found);
      ReadCompletes(w, u, a.found);
    }
    ReadPlace(w, u, a);
  }

  /** Every read starts right after what was sent. */
  lemma ReadsOn(w: World, a: Action)
    requires WritesIncrease(w) && Enabled(w, a) && (a.Replay? || a.Resync? || (a.Finish? && a.ok))
    ensures IsReplay(a.found, w.chunks, w.lease, w.lastSeq + 1)
  {
    hide IsReplay, Increasing;
  }

  lemma ReadChannel(w: World, a: Action)
    requires ChannelOk(w) && Enabled(w, a) && (a.Replay? || a.Resync? || a.Finish?)
    ensures ChannelOk(Apply(w, a))
  {
    hide IsReplay, ChannelOk;
    SameChannel(w, Apply(w, a));
  }

  lemma ReadPlace(w: World, u: World, a: Action)
    requires Enabled(w, a) && (a.Replay? || a.Resync? || a.Finish?) && u == Apply(w, a)
    requires (!a.Finish? || a.ok) ==> TodoIs(u, a.found) && Completes(u, a.found)
    requires Listening(w.pc) ==> w.base <= |w.order|
    ensures PlaceOk(u)
  {
    hide IsReplay, TodoIs, Completes;
  }

  lemma ReadInOrder(w: World, a: Action)
    requires InOrder(w) && ChannelOk(w) && Enabled(w, a) && (a.Replay? || a.Resync? || a.Finish?)
    ensures InOrder(Apply(w, a)) && Increasing(w.order) && (Listening(w.pc) ==> w.base <= |w.order|)
  {
    hide IsReplay, Increasing;
  }

  lemma ReadTodo(w: World, u: World, found: seq<Chunk>)
    requires |found| <= |w.order| && found == w.order[|w.order| - |found|..] && Covered(w, |w.order| - |found|)
    requires u.order == w.order && u.read == |w.order| && u.lastSeq == w.lastSeq
    ensures TodoIs(u, found)
  {
  }

  lemma ReadCompletes(w: World, u: World, found: seq<Chunk>)
    requires Increasing(w.order) && Delivered(w)
    requires |found| <= |w.order| && found == w.order[|w.order| - |found|..] && Covered(w, |w.order| - |found|)
    requires forall i :: |w.order| - |found| <= i < |w.order| ==> w.order[i].num > w.lastSeq
    requires u.order == w.order && u.read == |w.order| && u.got == w.got && u.out == w.out && u.origin == w.origin
    ensures Completes(u, found)
  {
    hide Increasing, Between, From;
    BetweenJoin(w.order, w.origin, w.start - 1, w.lastSeq);
    RangeThenRest(w.order, w.origin, w.lastSeq, |w.order| - |found|);
    assert u.order[..u.read] == w.order;
  }

  lemma WriteKeeps(w: World)
    requires Bridged(w) && WritesIncrease(w) && Enabled(w, Action.WriteNext)
    ensures Bridged(Apply(w, Action.WriteNext))
  {
    hide Between, From, Increasing, InOrder, ChannelOk, TodoIs, Delivered, Completes;
    var todo, u := w.pc.todo, Apply(w, Action.WriteNext);
    SameLog(w, u);
    SameChannel(w, u);
    TodoHead(w, todo);
    WrittenIsNext(w, u, w.read - |todo|);
    WrittenTodo(w, u, todo);
    if w.pc.Finishing? { WrittenCompletes(w, u, todo); }
  }

  lemma WrittenCompletes(w: World, u: World, todo: seq<Chunk>)
    requires Completes(w, todo) && todo != [] && u.order == w.order && u.read == w.read && u.origin == w.origin
    requires u.got == w.got && u.out == w.out + [todo[0]]
    ensures Completes(u, todo[1..])
  {
    hide From;
    assert [todo[0]] + todo[1..] == todo;
  }

  lemma TodoHead(w: World, todo: seq<Chunk>)
    requires TodoIs(w, todo) && todo != []
    ensures w.read <= |w.order| && |todo| <= w.read && todo[0] == w.order[w.read - |todo|]
    ensures Covered(w, w.read - |todo|)
  {
  }

  lemma WrittenTodo(w: World, u: World, todo: seq<Chunk>)
    requires TodoIs(w, todo) && todo != [] && u.order == w.order && u.read == w.read
    requires u.lastSeq == todo[0].num > w.lastSeq
    ensures TodoIs(u, todo[1..])
  {
    var k := w.read - |todo|;
    assert todo[1..] == w.order[k + 1..w.read];
    assert w.order[k] == todo[0];
  }

  /** Writing the first chunk not yet covered extends what was delivered by exactly that chunk. */
  lemma WrittenIsNext(w: World, u: World, k: nat)
    requires Increasing(w.order) && Delivered(w) && k < |w.order| && Covered(w, k) && w.order[k].num > w.lastSeq
    requires u.order == w.order && u.out == w.out + [w.order[k]] && u.lastSeq == w.order[k].num
    requires u.start == w.start && u.origin == w.origin && u.got == w.got
    ensures Delivered(u)
  {
    hide Increasing, Between;
    BetweenNext(w.order, w.start, w.lastSeq, k);
    BelowLast(w.order, k);
  }

  lemma ReceiveKeeps(w: World)
    requires Bridged(w) && WritesIncrease(w) && Enabled(w, Action.Receive)
    ensures Bridged(Apply(w, Action.Receive))
  {
    hide Between, Increasing, InOrder, Delivered, ChannelOk, PlaceOk, Covered, IsReplay, WritesIncrease;
    var u := Apply(w, Action.Receive);
    SameLog(w, u);
    ReceiveHead(w);
    ReceiveChannel(w, u);
    ReceivePlace(w, u);
    if w.chan.buf[0].num > w.lastSeq {
      WrittenIsNext(w, u, w.base);
    } else {
      SameDelivered(w, u);
    }
  }

  lemma ReceiveChannel(w: World, u: World)
    requires ChannelOk(w) && Listening(w.pc) && w.chan.buf != [] && Published(w) <= |w.order|
    requires u.order == w.order && u.inflight == w.inflight && u.base == w.base + 1
    requires u.chan == w.chan.(buf := w.chan.buf[1..])
    ensures ChannelOk(u)
  {
    hide Published;
    assert Published(u) == Published(w) by { SamePublished(w, u); }
    ReceiveHead(w);
  }

  lemma SamePublished(w: World, u: World)
    requires u.order == w.order && u.inflight == w.inflight
    ensures Published(u) == Published(w)
  {
  }

  /** With the received chunk written or overlapped, one more place is covered. */
  lemma ReceivePlace(w: World, u: World)
    requires PlaceOk(w) && Enabled(w, Action.Receive) && u == Apply(w, Action.Receive)
    requires w.base < |w.order| && w.chan.buf[0] == w.order[w.base]
    ensures PlaceOk(u) && Covered(w, w.base)
  {
    hide IsReplay, From;
  }

  lemma ReceiveHead(w: World)
    requires ChannelOk(w) && Listening(w.pc) && w.chan.buf != [] && Published(w) <= |w.order|
    ensures w.base < |w.order| && w.chan.buf[0] == w.order[w.base]
    ensures w.chan.buf[1..] == w.order[w.base + 1..w.base + |w.chan.buf|]
  {
  }

  lemma SameLog(w: World, u: World)
    requires InOrder(w) && u.order == w.order && u.inflight == w.inflight && u.lease == w.lease && u.read == w.read
    ensures InOrder(u) && Increasing(w.order) && Published(w) <= |w.order| && Published(u) == Published(w)
  {
    hide Increasing;
  }

  /** A step that touches neither the log nor what was sent leaves what was delivered. */
  lemma SameDelivered(w: World, u: World)
    requires Delivered(w) && u.order == w.order && u.out == w.out && u.lastSeq == w.lastSeq
    requires u.start == w.start && u.origin == w.origin && u.got == w.got
    ensures Delivered(u)
  {
    hide Between;
  }

  predicate Moving(a: Action) {
    a.Subscribe? || a.EndReplay? || a.SeeOver? || a.StopDraining? || a.WriteEnd? || a.Break?
  }

  /** Subscribing, leaving the replay, noticing the end and breaking move only the program counter. */
  lemma MoveKeeps(w: World, a: Action)
    requires Bridged(w) && Enabled(w, a) && Moving(a)
    ensures Bridged(Apply(w, a))
  {
    hide InOrder, ChannelOk, PlaceOk, Delivered, IsReplay;
    SameDelivered(w, Apply(w, a));
    SameLog(w, Apply(w, a));
    MoveChannel(w, a);
    MovePlace(w, a);
  }

  lemma MoveChannel(w: World, a: Action)
    requires ChannelOk(w) && Enabled(w, a) && Moving(a) && Published(w) <= |w.order|
    ensures ChannelOk(Apply(w, a))
  {
    hide IsReplay, ChannelOk, Published;
    if a.Subscribe? {
      NewChannel(w);
    } else {
      SameChannel(w, Apply(w, a));
    }
  }

  lemma SameChannel(w: World, u: World)
    requires ChannelOk(w) && (Listening(u.pc) ==> Listening(w.pc)) && u.chan == w.chan && u.base == w.base
    requires u.order == w.order && u.inflight == w.inflight
    ensures ChannelOk(u)
  {
  }

  lemma NewChannel(w: World)
    requires w.pc.Connecting? && Published(w) <= |w.order|
    ensures ChannelOk(Apply(w, Action.Subscribe))
  {
    hide IsReplay;
    var u := Apply(w, Action.Subscribe);
    assert Published(u) == Published(w) == u.base;
    assert u.order[u.base..u.base] == [];
  }

  lemma MovePlace(w: World, a: Action)
    requires PlaceOk(w) && Enabled(w, a) && Moving(a)
    ensures PlaceOk(Apply(w, a))
  {
    hide IsReplay, From;
  }

  lemma ReconnectKeeps(w: World, k: nat)
    requires Bridged(w) && WritesIncrease(w) && k <= |w.out|
    ensures Bridged(Apply(w, Action.Reconnect(k)))
  {
    hide IsReplay, Between, InOrder, TodoIs, Completes;
    var u := Apply(w, Action.Reconnect(k));
    SameLog(w, u);
    HeldPrefix(w, k);
    BetweenEmpty(w.order, u.start, u.start - 1);
  }

  /** What the client holds after k chunks of this connection, and where it resumes. */
  lemma HeldPrefix(w: World, k: nat)
    requires Increasing(w.order) && Delivered(w) && k <= |w.out|
    ensures var got := w.got + w.out[..k]; var start := Resume(w.origin, got);
      got == Between(w.order, w.origin, start - 1) && Bounded(w, w.origin, start - 1)
  {
    hide Between, Increasing;
    var got := w.got + w.out[..k];
    BetweenPrefix(w.order, w.start, w.lastSeq, k);
    if k > 0 {
      var hi := w.out[k - 1].num;
      assert w.out[k - 1] in w.out;
      BetweenMember(w.order, w.start, w.lastSeq, w.out[k - 1]);
      BetweenJoin(w.order, w.origin, w.start - 1, hi);
      MemberIsBelowLast(w.order, w.out[k - 1]);
      assert got[|got| - 1] == w.out[k - 1];
    } else {
      assert got == w.got;
      GotEndsAtStart(w);
    }
  }

  lemma MemberIsBelowLast(s: seq<Chunk>, c: Chunk)
    requires Increasing(s) && c in s
    ensures c.num <= s[|s| - 1].num
  {
  }

  /** With nothing new received, resuming starts where it started, or at the same range. */
  lemma GotEndsAtStart(w: World)
    requires Increasing(w.order) && Delivered(w)
    ensures w.got == Between(w.order, w.origin, Resume(w.origin, w.got) - 1)
    ensures Bounded(w, w.origin, Resume(w.origin, w.got) - 1)
  {
    hide Between, Increasing;
    if w.got == [] {
      BetweenEmpty(w.order, w.origin, w.origin - 1);
    } else {
      BetweenPrefix(w.order, w.origin, w.start - 1, |w.got|);
      BetweenMember(w.order, w.origin, w.start - 1, w.got[|w.got| - 1]);
      MemberIsBelowLast(w.order, w.got[|w.got| - 1]);
      assert w.got[..|w.got|] == w.got;
    }
  }

  lemma StepKeeps(w: World, a: Action)
    requires Bridged(w) && AppendedOnce(w) && WritesIncrease(w) && Enabled(w, a) && Orderly(w, a)
    ensures Bridged(Apply(w, a))
  {
    hide Bridged, AppendedOnce, WritesIncrease, Enabled, Apply;
    match a
    case Append(c) => AppendKeeps(w, c);
    case Publish(i) => PublishKeeps(w);
    case ReLease(l) =>
    case WriteNext => WriteKeeps(w);
    case Receive => ReceiveKeeps(w);
    case Reconnect(k) => ReconnectStep(w, k);
    case Replay(_) => ReadKeeps(w, a);
    case Resync(_) => ReadKeeps(w, a);
    case Finish(_, _) => ReadKeeps(w, a);
    case _ => MoveKeeps(w, a);
  }

  lemma ReconnectStep(w: World, k: nat)
    requires Bridged(w) && WritesIncrease(w) && Enabled(w, Action.Reconnect(k))
    ensures Bridged(Apply(w, Action.Reconnect(k)))
  {
    hide Bridged, WritesIncrease;
    ReconnectKeeps(w, k);
  }

  lemma OpeningIsBridged(w: World)
    requires Opening(w)
    ensures Bridged(w)
  {
    BetweenEmpty(w.order, w.start, w.start - 1);
  }

  lemma {:induction false} RunsAreBridged(ws: seq<World>, i: nat)
    requires IsRun(ws, true) && i < |ws|
    ensures Bridged(ws[i])
  {
    hide Bridged, AppendedOnce, WritesIncrease, PublishedOnce, Enabled, Apply, Opening;
    if i == 0 {
      OpeningIsBridged(ws[0]);
    } else {
      RunsAreBridged(ws, i - 1);
      IdsIncrease(ws, true, i - 1);
      assert Follows(ws[i - 1], ws[i - 1 + 1], true);
      var a :| Enabled(ws[i - 1], a) && Orderly(ws[i - 1], a) && ws[i] == Apply(ws[i - 1], a);
      StepKeeps(ws[i - 1], a);
    }
  }

  /* ---------- the theorems ---------- */

  /** Replay-to-live bridge: at every point of a connection it has written exactly the persisted
      chunks with start <= seq <= lastSeq, each once and in order, whatever was interleaved. */
  lemma BridgeIsExact(ws: seq<World>, i: nat)
    requires IsRun(ws, true) && i < |ws|
    ensures var w := ws[i]; w.out == Between(w.order, w.start, w.lastSeq)
    ensures forall c :: c in ws[i].out <==> c in ws[i].chunks.Values && ws[i].start <= c.num <= ws[i].lastSeq
  {
    hide AppendedOnce, WritesIncrease, PublishedOnce, Between, Increasing, IsRun;
    RunsAreBridged(ws, i);
    IdsIncrease(ws, true, i);
    forall c ensures c in ws[i].out <==> c in ws[i].chunks.Values && ws[i].start <= c.num <= ws[i].lastSeq {
      BetweenMember(ws[i].order, ws[i].start, ws[i].lastSeq, c);
      PersistedIsOrder(ws[i], c);
    }
  }

  lemma PersistedIsOrder(w: World, c: Chunk)
    requires AppendedOnce(w)
    ensures c in w.chunks.Values <==> c in w.order
  {
    if c in w.order {
      var i :| 0 <= i < |w.order| && w.order[i] == c;
      assert (c.lease, c.num) in w.chunks;
    }
  }

  /** Reconnect composition: after any number of disconnects, and for any prefix of what the current
      connection wrote, the client holds a gap-free, duplicate-free prefix of the log it asked for. */
  lemma ReconnectComposes(ws: seq<World>, i: nat, k: nat)
    requires IsRun(ws, true) && i < |ws| && k <= |ws[i].out|
    ensures Increasing(ws[i].order)
    ensures ws[i].got + ws[i].out[..k] <= From(ws[i].order, ws[i].origin)
  {
    hide AppendedOnce, PublishedOnce, Between, IsRun, From;
    RunsAreBridged(ws, i);
    IdsIncrease(ws, true, i);
    HeldPrefix(ws[i], k);
    BetweenIsPrefix(ws[i].order, ws[i].origin, Resume(ws[i].origin, ws[i].got + ws[i].out[..k]) - 1);
  }

  /** The end event after a successful final read: the client holds all that read saw, from where it first asked. */
  lemma EndIsComplete(ws: seq<World>, i: nat)
    requires IsRun(ws, true) && i < |ws| && ws[i].pc == Ended(true)
    ensures ws[i].read <= |ws[i].order|
    ensures ws[i].got + ws[i].out == From(ws[i].order[..ws[i].read], ws[i].origin)
  {
    hide AppendedOnce, WritesIncrease, PublishedOnce, Between, IsRun, From;
    var w := ws[i];
    RunsAreBridged(ws, i);
    assert w.got + w.out + [] == w.got + w.out;
  }
}
