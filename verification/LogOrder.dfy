/** Exactly when a log is delivered whole: what the order of appends and publishes decides, and what
    a connection that has passed a chunk can no longer write. */
module LogOrder {
  import opened Jobs
  import opened LogStore
  import opened LogBridge
  import opened LogBridgeTheorems

  /* ---------- runs as lists of actions ---------- */

  /** The world after the actions; one that is not enabled is left out. */
  ghost function Played(w: World, acts: seq<Action>): World {
    if acts == [] then w else
      var u := Played(w, acts[..|acts| - 1]);
      if Enabled(u, acts[|acts| - 1]) then Apply(u, acts[|acts| - 1]) else u
  }

  /** Every action is enabled when its turn comes. */
  ghost predicate Runs(w: World, acts: seq<Action>) {
    forall n :: 0 <= n < |acts| ==> Enabled(Played(w, acts[..n]), acts[n])
  }

  lemma RunsOn(w: World, acts: seq<Action>, a: Action)
    requires Runs(w, acts) && Enabled(Played(w, acts), a)
    ensures Runs(w, acts + [a]) && Played(w, acts + [a]) == Apply(Played(w, acts), a)
  {
    hide Enabled, Apply;
    var more := acts + [a];
    assert more[..|acts|] == acts;
    forall n | 0 <= n < |more| ensures Enabled(Played(w, more[..n]), more[n]) {
      if n < |acts| { assert more[..n] == acts[..n]; }
    }
  }

  /** The actions of the runner's side: append and publish. */
  predicate Producing(a: Action) {
    a.Append? || a.Publish?
  }

  function Feed(acts: seq<Action>): seq<Action> {
    if acts == [] then [] else
      Feed(acts[..|acts| - 1]) + if Producing(acts[|acts| - 1]) then [acts[|acts| - 1]] else []
  }

  lemma FeedOn(acts: seq<Action>, a: Action)
    ensures Feed(acts + [a]) == Feed(acts) + if Producing(a) then [a] else []
  {
    assert (acts + [a])[..|acts|] == acts;
  }

  /** feed is a possible order of appends under the lease, all from the seq asked for on, and publishes. */
  ghost predicate IsFeed(w: World, feed: seq<Action>) {
    && Runs(w, feed)
    && forall n :: 0 <= n < |feed| ==>
         Producing(feed[n]) && (feed[n].Append? ==> Some(feed[n].c.lease) == w.lease && feed[n].c.num >= w.origin)
  }

  /** Each new append is above all earlier seqs, and each publish takes the oldest unpublished chunk. */
  ghost predicate OrderlyFeed(w: World, feed: seq<Action>) {
    forall n :: 0 <= n < |feed| ==> Orderly(Played(w, feed[..n]), feed[n])
  }

  /** acts interleaves a beginning of the feed with what one client and its connections do. */
  ghost predicate Interleaves(w: World, acts: seq<Action>, feed: seq<Action>) {
    Runs(w, acts) && Feed(acts) <= feed && forall n :: 0 <= n < |acts| ==> !acts[n].ReLease?
  }

  /** The connection has written exactly the persisted chunks from its start to its last seq. */
  ghost predicate Exact(w: World) {
    forall c :: c in w.out <==> c in w.chunks.Values && w.start <= c.num <= w.lastSeq
  }

  /* ---------- an orderly feed is delivered whole ---------- */

  ghost predicate SameFeed(w: World, u: World) {
    w.chunks == u.chunks && w.inflight == u.inflight && w.order == u.order && w.sent == u.sent && w.lease == u.lease
  }

  lemma FeedIsLocal(w: World, u: World, a: Action)
    requires SameFeed(w, u) && Enabled(w, a) && !a.ReLease?
    ensures !Producing(a) ==> SameFeed(Apply(w, a), u)
    ensures Producing(a) ==> Enabled(u, a) && SameFeed(Apply(w, a), Apply(u, a)) && (Orderly(w, a) <==> Orderly(u, a))
  {
    hide IsReplay, Deliver;
  }

  /** However the client interleaves, the log stands as the feed alone would leave it. */
  lemma {:induction false} LogFollowsFeed(w: World, acts: seq<Action>, feed: seq<Action>)
    requires Interleaves(w, acts, feed)
    ensures SameFeed(Played(w, acts), Played(w, Feed(acts)))
  {
    hide Enabled, Apply;
    if acts != [] {
      var n := |acts| - 1;
      Earlier(w, acts, feed, n);
      LogFollowsFeed(w, acts[..n], feed);
      FeedIsLocal(Played(w, acts[..n]), Played(w, Feed(acts[..n])), acts[n]);
      if Producing(acts[n]) {
        assert Feed(acts)[..|Feed(acts)| - 1] == Feed(acts[..n]);
      } else {
        assert Feed(acts) == Feed(acts[..n]);
      }
    }
  }

  lemma Earlier(w: World, acts: seq<Action>, feed: seq<Action>, n: nat)
    requires Interleaves(w, acts, feed) && n <= |acts|
    ensures Interleaves(w, acts[..n], feed)
  {
    hide Enabled, Apply;
    forall m | 0 <= m < n ensures Enabled(Played(w, acts[..n][..m]), acts[..n][m]) {
      assert acts[..n][..m] == acts[..m];
    }
    FeedPrefix(acts, n);
  }

  lemma {:induction false} FeedPrefix(acts: seq<Action>, n: nat)
    requires n <= |acts|
    ensures Feed(acts[..n]) <= Feed(acts)
  {
    if n < |acts| {
      FeedPrefix(acts[..|acts| - 1], n);
      assert acts[..|acts| - 1][..n] == acts[..n];
    } else {
      assert acts[..n] == acts;
    }
  }

  lemma StepIsOrderly(w: World, acts: seq<Action>, feed: seq<Action>, n: nat)
    requires Interleaves(w, acts, feed) && OrderlyFeed(w, feed) && n < |acts|
    ensures Orderly(Played(w, acts[..n]), acts[n])
  {
    hide Enabled, Apply, Orderly;
    var a, u := acts[n], Played(w, acts[..n]);
    Earlier(w, acts, feed, n);
    LogFollowsFeed(w, acts[..n], feed);
    if Producing(a) {
      var m := |Feed(acts[..n])|;
      FeedOn(acts[..n], a);
      FeedPrefix(acts, n + 1);
      assert acts[..n + 1] == acts[..n] + [a];
      assert feed[..m] == Feed(acts[..n]) && feed[m] == a;
      FeedIsLocal(u, Played(w, feed[..m]), a);
    } else {
      OthersAreOrderly(u, a);
    }
  }

  lemma OthersAreOrderly(w: World, a: Action)
    requires !Producing(a) && !a.ReLease?
    ensures Orderly(w, a)
  {
  }

  lemma OrderlyRun(w: World, acts: seq<Action>, feed: seq<Action>) returns (ws: seq<World>)
    requires Opening(w) && Interleaves(w, acts, feed) && OrderlyFeed(w, feed)
    ensures IsRun(ws, true) && |ws| == |acts| + 1 && ws[|acts|] == Played(w, acts)
  {
    hide Enabled, Apply, Orderly, Opening, OrderlyFeed, Interleaves;
    ws := seq(|acts| + 1, i requires 0 <= i <= |acts| => Played(w, acts[..i]));
    forall i | 0 <= i < |ws| - 1 ensures Follows(ws[i], ws[i + 1], true) {
      StepIsOrderly(w, acts, feed, i);
      StepOf(w, acts, feed, i);
    }
    assert acts[..0] == [] && acts[..|acts|] == acts;
  }

  lemma OrderlyIsExact(w: World, acts: seq<Action>, feed: seq<Action>)
    requires Opening(w) && Interleaves(w, acts, feed) && OrderlyFeed(w, feed)
    ensures Exact(Played(w, acts))
  {
    hide Opening, OrderlyFeed, Interleaves, IsRun, Played;
    var ws := OrderlyRun(w, acts, feed);
    BridgeIsExact(ws, |acts|);
  }

  lemma StepOf(w: World, acts: seq<Action>, feed: seq<Action>, i: nat)
    requires Interleaves(w, acts, feed) && i < |acts|
    ensures Enabled(Played(w, acts[..i]), acts[i]) && Played(w, acts[..i + 1]) == Apply(Played(w, acts[..i]), acts[i])
  {
    hide Enabled, Apply;
    assert acts[..i + 1][..i] == acts[..i];
  }

  /* ---------- a disorderly one is not ---------- */

  /** acts is a run whose appends and publishes are the feed. */
  ghost predicate Along(w: World, acts: seq<Action>, feed: seq<Action>) {
    Runs(w, acts) && Feed(acts) == feed && forall n :: 0 <= n < |acts| ==> !acts[n].ReLease?
  }

  lemma Then(w: World, acts: seq<Action>, feed: seq<Action>, a: Action)
    requires Along(w, acts, feed) && Enabled(Played(w, acts), a) && !a.ReLease?
    ensures Along(w, acts + [a], if Producing(a) then feed + [a] else feed)
    ensures Played(w, acts + [a]) == Apply(Played(w, acts), a)
  {
    hide Enabled, Apply, Runs, Played, Feed;
    RunsOn(w, acts, a);
    FeedOn(acts, a);
    assert feed + [] == feed;
  }

  /** One lease, appended and published in order, nothing below what was asked for. */
  ghost predicate Logged(u: World) {
    && InOrder(u) && AppendedOnce(u) && u.sent == u.order[..Published(u)]
    && forall i :: 0 <= i < |u.order| ==> u.order[i].num >= u.origin
  }

  lemma LoggedStep(u: World, a: Action)
    requires Logged(u) && Enabled(u, a) && Producing(a) && Orderly(u, a) && (a.Append? ==> a.c.num >= u.origin)
    ensures Logged(Apply(u, a))
  {
    hide Logged, Enabled, Apply, Orderly;
    match a
    case Append(c) => LoggedAppend(u, c);
    case Publish(i) => LoggedPublish(u, i);
    case _ =>
  }

  lemma LoggedAppend(u: World, c: Chunk)
    requires Logged(u) && Orderly(u, Action.Append(c)) && c.num >= u.origin
    ensures Logged(Apply(u, Action.Append(c)))
  {
    hide AppendedOnce, InOrder, IsReplay;
    StepAppendsOnce(u, Action.Append(c));
    var v := Apply(u, Action.Append(c));
    if v != u {
      NewIsAbove(u, c);
      AppendInOrder(u, v, c);
      AllPublished(u);
      assert v.order[..Published(v)] == u.order[..Published(u)];
    }
  }

  lemma LoggedPublish(u: World, i: nat)
    requires Logged(u) && Enabled(u, Action.Publish(i)) && Orderly(u, Action.Publish(i))
    ensures Logged(Apply(u, Action.Publish(i)))
  {
    hide AppendedOnce, InOrder, IsReplay, Deliver;
    StepAppendsOnce(u, Action.Publish(i));
    PublishInOrder(u);
    AllPublished(u);
  }

  lemma AllPublished(u: World)
    requires InOrder(u)
    ensures |u.inflight| <= |u.order| && Published(u) == |u.order| - |u.inflight|
    ensures u.inflight != [] ==> u.order[Published(u)] == u.inflight[0]
  {
    hide Increasing;
  }

  lemma NewIsAbove(u: World, c: Chunk)
    requires Orderly(u, Action.Append(c)) && (c.lease, c.num) !in u.chunks
    ensures Grown(u, Apply(u, Action.Append(c)), c)
  {
  }

  lemma IsFeedInit(w: World, feed: seq<Action>, n: nat)
    requires IsFeed(w, feed) && n <= |feed|
    ensures IsFeed(w, feed[..n]) && (OrderlyFeed(w, feed) ==> OrderlyFeed(w, feed[..n]))
  {
    hide Enabled, Apply, Orderly;
    forall m | 0 <= m < n ensures feed[..n][..m] == feed[..m] {
    }
  }

  /** Before anyone connects. */
  lemma {:induction false} OrderlyLog(w: World, feed: seq<Action>)
    requires Opening(w) && IsFeed(w, feed) && OrderlyFeed(w, feed)
    ensures var u := Played(w, feed);
        Logged(u) && u == w.(chunks := u.chunks, inflight := u.inflight, order := u.order, sent := u.sent)
  {
    hide AppendedOnce, InOrder, Enabled, Orderly;
    if feed == [] {
      OpeningIsOk(w);
      OpeningIsBridged(w);
    } else {
      var n := |feed| - 1;
      IsFeedInit(w, feed, n);
      OrderlyLog(w, feed[..n]);
      LoggedStep(Played(w, feed[..n]), feed[n]);
      Unseen(Played(w, feed[..n]), feed[n]);
    }
  }

  lemma Unseen(u: World, a: Action)
    requires Enabled(u, a) && Producing(a) && u.pc.Connecting?
    ensures var v := Apply(u, a); v == u.(chunks := v.chunks, inflight := v.inflight, order := v.order, sent := v.sent)
  {
  }

  /** Connecting after the feed, and writing all of it. */
  lemma CatchUp(w: World, feed: seq<Action>) returns (acts: seq<Action>)
    requires Opening(w) && IsFeed(w, feed) && OrderlyFeed(w, feed)
    ensures Along(w, acts, feed)
    ensures var u, v := Played(w, feed), Played(w, acts);
      && SameFeed(u, v) && Logged(u) && u.lease == w.lease && v.start == w.start == w.origin
      && v.got == [] && v.origin == w.origin && v.out == u.order && v.lastSeq == Resume(w.start, u.order) - 1
  {
    hide Played, Along, Logged, IsFeed, OrderlyFeed, Enabled, Apply;
    OrderlyLog(w, feed);
    var u := Played(w, feed);
    FeedAlone(w, feed);
    LogIsReplay(u);
    ReplayWhole(u);
    Then(w, feed, feed, Action.Subscribe);
    acts := feed + [Action.Subscribe];
    Then(w, acts, feed, Action.Replay(u.order));
    acts := WriteAll(w, acts + [Action.Replay(u.order)], feed);
    assert [] + u.order == u.order;
  }

  /** A world that has just replayed its whole log. */
  lemma ReplayWhole(u: World)
    requires u.pc.Connecting? && IsReplay(u.order, u.chunks, u.lease, u.start)
    ensures Enabled(u, Action.Subscribe) && Enabled(Apply(u, Action.Subscribe), Action.Replay(u.order))
    ensures var v := Apply(Apply(u, Action.Subscribe), Action.Replay(u.order));
      SameFeed(u, v) && v.pc == Replaying(u.order) && v.start == u.start && v.origin == u.origin && v.got == u.got
      && v.out == u.out && v.lastSeq == u.lastSeq
  {
    hide IsReplay;
  }

  lemma FeedAlone(w: World, feed: seq<Action>)
    requires IsFeed(w, feed)
    ensures Along(w, feed, feed)
  {
    hide Enabled, Apply;
    AllProducing(feed);
  }

  lemma {:induction false} AllProducing(feed: seq<Action>)
    requires forall n :: 0 <= n < |feed| ==> Producing(feed[n])
    ensures Feed(feed) == feed
  {
    if feed != [] {
      AllProducing(feed[..|feed| - 1]);
    }
  }

  lemma LogIsReplay(u: World)
    requires Logged(u) && u.start == u.origin
    ensures IsReplay(u.order, u.chunks, u.lease, u.start)
  {
    hide AppendedOnce, Found, Published;
    forall c ensures c in u.order <==> Found(c, u.chunks, u.lease, u.start) {
      LogIsFound(u, c);
    }
  }

  /** Writing all that a replay found. */
  lemma WriteAll(w: World, acts: seq<Action>, feed: seq<Action>) returns (more: seq<Action>)
    requires Along(w, acts, feed) && Played(w, acts).pc.Replaying?
    ensures Along(w, more, feed)
    ensures var u, v := Played(w, acts), Played(w, more); var todo := u.pc.todo;
      v == u.(pc := Replaying([]), out := u.out + todo,
          lastSeq := if todo == [] then u.lastSeq else todo[|todo| - 1].num)
    decreases |Played(w, acts).pc.todo|
  {
    hide Along, Played, IsReplay;
    var u := Played(w, acts);
    if u.pc.todo == [] {
      more := acts;
      assert u.out + [] == u.out;
    } else {
      Then(w, acts, feed, WriteNext);
      more := WriteAll(w, acts + [WriteNext], feed);
      assert u.out + [u.pc.todo[0]] + u.pc.todo[1..] == u.out + u.pc.todo;
    }
  }

  /** A live connection that has written exactly what was published. */
  ghost predicate Following(u: World) {
    u.pc.Live? && u.chan.buf == [] && u.chan.open && u.out == u.sent && u.lastSeq == Resume(u.start, u.sent) - 1
  }

  lemma {:induction false} Follow(w: World, feed: seq<Action>) returns (acts: seq<Action>)
    requires Opening(w) && IsFeed(w, feed) && OrderlyFeed(w, feed)
    ensures Along(w, acts, feed) && Following(Played(w, acts)) && SameFeed(Played(w, acts), Played(w, feed))
    ensures Logged(Played(w, acts)) && Played(w, acts).start == Played(w, acts).origin == w.origin
    decreases |feed|
  {
    hide Along, Played, IsFeed, OrderlyFeed, Enabled, Apply, Following, Logged;
    if feed == [] {
      acts := FollowNothing(w);
    } else {
      var n := |feed| - 1;
      IsFeedInit(w, feed, n);
      acts := Follow(w, feed[..n]);
      FeedStep(w, feed, n);
      acts := FollowOne(w, acts, feed[..n], feed[n], Played(w, feed[..n]));
      assert feed[..n] + [feed[n]] == feed;
    }
  }

  lemma FeedStep(w: World, feed: seq<Action>, n: nat)
    requires IsFeed(w, feed) && OrderlyFeed(w, feed) && n < |feed|
    ensures var u := Played(w, feed[..n]);
      && Enabled(u, feed[n]) && Played(w, feed[..n + 1]) == Apply(u, feed[n]) && Orderly(u, feed[n]) &&
          Producing(feed[n])
      && (feed[n].Append? ==> feed[n].c.num >= w.origin)
    ensures n + 1 == |feed| ==> feed[..n + 1] == feed
  {
    hide Enabled, Apply, Orderly;
    assert feed[..n + 1][..n] == feed[..n];
  }

  lemma FollowNothing(w: World) returns (acts: seq<Action>)
    requires Opening(w)
    ensures Along(w, acts, []) && Following(Played(w, acts)) && SameFeed(Played(w, acts), Played(w, []))
    ensures Logged(Played(w, acts)) && Played(w, acts).start == Played(w, acts).origin == w.origin
  {
    hide Along, Played, Following, Logged, Enabled, Apply, Opening;
    NoActions(w);
    LiveAtOnce(w);
    acts := [];
    Then(w, acts, [], Action.Subscribe);
    acts := acts + [Action.Subscribe];
    Then(w, acts, [], Action.Replay([]));
    acts := acts + [Action.Replay([])];
    Then(w, acts, [], Action.EndReplay(false));
    acts := acts + [Action.EndReplay(false)];
  }

  /** Following an empty log. */
  lemma LiveAtOnce(w: World)
    requires Opening(w)
    ensures Enabled(w, Action.Subscribe) && Enabled(Apply(w, Action.Subscribe), Action.Replay([]))
    ensures var u := Apply(Apply(w, Action.Subscribe), Action.Replay([])); Enabled(u, Action.EndReplay(false))
    ensures var v := Apply(Apply(Apply(w, Action.Subscribe), Action.Replay([])), Action.EndReplay(false));
      Following(v) && Logged(v) && SameFeed(v, w) && v.start == v.origin == w.origin
  {
    hide IsReplay, Logged;
    NothingFound(w.lease, w.start);
    var v := w.(pc := Live, chan := Chan(0, [], true), base := 0);
    EmptyIsLogged(w, v);
  }

  lemma NothingFound(lease: Option<LeaseId>, start: int)
    ensures IsReplay([], map[], lease, start)
  {
  }

  lemma EmptyIsLogged(w: World, v: World)
    requires Opening(w) && SameFeed(w, v) && v.read == 0
    ensures Logged(v)
  {
    hide AppendedOnce, WritesIncrease, PublishedOnce;
    OpeningIsOk(w);
    SameLogOnce(w, v);
  }

  lemma SameLogOnce(w: World, v: World)
    requires AppendedOnce(w) && v.chunks == w.chunks && v.order == w.order
    ensures AppendedOnce(v)
  {
  }

  lemma NoActions(w: World)
    ensures Along(w, [], []) && Played(w, []) == w
  {
  }

  lemma FollowOne(w: World, acts: seq<Action>, feed: seq<Action>, a: Action, log: World) returns (more: seq<Action>)
    requires Along(w, acts, feed) && Following(Played(w, acts)) && Logged(Played(w, acts))
    requires SameFeed(Played(w, acts), log)
    requires Enabled(log, a) && Orderly(log, a) && Producing(a)
    requires Played(w, acts).start == Played(w, acts).origin == w.origin && (a.Append? ==> a.c.num >= w.origin)
    ensures Along(w, more, feed + [a]) && Following(Played(w, more)) && SameFeed(Played(w, more), Apply(log, a))
    ensures Logged(Played(w, more)) && Played(w, more).start == Played(w, more).origin == w.origin
  {
    hide Along, Played, Logged;
    var u := Played(w, acts);
    FeedIsLocal(log, u, a);
    LoggedStep(u, a);
    Then(w, acts, feed, a);
    more := acts + [a];
    if a.Publish? {
      Then(w, more, feed + [a], Action.Receive);
      more := more + [Action.Receive];
      NextIsAbove(u);
      LoggedMoves(Apply(u, a), Played(w, more));
    }
  }

  lemma LoggedMoves(u: World, v: World)
    requires Logged(u) && SameFeed(u, v) && u.read == v.read && u.origin == v.origin
    ensures Logged(v)
  {
    hide Increasing;
  }

  /** The chunks not yet published are above all that a follower has written. */
  lemma NextIsAbove(u: World)
    requires Logged(u) && Following(u) && u.start == u.origin
    ensures forall i :: 0 <= i < |u.inflight| ==> u.inflight[i].num > u.lastSeq
    ensures forall i, j :: 0 <= i < j < |u.inflight| ==> u.inflight[i].num < u.inflight[j].num
    ensures forall i :: 0 <= i < |u.inflight| ==> u.inflight[i] !in u.out && u.inflight[i] in u.chunks.Values
  {
    hide ChannelOk;
    var p := Published(u);
    forall i | 0 <= i < |u.inflight|
      ensures u.inflight[i].num > u.lastSeq && u.inflight[i] !in u.out && u.inflight[i] in u.chunks.Values
    {
      var c := u.inflight[i];
      assert c == u.order[p + i];
      assert (c.lease, c.num) in u.chunks;
    }
  }

  /** The first publish out of order: a follower jumps over the oldest unpublished chunk. */
  lemma LatePublishIsNotExact(w: World, feed: seq<Action>, i: nat) returns (acts: seq<Action>)
    requires Opening(w) && IsFeed(w, feed) && OrderlyFeed(w, feed) && Enabled(Played(w, feed), Action.Publish(i))
    requires i > 0
    ensures Along(w, acts, feed + [Action.Publish(i)]) && !Exact(Played(w, acts))
  {
    hide Along, Played, Logged;
    acts := Follow(w, feed);
    var u := Played(w, acts);
    Then(w, acts, feed, Action.Publish(i));
    acts := acts + [Action.Publish(i)];
    Then(w, acts, feed + [Action.Publish(i)], Action.Receive);
    acts := acts + [Action.Receive];
    NextIsAbove(u);
    LoggedAsks(u);
    var v := Played(w, acts);
    assert v.out == u.out + [u.inflight[i]] && v.lastSeq == u.inflight[i].num;
    assert u.inflight[0] !in v.out && u.inflight[0] in v.chunks.Values;
  }

  lemma LoggedAsks(u: World)
    requires Logged(u)
    ensures forall i :: 0 <= i < |u.inflight| ==> u.inflight[i].num >= u.origin
  {
  }

  /** The first append out of order: a connection that has written everything so far is past it. */
  lemma LateAppendIsNotExact(w: World, feed: seq<Action>, c: Chunk) returns (acts: seq<Action>)
    requires Opening(w) && IsFeed(w, feed + [Action.Append(c)]) && OrderlyFeed(w, feed)
    requires !Orderly(Played(w, feed), Action.Append(c))
    ensures Along(w, acts, feed + [Action.Append(c)]) && !Exact(Played(w, acts))
  {
    hide Along, Played, Logged, Runs;
    var a := Action.Append(c);
    assert (feed + [a])[|feed|] == a;
    FeedOnly(w, feed, a);
    acts := CatchUp(w, feed);
    var u := Played(w, acts);
    Then(w, acts, feed, a);
    acts := acts + [a];
    LowAppendIsPassed(Played(w, feed), u, c);
  }

  lemma FeedOnly(w: World, feed: seq<Action>, a: Action)
    requires IsFeed(w, feed + [a])
    ensures IsFeed(w, feed)
  {
    hide Runs;
    IsFeedInit(w, feed + [a], |feed|);
    assert (feed + [a])[..|feed|] == feed;
  }

  lemma LowAppendIsPassed(log: World, u: World, c: Chunk)
    requires SameFeed(log, u) && Logged(log) && u.out == log.order && u.lastSeq == Resume(u.start, log.order) - 1
    requires !Orderly(log, Action.Append(c)) && Some(c.lease) == log.lease && u.start <= c.num
    ensures !Exact(Apply(u, Action.Append(c)))
  {
    var v := Apply(u, Action.Append(c));
    var i :| 0 <= i < |log.order| && log.order[i].num >= c.num;
    BelowLast(log.order, i);
    assert v.chunks[(c.lease, c.num)] == c;
    assert c !in log.order;
  }

  /* ---------- the exact condition ---------- */

  lemma FirstDisorder(w: World, feed: seq<Action>) returns (n: nat)
    requires IsFeed(w, feed) && !OrderlyFeed(w, feed)
    ensures n < |feed| && OrderlyFeed(w, feed[..n]) && !Orderly(Played(w, feed[..n]), feed[n])
  {
    hide Enabled, Apply, Orderly, IsFeed;
    n := 0;
    while Orderly(Played(w, feed[..n]), feed[n])
      invariant n < |feed| && forall m :: 0 <= m < n ==> Orderly(Played(w, feed[..m]), feed[m])
      decreases |feed| - n
    {
      n := n + 1;
    }
    forall m | 0 <= m < n ensures feed[..n][..m] == feed[..m] {
    }
  }

  lemma DisorderIsSeen(w: World, feed: seq<Action>) returns (acts: seq<Action>)
    requires Opening(w) && IsFeed(w, feed) && !OrderlyFeed(w, feed)
    ensures Interleaves(w, acts, feed) && !Exact(Played(w, acts))
  {
    hide Enabled, Played, Orderly, Opening, OrderlyFeed, Runs;
    var n := FirstDisorder(w, feed);
    IsFeedInit(w, feed, n);
    IsFeedInit(w, feed, n + 1);
    assert feed[..n] + [feed[n]] == feed[..n + 1];
    if feed[n].Append? {
      acts := LateAppendIsNotExact(w, feed[..n], feed[n].c);
    } else {
      DisorderlyPublish(w, feed, n);
      acts := LatePublishIsNotExact(w, feed[..n], feed[n].i);
    }
  }

  lemma DisorderlyPublish(w: World, feed: seq<Action>, n: nat)
    requires IsFeed(w, feed) && n < |feed| && feed[n].Publish? && !Orderly(Played(w, feed[..n]), feed[n])
    ensures feed[n].i > 0 && Enabled(Played(w, feed[..n]), feed[n])
  {
    hide Played;
  }

  /** For every order in which a lease's chunks may be appended and published: every interleaving with
      a client that asked from at or below the lowest seq stays exact, in every state, if and only if
      each new append is above all earlier seqs and each publish takes the oldest unpublished chunk. */
  lemma DeliveredWholeIff(w: World, feed: seq<Action>)
    requires Opening(w) && IsFeed(w, feed)
    ensures (forall acts :: Interleaves(w, acts, feed) ==> Exact(Played(w, acts))) <==> OrderlyFeed(w, feed)
  {
    hide Interleaves, Exact, Played, OrderlyFeed, IsFeed, Opening;
    if OrderlyFeed(w, feed) {
      forall acts | Interleaves(w, acts, feed) ensures Exact(Played(w, acts)) {
        OrderlyIsExact(w, acts, feed);
      }
    } else {
      var acts := DisorderIsSeen(w, feed);
    }
  }

  /* ---------- what was passed is never written ---------- */

  /** The connection is past the chunk's seq, and neither it nor an earlier one brought the chunk. */
  ghost predicate Passed(w: World, c: Chunk) {
    c.num <= w.lastSeq && c !in w.got + w.out
  }

  /** Only a client that asks again from at or below the chunk's seq leaves that state. */
  lemma PassedStep(w: World, a: Action, c: Chunk)
    requires WritesIncrease(w) && Enabled(w, a) && Passed(w, c)
    ensures !a.Reconnect? ==> Passed(Apply(w, a), c)
    ensures a.Reconnect? ==> (Passed(Apply(w, a), c) <==> Apply(w, a).start > c.num)
  {
    hide IsReplay, Deliver, Increasing;
    if a.Reconnect? {
      assert forall x :: x in w.out[..a.k] ==> x in w.out;
    }
  }

  /** Every connection opened after i, up to j, asks from above seq n. */
  ghost predicate AsksAbove(ws: seq<World>, i: nat, j: nat, n: int) {
    forall m :: i < m <= j && m < |ws| && ws[m].pc.Connecting? ==> ws[m].start > n
  }

  /** In every run, under any order of appends and publishes and any re-lease: a chunk that was passed
      is written by no continuation of that connection, and by no resume from above it. */
  lemma {:induction false} PassedIsNeverWritten(ws: seq<World>, orderly: bool, i: nat, j: nat, c: Chunk)
    requires IsRun(ws, orderly) && i <= j < |ws| && Passed(ws[i], c) && AsksAbove(ws, i, j, c.num)
    ensures Passed(ws[j], c)
    decreases j
  {
    hide Enabled, Apply, Orderly, Opening, Passed, WritesIncrease, AppendedOnce, PublishedOnce;
    if i < j {
      PassedIsNeverWritten(ws, orderly, i, j - 1, c);
      assert Follows(ws[j - 1], ws[j - 1 + 1], orderly);
      var a :| Enabled(ws[j - 1], a) && ws[j] == Apply(ws[j - 1], a);
      IdsIncrease(ws, orderly, j - 1);
      PassedStep(ws[j - 1], a, c);
      if a.Reconnect? { ReconnectConnects(ws[j - 1], a.k); }
    }
  }

  lemma ReconnectConnects(w: World, k: nat)
    requires Enabled(w, Action.Reconnect(k))
    ensures Apply(w, Action.Reconnect(k)).pc.Connecting?
  {
  }

  ghost predicate Reaches(ws: seq<World>, w: World) {
    IsRun(ws, false) && ws[|ws| - 1] == w
  }

  lemma Extend(ws: seq<World>, w: World, a: Action, w': World) returns (more: seq<World>)
    requires Reaches(ws, w) && Enabled(w, a) && w' == Apply(w, a)
    ensures Reaches(more, w') && more == ws + [w']
  {
    hide Enabled, Apply, Opening;
    more := ws + [w'];
    assert Follows(w, w', false);
    forall i | 0 <= i < |more| - 1 ensures Follows(more[i], more[i + 1], false) {
      if i < |ws| - 1 {
        assert Follows(ws[i], ws[i + 1], false);
      }
    }
  }

  /** more continues ws within the connection that ws ends in. */
  ghost predicate SameConnection(ws: seq<World>, more: seq<World>) {
    && |ws| > 0 && ws <= more && IsRun(more, false)
    && forall m :: |ws| <= m < |more| ==> more[m].start == ws[|ws| - 1].start && more[m].got == ws[|ws| - 1].got
  }

  /** A client that has just asked from some seq on can still get a chunk persisted under the current
      lease exactly when that seq is not above the chunk's. */
  lemma ResumeWritesIff(ws: seq<World>, w: World, c: Chunk)
    requires Reaches(ws, w) && w.pc.Connecting? && w.lease == Some(c.lease) && c in w.chunks.Values
    ensures (exists more: seq<World> :: SameConnection(ws, more) && c in more[|more| - 1].out) <==> w.start <= c.num
  {
    hide Enabled, Apply, Opening, AppendedOnce, PublishedOnce, Reaches, IsRun;
    if more: seq<World> :| SameConnection(ws, more) && c in more[|more| - 1].out {
      IdsIncrease(more, false, |more| - 1);
      WrittenIsAsked(more[|more| - 1], c);
      SameStart(ws, w, more);
    }
    if w.start <= c.num {
      var more := ResumeAndWrite(ws, w, c);
      assert SameConnection(ws, more) && c in more[|more| - 1].out;
    }
  }

  lemma SameStart(ws: seq<World>, w: World, more: seq<World>)
    requires Reaches(ws, w) && SameConnection(ws, more)
    ensures more[|more| - 1].start == w.start
  {
    hide IsRun;
    assert |more| == |ws| ==> more[|more| - 1] == ws[|ws| - 1];
  }

  lemma WrittenIsAsked(w: World, c: Chunk)
    requires WritesIncrease(w) && c in w.out
    ensures w.start <= c.num
  {
  }

  lemma ReachedIsKeyed(ws: seq<World>, w: World)
    requires Reaches(ws, w)
    ensures KeyedChunks(w.chunks)
  {
    hide IsRun, WritesIncrease, PublishedOnce;
    NonEmpty(ws, w);
    IdsIncrease(ws, false, |ws| - 1);
  }

  lemma ResumeAndWrite(ws: seq<World>, w: World, c: Chunk) returns (more: seq<World>)
    requires Reaches(ws, w) && w.pc.Connecting? && w.lease == Some(c.lease) && c in w.chunks.Values && w.start <= c.num
    ensures SameConnection(ws, more) && c in more[|more| - 1].out
  {
    hide Reaches, IsReplay, IsRun;
    ReachedIsKeyed(ws, w);
    var found := ReplayOf(w.chunks, Some(c.lease), w.start);
    FoundHas(found, w, c);
    var w1 := Apply(w, Action.Subscribe);
    more := Extend(ws, w, Action.Subscribe, w1);
    var w2 := w1.(pc := Replaying(found), read := |w1.order|);
    var w3;
    more := Extend(more, w1, Action.Replay(found), w2);
    NonEmpty(ws, w);
    more, w3 := WriteFound(ws, more, w2);
    SameRun(ws, w, more, w3);
  }

  lemma NonEmpty(ws: seq<World>, w: World)
    requires Reaches(ws, w)
    ensures |ws| > 0 && ws[|ws| - 1] == w
  {
  }

  lemma SameRun(ws: seq<World>, w: World, more: seq<World>, u: World)
    requires Reaches(ws, w) && Reaches(more, u) && ws <= more
    requires forall m :: |ws| <= m < |more| ==> more[m].start == w.start && more[m].got == w.got
    ensures SameConnection(ws, more) && more[|more| - 1] == u
  {
    hide Follows, Opening;
  }

  lemma FoundHas(found: seq<Chunk>, w: World, c: Chunk)
    requires IsReplay(found, w.chunks, Some(c.lease), w.start) && KeyedChunks(w.chunks) && c in w.chunks.Values
    requires w.start <= c.num
    ensures c in found
  {
    var k :| k in w.chunks && w.chunks[k] == c;
    assert k == (c.lease, c.num);
  }

  lemma WriteFound(ws: seq<World>, run: seq<World>, w: World) returns (more: seq<World>, u: World)
    requires Reaches(run, w) && w.pc.Replaying? && ws <= run
    requires forall m :: |ws| <= m < |run| ==> run[m].start == w.start && run[m].got == w.got
    ensures Reaches(more, u) && ws <= more && u.out == w.out + w.pc.todo
    ensures forall m :: |ws| <= m < |more| ==> more[m].start == w.start && more[m].got == w.got
    decreases |w.pc.todo|
  {
    hide Reaches, IsReplay;
    if w.pc.todo == [] {
      more, u := run, w;
      assert w.out + [] == w.out;
    } else {
      var v := Apply(w, WriteNext);
      var next := Extend(run, w, WriteNext, v);
      more, u := WriteFound(ws, next, v);
      assert w.out + [w.pc.todo[0]] + w.pc.todo[1..] == w.out + w.pc.todo;
    }
  }

  /** Two runs that share a past: from w on, c is never written again unless asked for from below. */
  ghost predicate NeverAgain(ws: seq<World>, c: Chunk) {
    forall vs: seq<World>, j: nat ::
        |ws| > 0 && ws <= vs && IsRun(vs, false) && |ws| <= j < |vs| && AsksAbove(vs, |ws| - 1, j, c.num) ==>
      c !in vs[j].got + vs[j].out
  }

  lemma PassedNeverAgain(ws: seq<World>, w: World, c: Chunk)
    requires Reaches(ws, w) && Passed(w, c)
    ensures NeverAgain(ws, c)
  {
    hide IsRun;
    NonEmpty(ws, w);
    forall vs: seq<World>, j: nat |
        ws <= vs && IsRun(vs, false) && |ws| <= j < |vs| && AsksAbove(vs, |ws| - 1, j, c.num)
      ensures c !in vs[j].got + vs[j].out
    {
      assert vs[|ws| - 1] == w;
      PassedIsNeverWritten(vs, false, |ws| - 1, j, c);
    }
  }

  /** One chunk appended, written and received; then a new connection. */
  lemma OneChunkThenReconnect(w0: World, c: Chunk) returns (ws: seq<World>)
    requires Opening(w0) && w0.lease == Some(c.lease) && w0.origin <= c.num
    ensures |ws| > 0 && IsRun(ws, true)
    ensures var w := ws[|ws| - 1]; w.got == [c] && w.out == [] && w.origin == w0.origin
  {
    hide Played, Along, Orderly, IsFeed, OrderlyFeed, IsRun, Opening, Logged, Interleaves, IsReplay;
    var feed := [Action.Append(c)];
    OneAppend(w0, c);
    var acts := CatchUp(w0, feed);
    var u := Played(w0, acts);
    Then(w0, acts, feed, Action.Reconnect(1));
    assert [] + u.out[..1] == [c];
    AlongInterleaves(w0, acts + [Action.Reconnect(1)], feed);
    ws := OrderlyRun(w0, acts + [Action.Reconnect(1)], feed);
  }

  lemma AlongInterleaves(w: World, acts: seq<Action>, feed: seq<Action>)
    requires Along(w, acts, feed)
    ensures Interleaves(w, acts, feed)
  {
    hide Runs, Feed;
  }

  lemma OneAppend(w: World, c: Chunk)
    requires Opening(w) && w.lease == Some(c.lease) && w.origin <= c.num
    ensures var feed := [Action.Append(c)]; IsFeed(w, feed) && OrderlyFeed(w, feed) && Played(w, feed).order == [c]
  {
    var feed := [Action.Append(c)];
    assert feed[..0] == [] && Played(w, []) == w;
    assert Played(w, feed) == Apply(w, Action.Append(c));
  }

  /** A live connection from seq 0, caught up with an empty log. */
  function Idle(lease: LeaseId): World {
    World(map[], [], Some(lease), Live, Chan(0, [], true), 0, -1, [], 0, [], [], [], 0, 0)
  }

  lemma IdleIsReached(lease: LeaseId) returns (ws: seq<World>)
    ensures Reaches(ws, Idle(lease))
  {
    var w := Idle(lease);
    ws := [w.(pc := Connecting)];
    ws := Extend(ws, w.(pc := Connecting), Action.Subscribe, w.(pc := Subscribed));
    ws := Extend(ws, w.(pc := Subscribed), Replay([]), w.(pc := Replaying([])));
    ws := Extend(ws, w.(pc := Replaying([])), EndReplay(false), w);
  }

  lemma Publishes(ws: seq<World>, w: World, i: nat, w': World) returns (more: seq<World>)
    requires Reaches(ws, w) && w.pc.Live? && i < |w.inflight| && w.chan == Chan(0, [], true)
    requires w' == Offer(w, w.inflight[i]).(inflight := w.inflight[..i] + w.inflight[i + 1..],
        sent := w.sent + [w.inflight[i]], base := w.base + 1)
    ensures Reaches(more, w')
  {
    hide Reaches, IsReplay;
    var c := w.inflight[i];
    var u := w.(inflight := w'.inflight, sent := w'.sent, chan := Chan(0, [c], true));
    more := Extend(ws, w, Action.Publish(i), u);
    more := Extend(more, u, Action.Receive, w');
  }

  /** Two log streams of one lease may publish in the other order than they appended; the chunk
      published late is then taken for an overlap and never written, unless the client asks again. */
  lemma LatePublishLeavesGap(c1: Chunk, c2: Chunk) returns (ws: seq<World>, w: World)
    requires c1.lease == c2.lease && 0 <= c1.num < c2.num
    ensures Reaches(ws, w) && w.pc.Live? && w.inflight == [] && w.chan == Chan(0, [], true)
    ensures w.out == [c2] && From(w.order, w.start) == [c1, c2] && NeverAgain(ws, c1)
  {
    hide Reaches, Opening, IsReplay, NeverAgain;
    var w3 := Idle(c1.lease);
    ws := IdleIsReached(c1.lease);
    var w4 := w3.(chunks := map[(c1.lease, c1.num) := c1], inflight := [c1], order := [c1]);
    ws := Extend(ws, w3, Action.Append(c1), w4);
    var w5 := w4.(chunks := w4.chunks[(c2.lease, c2.num) := c2], inflight := [c1, c2], order := [c1, c2]);
    ws := Extend(ws, w4, Action.Append(c2), w5);
    var w7 := w5.(inflight := [c1], sent := [c2], out := [c2], lastSeq := c2.num, base := 1);
    ws := Publishes(ws, w5, 1, w7);
    w := w7.(inflight := [], sent := [c2, c1], base := 2);
    ws := Publishes(ws, w7, 0, w);
    FromTwo(c1, c2);
    PassedNeverAgain(ws, w, c1);
  }

  lemma FromTwo(c1: Chunk, c2: Chunk)
    requires 0 <= c1.num && 0 <= c2.num
    ensures From([c1, c2], 0) == [c1, c2]
  {
    assert [c1, c2][..1] == [c1] && [c1][..0] == [];
    assert From([c1], 0) == [c1];
  }

  /** A job requeued and leased again under an open connection: the new attempt's chunks start over
      at low seqs, which the connection takes for overlap: they are persisted, and never written
      unless the client asks again from below. */
  lemma NewLeaseIsHidden(c1: Chunk, c2: Chunk) returns (ws: seq<World>, w: World)
    requires c1.lease != c2.lease && 0 <= c2.num <= c1.num
    ensures Reaches(ws, w) && w.pc.Live? && w.inflight == [] && w.chan == Chan(0, [], true)
    ensures w.lease == Some(c2.lease) && w.start <= c2.num && w.out == [c1]
    ensures (c2.lease, c2.num) in w.chunks && w.chunks[(c2.lease, c2.num)] == c2 && NeverAgain(ws, c2)
  {
    hide Reaches, Opening, IsReplay, From, NeverAgain;
    var w3 := Idle(c1.lease);
    ws := IdleIsReached(c1.lease);
    var w4 := w3.(chunks := map[(c1.lease, c1.num) := c1], inflight := [c1], order := [c1]);
    ws := Extend(ws, w3, Action.Append(c1), w4);
    var w6 := w4.(inflight := [], sent := [c1], out := [c1], lastSeq := c1.num, base := 1);
    ws := Publishes(ws, w4, 0, w6);
    var w7 := w6.(lease := Some(c2.lease));
    ws := Extend(ws, w6, ReLease(Some(c2.lease)), w7);
    var w8 := w7.(chunks := w7.chunks[(c2.lease, c2.num) := c2], inflight := [c2], order := [c1, c2]);
    ws := Extend(ws, w7, Action.Append(c2), w8);
    w := w8.(inflight := [], sent := [c1, c2], base := 2);
    ws := Publishes(ws, w8, 0, w);
    PassedNeverAgain(ws, w, c2);
  }
}
