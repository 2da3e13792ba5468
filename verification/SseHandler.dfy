/** logsSSEHandler as an object whose every database read, channel operation and write is one step of
    the machine in LogBridge (internal/api/logs.go:204-384). */
module SseHandler {
  import opened Jobs
  import opened LogStore
  import opened LogBridge
  import opened LogBridgeTheorems
  import opened SseFraming
  import opened SseTheorems
  import opened SseResume
  import JobStore

  /* ---------- emptying the channel, as a function ---------- */

  /** The chunks written when buf arrives after last: those above everything sent before them. */
  function Unsent(buf: seq<Chunk>, last: int): seq<Chunk> {
    if buf == [] then []
    else if buf[0].num <= last then Unsent(buf[1..], last)
    else [buf[0]] + Unsent(buf[1..], buf[0].num)
  }

  function LastOf(chunks: seq<Chunk>, last: int): int {
    if chunks == [] then last else chunks[|chunks| - 1].num
  }

  /** The receives of a connection that empties its channel. */
  function Drain(w: World): World
    decreases |w.chan.buf|
  {
    if w.chan.buf == [] then w else Drain(Received(w))
  }

  function Received(w: World): World
    requires w.chan.buf != []
  {
    Offer(w, w.chan.buf[0]).(chan := w.chan.(buf := w.chan.buf[1..]), base := w.base + 1)
  }

  /** Emptying the channel writes exactly the unsent chunks. */
  lemma {:induction false} DrainWritesUnsent(w: World)
    ensures Drain(w) == w.(out := w.out + Unsent(w.chan.buf, w.lastSeq), chan := w.chan.(buf := []),
                           lastSeq := LastOf(Unsent(w.chan.buf, w.lastSeq), w.lastSeq), base := w.base + |w.chan.buf|)
    decreases |w.chan.buf|
  {
    if w.chan.buf == [] {
      assert w.out + [] == w.out;
    } else {
      var c, rest := w.chan.buf[0], w.chan.buf[1..];
      DrainWritesUnsent(Received(w));
      if c.num > w.lastSeq {
        assert w.out + [c] + Unsent(rest, c.num) == w.out + Unsent(w.chan.buf, w.lastSeq);
      }
    }
  }

  /* ---------- the handler and the machine ---------- */

  /** The machine took one step. */
  ghost predicate Stepped(before: seq<World>, after: seq<World>, a: Action) {
    |before| > 0 && Enabled(before[|before| - 1], a) && after == before + [Apply(before[|before| - 1], a)]
  }

  lemma RunGrows(before: seq<World>, after: seq<World>, a: Action, orderly: bool)
    requires IsRun(before, orderly) && Stepped(before, after, a) && (orderly ==> Orderly(before[|before| - 1], a))
    ensures IsRun(after, orderly) && after[|after| - 1] == Apply(before[|before| - 1], a)
  {
    hide Enabled, Apply, Orderly, Opening;
    var w := before[|before| - 1];
    assert Follows(w, Apply(w, a), orderly);
    forall i | 0 <= i < |after| - 1 ensures Follows(after[i], after[i + 1], orderly) {
      if i < |before| - 1 { assert Follows(before[i], before[i + 1], orderly); }
    }
  }

  predicate Reading(pc: Pc) {
    pc.Replaying? || pc.Resyncing? || pc.Finishing?
  }

  /** The handler's variables and its stores stand as the machine says. */
  ghost predicate Linked(w: World, chunks: map<Key, Chunk>, lease: Option<LeaseId>, lastSeq: int, todo: seq<Chunk>,
                         ch: Option<Chan>, job: RowId) {
    && w.chunks == chunks && w.lease == lease && w.lastSeq == lastSeq && (Reading(w.pc) ==> w.pc.todo == todo)
    && (w.pc.Connecting? ==> ch.None?)
    && (ch.Some? ==> ch.value.job == job)
    && (Listening(w.pc) ==> ch.Some? && w.chan.buf == ch.value.buf && w.chan.open == ch.value.open)
  }

  /** The text written is that of the items, and their chunks are what the machine has written. */
  ghost predicate Written(w: World, out: string, items: seq<Item>) {
    out == Print(items) && Chunks(items) == w.out && CleanComments(items)
  }

  lemma {:induction false} LogItemsChunks(chunks: seq<Chunk>)
    ensures Chunks(LogItems(chunks)) == chunks && CleanComments(LogItems(chunks))
  {
    if chunks != [] {
      LogItemsChunks(chunks[1..]);
      assert LogItems(chunks)[1..] == LogItems(chunks[1..]);
    }
  }

  /** Writing a chunk's event keeps text, items and machine together. */
  lemma WroteLogs(w: World, u: World, out: string, items: seq<Item>, chunks: seq<Chunk>)
    requires Written(w, out, items) && u.out == w.out + chunks
    ensures Written(u, out + Print(LogItems(chunks)), items + LogItems(chunks))
  {
    hide Print, Chunks, LogItems, Plain;
    LogItemsChunks(chunks);
    ChunksConcat(items, LogItems(chunks));
    PrintConcat(items, LogItems(chunks));
  }

  /** So does a comment or the end event. */
  lemma WroteOther(w: World, u: World, out: string, items: seq<Item>, it: Item)
    requires Written(w, out, items) && u.out == w.out && !it.Log? && (it.Comment? ==> Plain(it.text))
    ensures Written(u, out + PrintItem(it), items + [it])
  {
    hide Print, Chunks, PrintItem, Plain;
    NoChunkIn(it);
    ChunksConcat(items, [it]);
    PrintSnoc(items, it);
  }

  lemma NoChunkIn(it: Item)
    requires !it.Log?
    ensures Chunks([it]) == []
  {
    assert [it][1..] == [];
  }

  lemma OneLog(c: Chunk)
    ensures LogItems([c]) == [Log(c)] && Print(LogItems([c])) == PrintItem(Log(c)) && LogItems([]) == []
  {
    hide PrintItem;
    assert LogItems([c]) == [Log(c)];
    OnePrints(Log(c));
  }

  class Handler {
    const logs: Store
    const jobs: JobStore.Store
    const writer: Writer
    const job: RowId
    const sub: ChanId
    ghost const orderly: bool

    var lastSeq: int
    var todo: seq<Chunk>

    /** The machine's run so far, and what this connection has written. */
    ghost var trace: seq<World>
    ghost var items: seq<Item>

    /** A new connection of a client whose earlier ones are in past. */
    constructor (logs: Store, jobs: JobStore.Store, writer: Writer, job: RowId, sub: ChanId, startSeq: int,
                 ghost past: seq<World>, ghost orderly: bool)
      requires Valid(logs.Registry()) && KeyedChunks(logs.chunks) && sub !in logs.chans && writer.out == ""
      requires IsRun(past, orderly) && past[|past| - 1].pc.Connecting? && past[|past| - 1].start == startSeq
      requires past[|past| - 1].chunks == logs.chunks && past[|past| - 1].lease == CurrentLease(jobs.rows, job)
      ensures this.logs == logs && this.jobs == jobs && this.writer == writer && this.job == job && this.sub == sub
      ensures this.orderly == orderly && Sync() && trace == past && items == []
    {
      hide IsRun, Valid, Print;
      this.logs, this.jobs, this.writer, this.job, this.sub := logs, jobs, writer, job, sub;
      this.orderly := orderly;
      lastSeq, todo, trace, items := startSeq - 1, [], past, [];
      new;
      NonEmptyRun(past, orderly);
      ConnectingIsEmpty(past, orderly);
      NothingYet();
    }

    ghost function Now(): World
      requires |trace| > 0
      reads this
    {
      trace[|trace| - 1]
    }

    ghost predicate Sync()
      reads this, logs, jobs, writer
    {
      && |trace| > 0 && IsRun(trace, orderly) && Valid(logs.Registry()) && KeyedChunks(logs.chunks)
      && Linked(Now(), logs.chunks, CurrentLease(jobs.rows, job), lastSeq, todo, ChanAt(logs.Registry(), sub), job)
      && Written(Now(), writer.out, items)
    }

    /* ---------- one step each ---------- */

    method Subscribe()
      requires Sync() && Now().pc.Connecting?
      modifies this, writer, logs`subs, logs`chans
      ensures Sync() && Stepped(old(trace), trace, Action.Subscribe) && items == old(items) + [Comment("connected")]
    {
      hide IsRun, Valid, Written, IsReplay, KeyedChunks, PrintItem, Linked, Plain, LogStore.Step;
      ghost var w, a := Now(), Action.Subscribe;
      SubscribeLinks(w, logs.chunks, CurrentLease(jobs.rows, job), lastSeq, todo, logs.Registry(), sub, job);
      HandlerComments();
      writer.WriteComment("connected");
      logs.Subscribe(job, sub);
      trace := trace + [Apply(w, a)];
      RunGrows(old(trace), trace, a, orderly);
      WroteOther(w, Now(), old(writer.out), items, Comment("connected"));
      items := items + [Comment("connected")];
    }

    /** The first replay: everything from the start asked for. */
    method ReadReplay()
      requires Sync() && Now().pc.Subscribed?
      modifies this
      ensures Sync() && Stepped(old(trace), trace, Action.Replay(todo)) && lastSeq == old(lastSeq)
      ensures items == old(items)
    {
      hide IsRun, Valid, Written, IsReplay, KeyedChunks;
      ghost var w := Now();
      StartIsNext(trace, orderly);
      todo := logs.ReplayFrom(jobs.rows, job, lastSeq + 1);
      ghost var a := Action.Replay(todo);
      trace := trace + [Apply(w, a)];
      RunGrows(old(trace), trace, a, orderly);
      SameWritten(w, Now(), writer.out, items);
    }

    /** After the channel was closed under us. */
    method ReadResync()
      requires Sync() && Now().pc.Live? && logs.chans[sub].buf == [] && !logs.chans[sub].open
      modifies this
      ensures Sync() && Stepped(old(trace), trace, Action.Resync(todo)) && lastSeq == old(lastSeq)
      ensures items == old(items)
    {
      hide IsRun, Valid, Written, IsReplay, KeyedChunks;
      ghost var w := Now();
      todo := logs.ReplayFrom(jobs.rows, job, lastSeq + 1);
      ghost var a := Action.Resync(todo);
      trace := trace + [Apply(w, a)];
      RunGrows(old(trace), trace, a, orderly);
      SameWritten(w, Now(), writer.out, items);
    }

    /** The final catch-up; ok is false when the read fails, which is only logged. */
    method ReadRest(ok: bool)
      requires Sync() && Now().pc.Drained?
      modifies this
      ensures Sync() && Stepped(old(trace), trace, Action.Finish(todo, ok)) && lastSeq == old(lastSeq)
      ensures items == old(items)
    {
      hide IsRun, Valid, Written, IsReplay, KeyedChunks;
      ghost var w := Now();
      todo := [];
      if ok { todo := logs.ReplayFrom(jobs.rows, job, lastSeq + 1); }
      ghost var a := Action.Finish(todo, ok);
      trace := trace + [Apply(w, a)];
      RunGrows(old(trace), trace, a, orderly);
      SameWritten(w, Now(), writer.out, items);
    }

    method WriteNext()
      requires Sync() && Reading(Now().pc) && todo != []
      modifies this, writer
      ensures Sync() && Stepped(old(trace), trace, Action.WriteNext)
      ensures todo == old(todo)[1..] && lastSeq == old(todo)[0].num && items == old(items) + LogItems([old(todo)[0]])
    {
      hide IsRun, Valid, Written, IsReplay, KeyedChunks, PrintItem, LogItems, Print;
      ghost var w, a := Now(), Action.WriteNext;
      var c := todo[0];
      writer.WriteChunkEvent(c);
      lastSeq, todo := c.num, todo[1..];
      trace := trace + [Apply(w, a)];
      RunGrows(old(trace), trace, a, orderly);
      OneLog(c);
      WroteLogs(w, Now(), old(writer.out), items, [c]);
      items := items + LogItems([c]);
    }

    /** One chunk from the channel, if there is one: written unless it was already sent. */
    method TakeLive() returns (got: bool)
      requires Sync() && (Now().pc.Live? || Now().pc.Draining?)
      modifies this, writer, logs`chans
      ensures Sync() && sub in old(logs.chans) && got == (old(logs.chans)[sub].buf != []) && todo == old(todo)
      ensures !got ==> trace == old(trace) && items == old(items)
      ensures got ==> Stepped(old(trace), trace, Action.Receive)
      ensures got ==> items == old(items) + LogItems(Unsent(old(logs.chans)[sub].buf[..1], old(lastSeq)))
    {
      hide IsRun, Valid, Written, IsReplay, KeyedChunks, PrintItem, LogItems, Print, Unsent;
      ghost var w, a := Now(), Action.Receive;
      var next := logs.Receive(sub);
      got := next.Some?;
      if got {
        var c := next.value;
        ghost var unsent := Unsent([c], lastSeq);
        OneUnsent(c, lastSeq);
        OneLog(c);
        assert old(logs.chans)[sub].buf[..1] == [c];
        if c.num > lastSeq {
          writer.WriteChunkEvent(c);
          lastSeq := c.num;
        }
        trace := trace + [Apply(w, a)];
        RunGrows(old(trace), trace, a, orderly);
        NothingPrinted();
        assert old(writer.out) + "" == old(writer.out);
        WroteLogs(w, Now(), old(writer.out), items, unsent);
        items := items + LogItems(unsent);
      }
    }

    /** A keep-alive comment, which the machine does not see. */
    method KeepAlive()
      requires Sync()
      modifies this`items, writer
      ensures Sync() && items == old(items) + [Comment("keep-alive")]
    {
      hide IsRun, Valid, Written, IsReplay, KeyedChunks, PrintItem;
      writer.WriteComment("keep-alive");
      HandlerComments();
      WroteOther(Now(), Now(), old(writer.out), items, Comment("keep-alive"));
      items := items + [Comment("keep-alive")];
    }

    /** The channel was found empty. */
    method StopDraining()
      requires Sync() && Now().pc.Draining? && logs.chans[sub].buf == []
      modifies this`trace
      ensures Sync() && Stepped(old(trace), trace, Action.StopDraining) && Now() == old(Now()).(pc := Drained)
    {
      hide IsRun, Valid, Written, IsReplay, KeyedChunks;
      Moves(Action.StopDraining);
    }

    method WriteEnd(status: Status)
      requires Sync() && Now().pc.Finishing? && todo == []
      modifies this, writer
      ensures Sync() && Stepped(old(trace), trace, Action.WriteEnd) && items == old(items) + [End(status)]
      ensures lastSeq == old(lastSeq) && todo == old(todo)
    {
      hide IsRun, Valid, Written, IsReplay, KeyedChunks, PrintItem;
      ghost var w, a := Now(), Action.WriteEnd;
      writer.WriteEnd(status);
      trace := trace + [Apply(w, a)];
      RunGrows(old(trace), trace, a, orderly);
      WroteOther(w, Now(), old(writer.out), items, End(status));
      items := items + [End(status)];
    }

    /** Steps that only move the program counter. */
    ghost method Moves(a: Action)
      requires Sync() && Enabled(Now(), a) && (a.EndReplay? || a.SeeOver? || a.StopDraining?)
      modifies this`trace
      ensures Sync() && Stepped(old(trace), trace, a)
    {
      hide IsRun, Valid, Written, IsReplay, KeyedChunks;
      ghost var w := Now();
      trace := trace + [Apply(w, a)];
      RunGrows(old(trace), trace, a, orderly);
      SameWritten(w, Now(), writer.out, items);
    }

    /* ---------- whole stages, run alone ---------- */

    /** The write loop of a replay. */
    method WriteTodo()
      requires Sync() && Reading(Now().pc)
      modifies this, writer
      ensures Sync() && todo == [] && lastSeq == LastOf(old(todo), old(lastSeq))
      ensures items == old(items) + LogItems(old(todo))
      ensures old(trace) <= trace && Now() == AllWritten(old(Now()))
    {
      hide IsRun, Valid, Written, IsReplay, KeyedChunks, LogItems, Linked, AllWritten;
      ghost var done := [];
      NothingWritten();
      while todo != []
        invariant Sync() && Reading(Now().pc) && old(trace) <= trace && AllWritten(Now()) == AllWritten(old(Now()))
        invariant done + todo == old(todo) && items == old(items) + LogItems(done)
        invariant lastSeq == LastOf(done, old(lastSeq))
        decreases |todo|
      {
        ghost var w, c := Now(), todo[0];
        SyncTodo();
        WriteNext();
        WritesOne(w);
        LogItemsJoin(done, [c]);
        done := done + [c];
      }
      assert done == old(todo);
      SyncTodo();
      AllIsWritten(Now());
    }

    lemma SyncTodo()
      requires Sync() && Reading(Now().pc)
      ensures Now().pc.todo == todo
    {
    }

    /** The first replay: read and written in full. */
    method CatchUp() returns (ghost found: seq<Chunk>)
      requires Sync() && Now().pc.Subscribed?
      modifies this, writer
      ensures Sync() && todo == [] && Now().pc == Replaying([]) && old(trace) <= trace
      ensures IsReplay(found, logs.chunks, CurrentLease(jobs.rows, job), old(lastSeq) + 1)
      ensures items == old(items) + LogItems(found) && lastSeq == LastOf(found, old(lastSeq))
    {
      hide IsRun, Valid, Written, KeyedChunks, LogItems, AllWritten, IsReplay;
      ghost var w := Now();
      StartIsNext(trace, orderly);
      ReadReplay();
      found := todo;
      ReplayIsOpen(w, Now(), found);
      WriteTodo();
    }

    /** logsMaybeFinish's first loop. */
    method DrainBuffer()
      requires Sync() && Now().pc.Draining?
      modifies this, writer, logs`chans
      ensures Sync() && old(trace) <= trace && Now() == Drain(old(Now())) && todo == old(todo)
      ensures items == old(items) + LogItems(Unsent(old(Now()).chan.buf, old(lastSeq)))
    {
      hide IsRun, Valid, Written, IsReplay, KeyedChunks, LogItems, Unsent, Drain, Linked;
      ghost var late := [];
      ghost var all := Unsent(Now().chan.buf, lastSeq);
      NothingWritten();
      var got := true;
      while got
        invariant Sync() && Now().pc.Draining? && old(trace) <= trace && Drain(Now()) == Drain(old(Now()))
        invariant todo == old(todo)
        invariant all == late + Unsent(Now().chan.buf, lastSeq) && items == old(items) + LogItems(late)
        invariant !got ==> Now().chan.buf == []
        decreases |Now().chan.buf|, got
      {
        ghost var w, last := Now(), lastSeq;
        SyncLive();
        got := TakeLive();
        SyncLive();
        if got {
          ReceiveIsReceived(w);
          DrainUnfolds(w);
          UnsentHead(w.chan.buf, last);
          LogItemsJoin(late, Unsent(w.chan.buf[..1], last));
          late := late + Unsent(w.chan.buf[..1], last);
        }
      }
      NoneUnsent(Now(), lastSeq);
      assert late + [] == late;
    }

    lemma SyncLive()
      requires Sync() && Listening(Now().pc)
      ensures sub in logs.chans && Now().chan.buf == logs.chans[sub].buf && Now().lastSeq == lastSeq
    {
    }

    /** logsMaybeFinish: once the job is over, drain, catch up and end the stream. */
    method MaybeFinish(status: Status, ok: bool) returns (done: bool, ghost found: seq<Chunk>)
      requires Sync() && (Now().pc.Live? || (Now().pc.Replaying? && todo == []))
      modifies this, writer, logs`chans
      ensures Sync() && done == IsTerminal(status) && old(trace) <= trace
      ensures !done ==> Now() == old(Now()).(pc := Live) && items == old(items)
      ensures done ==>
        var late := Unsent(old(Now()).chan.buf, old(lastSeq));
        && (if ok then IsReplay(found, logs.chunks, CurrentLease(jobs.rows, job), LastOf(late,
            old(lastSeq)) + 1) else found == [])
        && items == old(items) + LogItems(late) + LogItems(found) + [End(status)]
        && lastSeq == LastOf(found, LastOf(late, old(lastSeq))) && Now().pc == Ended(ok)
    {
      hide IsRun, Valid, Written, IsReplay, KeyedChunks, LogItems, Unsent, Drain, AllWritten, Linked, Enabled, Apply;
      done, found := IsTerminal(status), [];
      SyncLive();
      Notice(done);
      if done {
        ghost var u := Now();
        SyncLive();
        DrainBuffer();
        DrainEnds(u);
        SyncLive();
        StopDraining();
        found := EndStream(status, ok);
      }
    }

    /** The status was read: the job is over, or the live loop goes on. */
    ghost method Notice(over: bool)
      requires Sync() && (Now().pc.Live? || (Now().pc.Replaying? && todo == []))
      modifies this`trace
      ensures Sync() && old(trace) <= trace && Now() == old(Now()).(pc := if over then Draining else Live)
    {
      hide IsRun, Valid, Written, IsReplay, KeyedChunks, Linked;
      if Now().pc.Replaying? {
        SyncTodo();
        Moves(Action.EndReplay(over));
      } else if over {
        Moves(Action.SeeOver);
      }
    }

    /** The final catch-up and the end event. */
    method EndStream(status: Status, ok: bool) returns (ghost found: seq<Chunk>)
      requires Sync() && Now().pc.Drained?
      modifies this, writer
      ensures Sync() && old(trace) <= trace && Now().pc == Ended(ok)
      ensures if ok then IsReplay(found, logs.chunks, CurrentLease(jobs.rows, job), old(lastSeq) + 1) else found == []
      ensures items == old(items) + LogItems(found) + [End(status)] && lastSeq == LastOf(found, old(lastSeq))
    {
      hide IsRun, Valid, Written, IsReplay, KeyedChunks, LogItems, AllWritten;
      ghost var v := Now();
      ReadRest(ok);
      found := todo;
      RestIsRead(v, Now(), found, ok);
      WriteTodo();
      WriteEnd(status);
    }

    /** The text this connection has written so far, whatever was interleaved with it: cut it anywhere, and
        the client resumes right after what it holds, which is a prefix of the log it asked for. */
    lemma TextResumes(fromSeq: string, k: nat) returns (m: nat)
      requires Sync() && orderly && CrFree(items) && SafeIds(Now().out) && SafeIds(Now().got) && k <= |writer.out|
      requires EffectiveStart("", fromSeq) == Some(Now().origin)
      ensures writer.out == Print(items) && m <= |Now().out|
      ensures Held(Now(), items, k) == Now().got + Now().out[..m] <= From(Now().order, Now().origin)
      ensures ResumesAt(Now(), items, fromSeq, k)
    {
      hide IsRun, Valid, KeyedChunks, Print, Chunks, Linked, EffectiveStart, ResumesAt, Held, From, CrFree;
      m := CutStreamResumes(trace, |trace| - 1, items, fromSeq, k);
    }

    /* ---------- what others do between two steps ---------- */

    /** A runner's chunk is persisted. */
    method Appends(c: Chunk) returns (inserted: bool)
      requires Sync() && (orderly ==> Orderly(Now(), Action.Append(c)))
      modifies this`trace, logs`chunks
      ensures Sync() && Stepped(old(trace), trace, Action.Append(c))
      ensures inserted == ((c.lease, c.num) !in old(logs.chunks))
    {
      hide IsRun, Valid, Written, IsReplay, KeyedChunks, Orderly;
      ghost var w, a := Now(), Action.Append(c);
      inserted := logs.Append(c);
      trace := trace + [Apply(w, a)];
      RunGrows(old(trace), trace, a, orderly);
      SameWritten(w, Now(), writer.out, items);
    }

    /** A persisted chunk of this job is published. */
    method Publishes(c: Chunk, ghost i: nat)
      requires Sync() && c.job == job && i < |Now().inflight| && Now().inflight[i] == c
      requires orderly ==> Orderly(Now(), Action.Publish(i))
      modifies this`trace, logs`subs, logs`chans
      ensures Sync() && Stepped(old(trace), trace, Action.Publish(i))
    {
      hide IsRun, Valid, Written, IsReplay, KeyedChunks, Orderly, LogStore.Step;
      ghost var w, a := Now(), Action.Publish(i);
      StepIsAlone(logs.Registry(), Op.Publish(c), sub);
      logs.Publish(c);
      trace := trace + [Apply(w, a)];
      RunGrows(old(trace), trace, a, orderly);
      SameWritten(w, Now(), writer.out, items);
    }

    /** The dispatcher changes the jobs table; a new lease of the job is a step of the machine. */
    method JobsChange(t: Table)
      requires Sync() && (orderly ==> CurrentLease(t, job) == CurrentLease(jobs.rows, job))
      modifies this`trace, jobs
      ensures Sync() && jobs.rows == t
      ensures if CurrentLease(t, job) == CurrentLease(old(jobs.rows), job) then trace == old(trace)
              else Stepped(old(trace), trace, Action.ReLease(CurrentLease(t, job)))
    {
      hide IsRun, Valid, Written, IsReplay, KeyedChunks;
      ghost var w, a := Now(), Action.ReLease(CurrentLease(t, job));
      if CurrentLease(t, job) != CurrentLease(jobs.rows, job) {
        trace := trace + [Apply(w, a)];
        RunGrows(old(trace), trace, a, orderly);
        SameWritten(w, Now(), writer.out, items);
      }
      jobs.rows := t;
    }
  }

  lemma HandlerComments()
    ensures Plain("connected") && Plain("keep-alive")
  {
  }

  lemma SubscribeLinks(w: World, chunks: map<Key, Chunk>, lease: Option<LeaseId>, lastSeq: int, todo: seq<Chunk>,
                       h: Hub, sub: ChanId,
                       job: RowId)
    requires Linked(w, chunks, lease, lastSeq, todo, ChanAt(h, sub), job) && w.pc.Connecting?
    ensures sub !in h.chans && Enabled(w, Action.Subscribe)
    ensures Linked(Apply(w, Action.Subscribe), chunks, lease, lastSeq, todo,
                   ChanAt(LogStore.Step(h, Op.Subscribe(job, sub)), sub), job)
  {
  }

  lemma NonEmptyRun(ws: seq<World>, orderly: bool)
    requires IsRun(ws, orderly)
    ensures |ws| > 0
  {
  }

  lemma ConnectingIsEmpty(ws: seq<World>, orderly: bool)
    requires IsRun(ws, orderly) && |ws| > 0 && ws[|ws| - 1].pc.Connecting?
    ensures ws[|ws| - 1].out == [] && ws[|ws| - 1].lastSeq == ws[|ws| - 1].start - 1
  {
    hide IsRun, AppendedOnce, PublishedOnce;
    IdsIncrease(ws, orderly, |ws| - 1);
    AllWrittenIsAsked(ws[|ws| - 1]);
  }

  lemma AllWrittenIsAsked(w: World)
    requires WritesIncrease(w) && w.pc.Connecting?
    ensures w.out == []
  {
    HasMember(w.out);
  }

  lemma StartIsNext(ws: seq<World>, orderly: bool)
    requires IsRun(ws, orderly) && |ws| > 0 && ws[|ws| - 1].pc.Subscribed?
    ensures ws[|ws| - 1].lastSeq + 1 == ws[|ws| - 1].start
  {
    hide IsRun, AppendedOnce, PublishedOnce;
    IdsIncrease(ws, orderly, |ws| - 1);
  }

  lemma NothingYet()
    ensures Print([]) == "" && Chunks([]) == [] && CleanComments([])
  {
  }

  lemma SameWritten(w: World, u: World, out: string, items: seq<Item>)
    requires Written(w, out, items) && u.out == w.out
    ensures Written(u, out, items)
  {
  }

  lemma NothingPrinted()
    ensures Print(LogItems([])) == ""
  {
  }

  lemma OneUnsent(c: Chunk, last: int)
    ensures Unsent([c], last) == if c.num <= last then [] else [c]
  {
    assert [c][1..] == [];
  }

  /** The machine with everything read also written. */
  function AllWritten(w: World): World {
    if !Reading(w.pc) || w.pc.todo == [] then w
    else w.(pc := w.pc.(todo := []), out := w.out + w.pc.todo, lastSeq := LastOf(w.pc.todo, w.lastSeq))
  }

  lemma AllIsWritten(w: World)
    requires Reading(w.pc) && w.pc.todo == []
    ensures AllWritten(w) == w
  {
  }

  lemma WritesOne(w: World)
    requires Reading(w.pc) && w.pc.todo != []
    ensures Enabled(w, Action.WriteNext) && AllWritten(Apply(w, Action.WriteNext)) == AllWritten(w)
    ensures Reading(Apply(w, Action.WriteNext).pc)
  {
    var todo := w.pc.todo;
    assert w.out + [todo[0]] + todo[1..] == w.out + todo;
    assert todo[1..] == [] ==> todo == [todo[0]];
  }

  lemma LogItemsJoin(a: seq<Chunk>, b: seq<Chunk>)
    ensures LogItems(a + b) == LogItems(a) + LogItems(b)
  {
  }

  lemma NothingWritten()
    ensures LogItems([]) == []
  {
  }

  lemma ReplayIsOpen(w: World, u: World, found: seq<Chunk>)
    requires Enabled(w, Action.Replay(found)) && u == Apply(w, Action.Replay(found))
    ensures Reading(u.pc) && u.pc.todo == found && AllWritten(u).pc == Replaying([])
    ensures IsReplay(found, w.chunks, w.lease, w.start)
  {
    hide IsReplay;
  }

  lemma ReceiveIsReceived(w: World)
    requires w.pc.Draining? && w.chan.buf != []
    ensures Enabled(w, Action.Receive) && Apply(w, Action.Receive) == Received(w)
    ensures Received(w).lastSeq == LastOf(Unsent(w.chan.buf[..1], w.lastSeq), w.lastSeq)
  {
    hide Unsent;
    OneUnsent(w.chan.buf[0], w.lastSeq);
    assert w.chan.buf[..1] == [w.chan.buf[0]];
  }

  lemma DrainUnfolds(w: World)
    requires w.chan.buf != []
    ensures Drain(w) == Drain(Received(w))
  {
  }

  lemma NoneUnsent(w: World, last: int)
    requires w.chan.buf == []
    ensures Unsent(w.chan.buf, last) == [] && Drain(w) == w
  {
  }

  lemma UnsentHead(buf: seq<Chunk>, last: int)
    requires buf != []
    ensures var one := Unsent(buf[..1], last); Unsent(buf, last) == one + Unsent(buf[1..], LastOf(one, last))
  {
    OneUnsent(buf[0], last);
    assert buf[..1] == [buf[0]];
  }

  lemma DrainEnds(u: World)
    ensures var v := Drain(u);
      v.pc == u.pc && v.chan.buf == [] && v.lastSeq == LastOf(Unsent(u.chan.buf, u.lastSeq), u.lastSeq)
  {
    DrainWritesUnsent(u);
  }

  lemma RestIsRead(v: World, u: World, found: seq<Chunk>, ok: bool)
    requires Enabled(v, Action.Finish(found, ok)) && u == Apply(v, Action.Finish(found, ok))
    ensures Reading(u.pc) && u.pc.todo == found
    ensures if ok then IsReplay(found, v.chunks, v.lease, v.lastSeq + 1) else found == []
    ensures AllWritten(u).pc == Finishing([], ok)
  {
    hide IsReplay;
  }
}
