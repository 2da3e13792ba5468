/** The event stream as text (internal/api/logs.go:147-200) and as the reader of sections 9.2.5 and
    9.2.6 of the WHATWG HTML Living Standard takes it apart. */
module SseFraming {
  import opened Jobs
  import opened LogStore

  /* ---------- what the server prints ---------- */

  function DecNat(n: nat): string {
    if n < 10 then [Digit(n)] else DecNat(n / 10) + [Digit(n % 10)]
  }

  function Digit(d: nat): char
    requires d < 10
  {
    '0' + d as char
  }

  /** The %d verb. */
  function Dec(n: int): string {
    if n < 0 then "-" + DecNat(-n) else DecNat(n)
  }

  /** strings.Split on LF. */
  function Split(s: string): (r: seq<string>)
    ensures |r| > 0
  {
    if s == [] then [""]
    else if s[0] == '\n' then [""] + Split(s[1..])
    else var r := Split(s[1..]); [[s[0]] + r[0]] + r[1..]
  }

  /** The lines of a chunk, without the empty one after a trailing LF. */
  function Framed(data: string): seq<string> {
    var lines := Split(data);
    if |lines| > 1 && lines[|lines| - 1] == "" then lines[..|lines| - 1] else lines
  }

  function Joined(lines: seq<string>): string {
    if lines == [] then "" else lines[0] + "\n" + Joined(lines[1..])
  }

  function DataLines(lines: seq<string>): seq<string> {
    if lines == [] then [] else ["data: " + lines[0]] + DataLines(lines[1..])
  }

  datatype Item = Log(c: Chunk) | Comment(text: string) | End(status: Status)

  function StatusName(s: Status): string {
    match s
    case Queued => "queued"
    case Leased => "leased"
    case Running => "running"
    case Success => "success"
    case Failure => "failure"
    case Cancelled => "cancelled"
    case Skipped => "skipped"
  }

  function EndPayload(s: Status): string {
    "{\"status\":\"" + StatusName(s) + "\"}"
  }

  function ItemLines(it: Item): seq<string> {
    match it
    case Log(c) => ["id: " + Dec(c.num), "event: log"] + DataLines(Framed(c.data))
    case Comment(text) => [": " + text]
    case End(s) => ["event: end", "data: " + EndPayload(s)]
  }

  function PrintItem(it: Item): string {
    Joined(ItemLines(it)) + "\n"
  }

  function Print(items: seq<Item>): string {
    if items == [] then "" else PrintItem(items[0]) + Print(items[1..])
  }

  lemma JoinedHead(lines: seq<string>)
    requires lines != []
    ensures Joined(lines) == lines[0] + "\n" + Joined(lines[1..])
  {
  }

  lemma NothingJoined()
    ensures Joined([]) == "" && Print([]) == ""
  {
  }

  lemma {:induction false} JoinedConcat(a: seq<string>, b: seq<string>)
    ensures Joined(a + b) == Joined(a) + Joined(b)
  {
    hide Joined;
    if a == [] {
      assert a + b == b;
      NothingJoined();
    } else {
      JoinedConcat(a[1..], b);
      JoinedHead(a);
      JoinedHead(a + b);
      assert (a + b)[1..] == a[1..] + b;
    }
  }

  lemma PrintHead(items: seq<Item>)
    requires items != []
    ensures Print(items) == PrintItem(items[0]) + Print(items[1..])
  {
  }

  lemma {:induction false} PrintConcat(a: seq<Item>, b: seq<Item>)
    ensures Print(a + b) == Print(a) + Print(b)
  {
    hide PrintItem, Print;
    if a == [] {
      assert a + b == b;
      NothingJoined();
    } else {
      PrintConcat(a[1..], b);
      PrintHead(a);
      PrintHead(a + b);
      assert (a + b)[1..] == a[1..] + b;
    }
  }

  lemma PrintSnoc(items: seq<Item>, it: Item)
    ensures Print(items + [it]) == Print(items) + PrintItem(it)
  {
    hide PrintItem;
    PrintConcat(items, [it]);
    assert [it][1..] == [];
  }

  lemma ChunkPrints(c: Chunk)
    ensures PrintItem(Log(c)) == "id: " + Dec(c.num) + "\n" + "event: log\n" + Joined(DataLines(Framed(c.data))) + "\n"
  {
    hide Framed, DataLines, Dec;
    var head := ["id: " + Dec(c.num), "event: log"];
    JoinedConcat(head, DataLines(Framed(c.data)));
    HeadPrints(c);
  }

  lemma PiecesPrint(out: string, c: Chunk, a: string, b: string, d: string)
    requires a == "id: " + Dec(c.num) + "\n" && b == "event: log\n" && d == Joined(DataLines(Framed(c.data)))
    ensures out + a + b + d + "\n" == out + PrintItem(Log(c))
  {
    hide PrintItem, Framed, DataLines, Dec, Joined;
    ChunkPrints(c);
    assert PrintItem(Log(c)) == a + b + d + "\n";
  }

  /** The response writer. */
  class Writer {
    var out: string

    constructor ()
      ensures out == ""
    {
      out := "";
    }

    method WriteChunkEvent(c: Chunk)
      modifies this
      ensures out == old(out) + PrintItem(Log(c))
    {
      hide PrintItem, Split, Dec, DataLines, Joined;
      var lines := Split(c.data);
      if |lines| > 1 && lines[|lines| - 1] == "" {
        lines := lines[..|lines| - 1];
      }
      out := out + ("id: " + Dec(c.num) + "\n");
      out := out + "event: log\n";
      WriteDataLines(lines);
      out := out + "\n";
      PiecesPrint(old(out), c, "id: " + Dec(c.num) + "\n", "event: log\n", Joined(DataLines(lines)));
    }

    method WriteDataLines(lines: seq<string>)
      modifies this
      ensures out == old(out) + Joined(DataLines(lines))
    {
      var i := 0;
      assert lines[0..] == lines;
      while i < |lines|
        invariant 0 <= i <= |lines|
        invariant out + Joined(DataLines(lines[i..])) == old(out) + Joined(DataLines(lines))
      {
        DataLinesHead(lines, i);
        var line := "data: " + lines[i] + "\n";
        assert out + (line + Joined(DataLines(lines[i + 1..]))) == (out + line) + Joined(DataLines(lines[i + 1..]));
        out := out + line;
        i := i + 1;
      }
      assert out + [] == out;
    }

    method WriteComment(text: string)
      modifies this
      ensures out == old(out) + PrintItem(Comment(text))
    {
      out := out + (": " + text + "\n\n");
      assert Joined([": " + text]) == ": " + text + "\n";
    }

    method WriteEnd(s: Status)
      modifies this
      ensures out == old(out) + PrintItem(End(s))
    {
      out := out + "event: end\n";
      out := out + ("data: " + EndPayload(s) + "\n\n");
      EndPrints(s);
    }

    /** The write loop of a replay: every chunk in order, the last seq written returned. */
    method WriteChunks(chunks: seq<Chunk>, lastSeq: int) returns (last: int)
      modifies this
      ensures out == old(out) + Print(LogItems(chunks))
      ensures last == if chunks == [] then lastSeq else chunks[|chunks| - 1].num
    {
      hide PrintItem, Print, LogItems;
      last := lastSeq;
      PrintsNothing(chunks);
      var i := 0;
      while i < |chunks|
        invariant 0 <= i <= |chunks|
        invariant out == old(out) + Print(LogItems(chunks[..i]))
        invariant last == if i == 0 then lastSeq else chunks[i - 1].num
      {
        WriteChunkEvent(chunks[i]);
        LogItemsSnoc(chunks, i);
        PrintSnoc(LogItems(chunks[..i]), Log(chunks[i]));
        last := chunks[i].num;
        i := i + 1;
      }
      assert chunks[..|chunks|] == chunks;
    }
  }

  function LogItems(chunks: seq<Chunk>): seq<Item> {
    seq(|chunks|, i requires 0 <= i < |chunks| => Log(chunks[i]))
  }

  lemma LogItemsSnoc(chunks: seq<Chunk>, i: nat)
    requires i < |chunks|
    ensures LogItems(chunks[..i + 1]) == LogItems(chunks[..i]) + [Log(chunks[i])]
  {
  }

  lemma PrintsNothing(chunks: seq<Chunk>)
    ensures Print(LogItems(chunks[..0])) == ""
  {
  }

  lemma DataLinesHead(lines: seq<string>, i: nat)
    requires i < |lines|
    ensures Joined(DataLines(lines[i..])) == "data: " + lines[i] + "\n" + Joined(DataLines(lines[i + 1..]))
  {
    assert lines[i..][1..] == lines[i + 1..];
  }

  lemma HeadPrints(c: Chunk)
    ensures Joined(["id: " + Dec(c.num), "event: log"]) == "id: " + Dec(c.num) + "\n" + "event: log\n"
  {
    assert Joined(["event: log"]) == "event: log\n";
    assert ["id: " + Dec(c.num), "event: log"][1..] == ["event: log"];
  }

  lemma EndPrints(s: Status)
    ensures PrintItem(End(s)) == "event: end\n" + ("data: " + EndPayload(s) + "\n\n")
  {
    hide EndPayload;
    var data := "data: " + EndPayload(s);
    assert Joined([data]) == data + "\n";
    assert ItemLines(End(s))[1..] == [data];
  }

  lemma CommentPrints(text: string)
    ensures PrintItem(Comment(text)) == ": " + text + "\n\n"
  {
    assert Joined([": " + text]) == ": " + text + "\n";
  }

  /* ---------- how the client reads it ---------- */

  datatype Event = Event(kind: string, data: string, id: string)

  /** line is the unfinished line, cr whether a CR just ended one; idBuf is the last event ID buffer
      and lastId the last event ID string, which a reconnect sends back. */
  datatype Reader = Reader(line: string, cr: bool, data: string, kind: string, idBuf: string, lastId: string,
      events: seq<Event>)

  function Colon(line: string): (k: nat)
    ensures k <= |line|
  {
    if line == [] || line[0] == ':' then 0 else 1 + Colon(line[1..])
  }

  /** What follows the colon, less one leading space. */
  function Value(line: string): string {
    var k := Colon(line);
    if k == |line| then ""
    else if k + 1 < |line| && line[k + 1] == ' ' then line[k + 2..] else line[k + 1..]
  }

  function Dispatch(r: Reader): Reader {
    var u := r.(lastId := r.idBuf, data := "", kind := "");
    if r.data == "" then u
    else
      var data := if r.data[|r.data| - 1] == '\n' then r.data[..|r.data| - 1] else r.data;
      u.(events := r.events + [Event(if r.kind == "" then "message" else r.kind, data, r.idBuf)])
  }

  /** Processing one line. */
  function Take(r: Reader, line: string): Reader {
    if line == "" then Dispatch(r)
    else
      var field, value := line[..Colon(line)], Value(line);
      if field == "event" then r.(kind := value)
      else if field == "data" then r.(data := r.data + value + "\n")
      else if field == "id" && '\0' !in value then r.(idBuf := value)
      else r
  }

  /** A line ends at LF, CR or CRLF. */
  function Feed(r: Reader, c: char): Reader {
    if c == '\r' then Take(r, r.line).(line := "", cr := true)
    else if c == '\n' then (if r.cr then r.(cr := false) else Take(r, r.line).(line := ""))
    else r.(line := r.line + [c], cr := false)
  }

  function FeedAll(r: Reader, s: string): Reader
    decreases |s|
  {
    if s == [] then r else FeedAll(Feed(r, s[0]), s[1..])
  }

  function TakeAll(r: Reader, lines: seq<string>): Reader
    decreases |lines|
  {
    if lines == [] then r else TakeAll(Take(r, lines[0]), lines[1..])
  }

  /** A new connection of a client holding lastId.  Section 9.2.6 starts every stream with an empty last
      event ID buffer; a client may also carry the buffer over from its previous connection. */
  function Opened(buffer: string, lastId: string): Reader {
    Reader("", false, "", "", buffer, lastId, [])
  }

  lemma {:induction false} FeedConcat(r: Reader, a: string, b: string)
    ensures FeedAll(r, a + b) == FeedAll(FeedAll(r, a), b)
    decreases |a|
  {
    if a == [] {
      assert a + b == b;
    } else {
      FeedConcat(Feed(r, a[0]), a[1..], b);
      assert (a + b)[1..] == a[1..] + b;
    }
  }

  lemma {:induction false} TakeConcat(r: Reader, a: seq<string>, b: seq<string>)
    ensures TakeAll(r, a + b) == TakeAll(TakeAll(r, a), b)
    decreases |a|
  {
    if a == [] {
      assert a + b == b;
    } else {
      TakeConcat(Take(r, a[0]), a[1..], b);
      assert (a + b)[1..] == a[1..] + b;
    }
  }

  /** One line: it holds neither CR nor LF. */
  predicate Plain(s: string) {
    '\r' !in s && '\n' !in s
  }

  predicate AtLineStart(r: Reader) {
    r.line == "" && !r.cr
  }

  lemma {:induction false} FeedText(r: Reader, t: string)
    requires Plain(t) && !r.cr
    ensures FeedAll(r, t) == r.(line := r.line + t)
    decreases |t|
  {
    if t == [] {
      assert r.line + t == r.line;
    } else {
      assert t[0] in t;
      FeedText(Feed(r, t[0]), t[1..]);
      assert r.line + [t[0]] + t[1..] == r.line + t;
    }
  }

  lemma FeedLine(r: Reader, t: string)
    requires Plain(t) && AtLineStart(r)
    ensures FeedAll(r, t + "\n") == Take(r, t) && AtLineStart(Take(r, t))
  {
    FeedText(r, t);
    FeedConcat(r, t, "\n");
    var u := r.(line := t);
    assert r.line + t == t;
    assert FeedAll(u, "\n") == Feed(u, '\n');
    TakeIgnoresLine(r, t);
  }

  lemma TakeIgnoresLine(r: Reader, t: string)
    ensures Take(r.(line := t), t).(line := r.line) == Take(r, t)
  {
  }

  lemma {:induction false} FeedLines(r: Reader, lines: seq<string>)
    requires (forall i :: 0 <= i < |lines| ==> Plain(lines[i])) && AtLineStart(r)
    ensures FeedAll(r, Joined(lines)) == TakeAll(r, lines) && AtLineStart(TakeAll(r, lines))
    decreases |lines|
  {
    if lines != [] {
      FeedLine(r, lines[0]);
      FeedConcat(r, lines[0] + "\n", Joined(lines[1..]));
      FeedLines(Take(r, lines[0]), lines[1..]);
    }
  }
}
