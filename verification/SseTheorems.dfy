/** What a client reads from a printed stream, whole or cut anywhere, and where it resumes. */
module SseTheorems {
  import opened Jobs
  import opened LogStore
  import opened SseFraming

  /** The payload the client is meant to see: the chunk without one trailing LF. */
  function Trimmed(data: string): string {
    if data != "" && data[|data| - 1] == '\n' then data[..|data| - 1] else data
  }

  /* ---------- lines ---------- */

  lemma JoinedOne(line: string)
    ensures Joined([line]) == line + "\n"
  {
    assert [line][1..] == [];
  }

  lemma {:induction false} SplitJoins(s: string)
    ensures Joined(Split(s)) == s + "\n"
  {
    hide Joined;
    if s == [] {
      JoinedOne("");
    } else {
      var r := Split(s[1..]);
      SplitJoins(s[1..]);
      JoinedHead(r);
      JoinedHead(Split(s));
      assert Split(s)[1..] == if s[0] == '\n' then r else r[1..];
      assert Joined(Split(s)) == [s[0]] + Joined(r);
      assert s + "\n" == [s[0]] + (s[1..] + "\n");
    }
  }

  lemma {:induction false} SplitIsPlain(s: string)
    ensures forall i :: 0 <= i < |Split(s)| ==> '\n' !in Split(s)[i]
    ensures '\r' !in s ==> forall i :: 0 <= i < |Split(s)| ==> Plain(Split(s)[i])
  {
    if s != [] { SplitIsPlain(s[1..]); }
  }

  lemma ConcatAssoc(a: string, b: string, c: string)
    ensures a + (b + c) == a + b + c
  {
  }

  lemma JoinedSnoc(lines: seq<string>, last: string)
    ensures Joined(lines + [last]) == Joined(lines) + last + "\n"
  {
    hide Joined;
    JoinedOne(last);
    JoinedConcat(lines, [last]);
    ConcatAssoc(Joined(lines), last, "\n");
  }

  lemma JoinedLast(lines: seq<string>)
    requires lines != []
    ensures Joined(lines) == Joined(lines[..|lines| - 1]) + lines[|lines| - 1] + "\n"
  {
    hide Joined;
    var n := |lines| - 1;
    JoinedSnoc(lines[..n], lines[n]);
    assert lines == lines[..n] + [lines[n]];
  }

  lemma FramedJoins(s: string)
    ensures Joined(Framed(s)) == Trimmed(s) + "\n"
  {
    hide Split, Joined;
    var lines := Split(s);
    var n := |lines| - 1;
    SplitJoins(s);
    JoinedLast(lines);
    SplitIsPlain(s);
    var init := Joined(lines[..n]);
    assert init + lines[n] == s by { DropLast(init + lines[n], s); }
    if lines[n] != "" {
      assert s[|s| - 1] == lines[n][|lines[n]| - 1];
    } else if n > 0 {
      assert init == s;
      JoinedLast(lines[..n]);
      assert s[|s| - 1] == '\n';
    } else {
      OneLine(s);
    }
  }

  lemma DropLast(a: string, b: string)
    requires a + "\n" == b + "\n"
    ensures a == b
  {
    assert a == (a + "\n")[..|a + "\n"| - 1];
    assert b == (b + "\n")[..|b + "\n"| - 1];
  }

  lemma OneLine(s: string)
    requires Split(s) == [""]
    ensures s == ""
  {
    SplitJoins(s);
    assert |s + "\n"| == |Joined([""])|;
  }

  /* ---------- fields ---------- */

  lemma {:induction false} ColonAt(name: string, rest: string)
    requires ':' !in name
    ensures Colon(name + ":" + rest) == |name|
  {
    var line := name + ":" + rest;
    if name != [] {
      ColonAt(name[1..], rest);
      assert line[1..] == name[1..] + ":" + rest;
      assert line[0] == name[0];
    }
  }

  lemma FieldIs(name: string, v: string)
    requires ':' !in name
    ensures var line := name + ": " + v; line != "" && line[..Colon(line)] == name && Value(line) == v
  {
    var line := name + ": " + v;
    ColonAt(name, " " + v);
    assert line == name + ":" + (" " + v);
    assert line[|name| + 2..] == v;
  }

  lemma TakeData(r: Reader, v: string)
    ensures Take(r, "data: " + v) == r.(data := r.data + v + "\n")
  {
    hide Colon, Value;
    FieldIs("data", v);
    assert "data" + ": " + v == "data: " + v;
  }

  lemma TakeEvent(r: Reader, v: string)
    ensures Take(r, "event: " + v) == r.(kind := v)
  {
    hide Colon, Value;
    FieldIs("event", v);
    assert "event" + ": " + v == "event: " + v;
  }

  lemma TakeId(r: Reader, v: string)
    requires '\0' !in v
    ensures Take(r, "id: " + v) == r.(idBuf := v)
  {
    hide Colon, Value;
    FieldIs("id", v);
    assert "id" + ": " + v == "id: " + v;
  }

  lemma TakeComment(r: Reader, v: string)
    ensures Take(r, ": " + v) == r
  {
    hide Colon, Value;
    FieldIs("", v);
    assert "" + ": " + v == ": " + v;
  }

  lemma {:induction false} TakeDataLines(r: Reader, lines: seq<string>)
    ensures TakeAll(r, DataLines(lines)) == r.(data := r.data + Joined(lines))
    decreases |lines|
  {
    hide Take;
    if lines == [] {
      assert r.data + "" == r.data;
    } else {
      TakeData(r, lines[0]);
      TakeDataLines(Take(r, "data: " + lines[0]), lines[1..]);
      assert r.data + lines[0] + "\n" + Joined(lines[1..]) == r.data + Joined(lines);
    }
  }

  lemma {:induction false} DecNatIsPlain(n: nat)
    ensures forall c :: c in DecNat(n) ==> '0' <= c <= '9'
  {
    if n >= 10 { DecNatIsPlain(n / 10); }
  }

  lemma DecIsPlain(n: int)
    ensures Plain(Dec(n)) && '\0' !in Dec(n)
  {
    DecNatIsPlain(if n < 0 then -n else n);
  }

  /* ---------- items ---------- */

  /** Between two items. */
  predicate Ready(r: Reader) {
    AtLineStart(r) && r.data == "" && r.kind == ""
  }

  /** The id in force after an item. */
  function NextId(it: Item, id: string): string {
    if it.Log? then Dec(it.c.num) else id
  }

  /** The events an item is meant to cause. */
  function ItemEvents(it: Item, id: string): seq<Event> {
    match it
    case Log(c) => [Event("log", Trimmed(c.data), Dec(c.num))]
    case Comment(_) => []
    case End(s) => [Event("end", EndPayload(s), id)]
  }

  function Expected(items: seq<Item>, id: string): seq<Event> {
    if items == [] then []
    else ItemEvents(items[0], id) + Expected(items[1..], NextId(items[0], id))
  }

  function IdAfter(items: seq<Item>, id: string): string {
    if items == [] then id else IdAfter(items[1..], NextId(items[0], id))
  }

  function After(r: Reader, it: Item): Reader {
    var id := NextId(it, r.idBuf);
    r.(idBuf := id, lastId := id, events := r.events + ItemEvents(it, r.idBuf))
  }

  lemma LogIsRead(r: Reader, c: Chunk)
    requires Ready(r)
    ensures TakeAll(r, ItemLines(Log(c)) + [""]) == After(r, Log(c))
  {
    hide Dec, Framed, DataLines, Joined, Trimmed;
    var id := Dec(c.num);
    var data := DataLines(Framed(c.data));
    DecIsPlain(c.num);
    TakeId(r, id);
    var r1 := r.(idBuf := id);
    TakeEvent(r1, "log");
    assert "event: " + "log" == "event: log";
    var r2 := r1.(kind := "log");
    var lines := ["id: " + id, "event: log"];
    TakeTwo(r, lines[0], lines[1]);
    TakeConcat(r, lines, data);
    TakeDataLines(r2, Framed(c.data));
    FramedJoins(c.data);
    var r3 := r2.(data := Trimmed(c.data) + "\n");
    assert r2.data + (Trimmed(c.data) + "\n") == Trimmed(c.data) + "\n";
    TakeConcat(r, lines + data, [""]);
    TakeOne(r3, "");
    assert (Trimmed(c.data) + "\n")[..|Trimmed(c.data)|] == Trimmed(c.data);
  }

  lemma TakeOne(r: Reader, a: string)
    ensures TakeAll(r, [a]) == Take(r, a)
  {
    hide Take;
    assert [a][1..] == [];
  }

  lemma TakeTwo(r: Reader, a: string, b: string)
    ensures TakeAll(r, [a, b]) == Take(Take(r, a), b)
  {
    hide Take;
    TakeOne(Take(r, a), b);
    assert [a, b][1..] == [b];
  }

  lemma ItemIsRead(r: Reader, it: Item)
    requires Ready(r)
    ensures TakeAll(r, ItemLines(it) + [""]) == After(r, it)
  {
    hide EndPayload;
    match it
    case Log(c) => LogIsRead(r, c);
    case Comment(text) =>
      TakeComment(r, text);
      TakeTwo(r, ": " + text, "");
      assert ItemLines(it) + [""] == [": " + text, ""];
      assert r.events + [] == r.events;
    case End(s) => EndIsRead(r, s);
  }

  lemma EndIsRead(r: Reader, s: Status)
    requires Ready(r)
    ensures TakeAll(r, ItemLines(End(s)) + [""]) == After(r, End(s))
  {
    hide EndPayload, Colon, Value, TakeAll;
    var p := EndPayload(s);
    EndLinesAreRead(r, p);
    TakeConcat(r, ["event: end", "data: " + p], [""]);
    TakeOne(r.(kind := "end", data := p + "\n"), "");
    assert (p + "\n")[..|p|] == p;
  }

  lemma EndLinesAreRead(r: Reader, p: string)
    requires Ready(r)
    ensures TakeAll(r, ["event: end", "data: " + p]) == r.(kind := "end", data := p + "\n")
  {
    hide Colon, Value, TakeAll;
    TakeEvent(r, "end");
    assert "event: " + "end" == "event: end";
    TakeData(r.(kind := "end"), p);
    TakeTwo(r, "event: end", "data: " + p);
    assert r.data + p + "\n" == p + "\n";
  }

  /* ---------- the round trip ---------- */

  /** Comments are single lines: the handler only writes "connected" and "keep-alive". */
  predicate CleanComments(items: seq<Item>) {
    forall i :: 0 <= i < |items| && items[i].Comment? ==> Plain(items[i].text)
  }

  predicate CrFree(items: seq<Item>) {
    forall i :: 0 <= i < |items| && items[i].Log? ==> '\r' !in items[i].c.data
  }

  predicate Printable(it: Item) {
    (it.Comment? ==> Plain(it.text)) && (it.Log? ==> '\r' !in it.c.data)
  }

  lemma {:induction false} DataLinesArePlain(lines: seq<string>)
    requires forall i :: 0 <= i < |lines| ==> Plain(lines[i])
    ensures forall i :: 0 <= i < |DataLines(lines)| ==> Plain(DataLines(lines)[i]) && DataLines(lines)[i] != ""
  {
    if lines != [] { DataLinesArePlain(lines[1..]); }
  }

  /** No line of an item holds a line end, and none is blank. */
  lemma ItemIsPlain(it: Item)
    requires Printable(it)
    ensures forall i :: 0 <= i < |ItemLines(it)| ==> Plain(ItemLines(it)[i]) && ItemLines(it)[i] != ""
  {
    hide Split, Dec, DataLines, EndPayload;
    match it
    case Log(c) =>
      SplitIsPlain(c.data);
      DataLinesArePlain(Framed(c.data));
      DecIsPlain(c.num);
    case Comment(text) =>
    case End(s) => PayloadIsPlain(s);
  }

  lemma PayloadIsPlain(s: Status)
    ensures Plain(EndPayload(s))
  {
    assert Plain(StatusName(s));
  }

  lemma ItemIsFed(r: Reader, it: Item)
    requires Ready(r) && Printable(it)
    ensures FeedAll(r, PrintItem(it)) == After(r, it) && Ready(After(r, it))
  {
    hide ItemLines, TakeAll, Joined, FeedAll;
    var lines := ItemLines(it) + [""];
    ItemIsPlain(it);
    FeedLines(r, lines);
    JoinedConcat(ItemLines(it), [""]);
    JoinedOne("");
    assert "" + "\n" == "\n";
    ItemIsRead(r, it);
  }

  /** What a client reads in the end event: the final status by name, as JSON. */
  lemma EndNamesStatus(r: Reader, s: Status)
    requires Ready(r)
    ensures var u := FeedAll(r, PrintItem(End(s)));
      && Ready(u) && u.idBuf == r.idBuf
      && (s == Success ==> u.events == r.events + [Event("end", "{\"status\":\"success\"}", r.idBuf)])
      && (s == Failure ==> u.events == r.events + [Event("end", "{\"status\":\"failure\"}", r.idBuf)])
      && (s == Cancelled ==> u.events == r.events + [Event("end", "{\"status\":\"cancelled\"}", r.idBuf)])
      && (s == Skipped ==> u.events == r.events + [Event("end", "{\"status\":\"skipped\"}", r.idBuf)])
  {
    hide FeedAll, EndPayload;
    ItemIsFed(r, End(s));
    PayloadNames();
  }

  lemma PayloadNames()
    ensures EndPayload(Success) == "{\"status\":\"success\"}" && EndPayload(Failure) == "{\"status\":\"failure\"}"
    ensures EndPayload(Cancelled) == "{\"status\":\"cancelled\"}" && EndPayload(Skipped) == "{\"status\":\"skipped\"}"
  {
  }

  lemma {:induction false} StreamIsFed(r: Reader, items: seq<Item>)
    requires Ready(r) && forall i :: 0 <= i < |items| ==> Printable(items[i])
    ensures FeedAll(r, Print(items)).events == r.events + Expected(items, r.idBuf)
    decreases |items|
  {
    hide PrintItem, ItemEvents, NextId, Ready;
    if items == [] {
      assert r.events + [] == r.events;
    } else {
      var it := items[0];
      ItemIsFed(r, it);
      FeedConcat(r, PrintItem(it), Print(items[1..]));
      StreamIsFed(After(r, it), items[1..]);
      assert r.events + ItemEvents(it, r.idBuf) + Expected(items[1..], NextId(it,
          r.idBuf)) == r.events + Expected(items, r.idBuf);
    }
  }

  /* ---------- a reader never yields a CR ---------- */

  predicate NoCr(r: Reader) {
    '\r' !in r.line && '\r' !in r.data && forall i :: 0 <= i < |r.events| ==> '\r' !in r.events[i].data
  }

  lemma TakeKeepsNoCr(r: Reader, line: string)
    requires NoCr(r) && '\r' !in line
    ensures NoCr(Take(r, line))
  {
  }

  lemma {:induction false} FeedKeepsNoCr(r: Reader, s: string)
    requires NoCr(r)
    ensures NoCr(FeedAll(r, s))
    decreases |s|
  {
    hide Take;
    if s != [] {
      TakeKeepsNoCr(r, r.line);
      FeedKeepsNoCr(Feed(r, s[0]), s[1..]);
    }
  }

  /** A chunk with a CR is expected as a payload with a CR. */
  lemma {:induction false} ExpectedCr(items: seq<Item>, id: string, i: nat)
    requires i < |items| && items[i].Log? && '\r' in items[i].c.data
    ensures exists k :: 0 <= k < |Expected(items, id)| && '\r' in Expected(items, id)[k].data
  {
    hide Dec, EndPayload, Trimmed, NextId;
    var rest := Expected(items[1..], NextId(items[0], id));
    var head := ItemEvents(items[0], id);
    assert Expected(items, id) == head + rest;
    if i == 0 {
      TrimmedKeepsCr(items[0].c.data);
      assert (head + rest)[0] == head[0];
    } else {
      ExpectedCr(items[1..], NextId(items[0], id), i - 1);
      var k :| 0 <= k < |rest| && '\r' in rest[k].data;
      assert (head + rest)[|head| + k] == rest[k];
    }
  }

  lemma TrimmedKeepsCr(data: string)
    requires '\r' in data
    ensures '\r' in Trimmed(data)
  {
    var j :| 0 <= j < |data| && data[j] == '\r';
    assert j < |Trimmed(data)| && Trimmed(data)[j] == '\r';
  }

  /** Framing round trip: the client reads back exactly the chunks, in order and each minus at most
      one trailing LF, with the end event and no trace of the comments - exactly when no chunk holds a CR. */
  lemma RoundTripIffCrFree(items: seq<Item>, id: string, lastId: string)
    requires CleanComments(items)
    ensures FeedAll(Opened(id, lastId), Print(items)).events == Expected(items, id) <==> CrFree(items)
  {
    hide FeedAll, Print, Expected, Trimmed, Plain;
    if CrFree(items) {
      StreamIsFed(Opened(id, lastId), items);
    } else {
      var i :| 0 <= i < |items| && items[i].Log? && '\r' in items[i].c.data;
      ExpectedCr(items, id, i);
      FeedKeepsNoCr(Opened(id, lastId), Print(items));
    }
  }

  /* ---------- a stream cut anywhere ---------- */

  /** Until its blank line, an item causes no event and moves no id. */
  lemma {:induction false} PartIsQuiet(r: Reader, lines: seq<string>, k: nat)
    requires AtLineStart(r) && k <= |Joined(lines)|
    requires forall i :: 0 <= i < |lines| ==> Plain(lines[i]) && lines[i] != ""
    ensures var u := FeedAll(r, Joined(lines)[..k]); u.events == r.events && u.lastId == r.lastId
    decreases |lines|
  {
    hide Joined, FeedAll, Colon, Value;
    var s := Joined(lines);
    if lines == [] {
      NothingJoined();
      FeedNothing(r);
      assert s[..k] == "";
    } else {
      var head, rest := lines[0] + "\n", Joined(lines[1..]);
      JoinedHead(lines);
      if k < |head| {
        assert s[..k] == lines[0][..k];
        FeedText(r, lines[0][..k]);
      } else {
        assert s[..k] == head + rest[..k - |head|];
        FeedConcat(r, head, rest[..k - |head|]);
        FeedLine(r, lines[0]);
        PartIsQuiet(Take(r, lines[0]), lines[1..], k - |head|);
      }
    }
  }

  lemma FeedNothing(r: Reader)
    ensures FeedAll(r, "") == r
  {
  }

  /** How many items lie wholly within the first k characters of the text. */
  function Whole(items: seq<Item>, k: nat): (j: nat)
    ensures j <= |items|
  {
    if items == [] || k < |PrintItem(items[0])| then 0 else 1 + Whole(items[1..], k - |PrintItem(items[0])|)
  }

  lemma {:induction false} WholeIsExact(items: seq<Item>, k: nat)
    ensures var j := Whole(items, k); |Print(items[..j])| <= k && (j < |items| ==> k < |Print(items[..j + 1])|)
  {
    hide PrintItem;
    if items != [] {
      var head := |PrintItem(items[0])|;
      if k < head {
        OnePrints(items[0]);
        assert items[..1] == [items[0]];
      } else {
        WholeIsExact(items[1..], k - head);
        var n := Whole(items[1..], k - head);
        PrintTakes(items, n + 1);
        if n + 1 < |items| { PrintTakes(items, n + 2); }
      }
    }
  }

  lemma OnePrints(it: Item)
    ensures Print([it]) == PrintItem(it)
  {
    hide PrintItem;
    assert [it][1..] == [];
    assert PrintItem(it) + "" == PrintItem(it);
  }

  lemma PrintTakes(items: seq<Item>, n: nat)
    requires 0 < n <= |items|
    ensures |Print(items[..n])| == |PrintItem(items[0])| + |Print(items[1..][..n - 1])|
  {
    hide PrintItem;
    assert items[..n][1..] == items[1..][..n - 1];
  }

  /** However the connection is cut, the client has seen exactly the events of the items that arrived
      whole, and its last event ID is the one those items left. */
  lemma {:induction false} CutAnywhere(r: Reader, items: seq<Item>, k: nat)
    requires Ready(r) && k <= |Print(items)| && forall i :: 0 <= i < |items| ==> Printable(items[i])
    ensures var u := FeedAll(r, Print(items)[..k]); var j := Whole(items, k);
      && u.events == r.events + Expected(items[..j], r.idBuf)
      && u.lastId == if j == 0 then r.lastId else IdAfter(items[..j], r.idBuf)
    decreases |items|
  {
    hide PrintItem, ItemEvents, NextId, Ready, FeedAll;
    var s := Print(items);
    if items == [] {
      FeedNothing(r);
      assert s[..k] == "" && r.events + [] == r.events;
    } else {
      var it := items[0];
      var head, rest := PrintItem(it), Print(items[1..]);
      if k < |head| {
        assert s[..k] == head[..k];
        PartOfItem(r, it, k);
        assert r.events + [] == r.events;
      } else {
        var u := After(r, it);
        ItemIsFed(r, it);
        assert s[..k] == head + rest[..k - |head|];
        FeedConcat(r, head, rest[..k - |head|]);
        CutAnywhere(u, items[1..], k - |head|);
        var n := Whole(items[1..], k - |head|);
        assert items[..n + 1][1..] == items[1..][..n] && items[..n + 1][0] == it;
        assert r.events + ItemEvents(it, r.idBuf) + Expected(items[1..][..n], u.idBuf)
            == r.events + Expected(items[..n + 1], r.idBuf);
      }
    }
  }

  lemma PartOfItem(r: Reader, it: Item, k: nat)
    requires Ready(r) && Printable(it) && k < |PrintItem(it)|
    ensures var u := FeedAll(r, PrintItem(it)[..k]); u.events == r.events && u.lastId == r.lastId
  {
    hide ItemLines, Joined, FeedAll, Plain;
    ItemIsPlain(it);
    PartIsQuiet(r, ItemLines(it), k);
    assert PrintItem(it)[..k] == Joined(ItemLines(it))[..k];
  }
}
