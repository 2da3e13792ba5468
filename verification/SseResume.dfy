/** Where a connection starts (internal/api/logs.go:125-143), and the whole way of a chunk:
    persisted, streamed as text, cut anywhere, resumed. */
module SseResume {
  import opened Jobs
  import opened LogStore
  import opened LogBridge
  import opened LogBridgeTheorems
  import opened SseFraming
  import opened SseTheorems
  import LogOrder

  const MAX_INT64: int := 0x7fff_ffff_ffff_ffff
  const MIN_INT64: int := -0x8000_0000_0000_0000

  predicate IsInt64(n: int) {
    MIN_INT64 <= n <= MAX_INT64
  }

  /** unicode.IsSpace. */
  predicate IsSpace(c: char) {
    || '\t' <= c <= '\r' || c == ' ' || c == '\U{85}' || c == '\U{A0}' || c == '\U{1680}'
    || '\U{2000}' <= c <= '\U{200A}' || c == '\U{2028}' || c == '\U{2029}' || c == '\U{202F}'
    || c == '\U{205F}' || c == '\U{3000}'
  }

  function TrimLeft(s: string): string {
    if s != "" && IsSpace(s[0]) then TrimLeft(s[1..]) else s
  }

  function TrimRight(s: string): string {
    if s != "" && IsSpace(s[|s| - 1]) then TrimRight(s[..|s| - 1]) else s
  }

  predicate IsDigit(c: char) {
    '0' <= c <= '9'
  }

  predicate AllDigits(s: string) {
    forall i :: 0 <= i < |s| ==> IsDigit(s[i])
  }

  function NatOf(s: string): nat
    requires AllDigits(s)
  {
    if s == "" then 0 else 10 * NatOf(s[..|s| - 1]) + (s[|s| - 1] - '0') as nat
  }

  /** strconv.ParseInt with base 10 and 64 bits: None is any of its errors. */
  function ParseInt(s: string): Option<int> {
    var signed := s != "" && (s[0] == '+' || s[0] == '-');
    var digits := if signed then s[1..] else s;
    if digits == "" || !AllDigits(digits) then None
    else
      var v: int := NatOf(digits);
      var n := if signed && s[0] == '-' then -v else v;
      if IsInt64(n) then Some(n) else None
  }

  /** Two's complement addition of one. */
  function Successor(n: int): int {
    if n == MAX_INT64 then MIN_INT64 else n + 1
  }

  /** The first seq to send; None is a 400 reply.  An absent header or parameter is "". */
  function EffectiveStart(lastEventId: string, fromSeq: string): Option<int> {
    if lastEventId != "" then
      match ParseInt(TrimRight(TrimLeft(lastEventId)))
      case Some(n) => Some(Successor(n))
      case None => None
    else if fromSeq != "" then ParseInt(TrimRight(TrimLeft(fromSeq)))
    else Some(0)
  }

  /* ---------- printed ids read back ---------- */

  lemma {:induction false} DecNatReads(n: nat)
    ensures DecNat(n) != "" && AllDigits(DecNat(n)) && NatOf(DecNat(n)) == n
  {
    if n >= 10 {
      DecNatReads(n / 10);
      var s := DecNat(n);
      assert s[..|s| - 1] == DecNat(n / 10) && s[|s| - 1] == Digit(n % 10);
    } else {
      assert DecNat(n)[..0] == "";
      assert NatOf("") == 0;
    }
  }

  lemma NothingToTrim(s: string)
    requires s != "" && !IsSpace(s[0]) && !IsSpace(s[|s| - 1])
    ensures TrimRight(TrimLeft(s)) == s
  {
  }

  lemma DecReads(n: int)
    requires IsInt64(n)
    ensures Dec(n) != "" && TrimRight(TrimLeft(Dec(n))) == Dec(n) && ParseInt(Dec(n)) == Some(n)
  {
    hide DecNat, NatOf, TrimLeft, TrimRight;
    var d := DecNat(if n < 0 then -n else n);
    DecNatReads(if n < 0 then -n else n);
    assert IsDigit(d[0]) && IsDigit(d[|d| - 1]);
    NothingToTrim(Dec(n));
    assert n < 0 ==> Dec(n)[1..] == d;
  }

  /** Resuming after a written id continues at the next seq, for every id but the greatest. */
  lemma ResumesAfterIff(n: int, fromSeq: string)
    requires IsInt64(n)
    ensures EffectiveStart(Dec(n), fromSeq) == Some(n + 1) <==> n != MAX_INT64
  {
    hide Dec, TrimLeft, TrimRight, ParseInt;
    DecReads(n);
  }

  lemma DigitAppends(n: nat, d: nat, s: string)
    requires 0 < n && d < 10 && DecNat(n) == s
    ensures DecNat(10 * n + d) == s + [Digit(d)]
  {
    assert (10 * n + d) / 10 == n && (10 * n + d) % 10 == d;
  }

  /** The numerals mean what they should. */
  lemma NumeralsAreDecimal()
    ensures Dec(0) == "0" && Dec(-7) == "-7" && Dec(1234567890) == "1234567890"
  {
    hide DecNat;
    OneDigit();
    DigitAppends(1, 2, "1");
    DigitAppends(12, 3, "12");
    DigitAppends(123, 4, "123");
    DigitAppends(1234, 5, "1234");
    DigitAppends(12345, 6, "12345");
    DigitAppends(123456, 7, "123456");
    DigitAppends(1234567, 8, "1234567");
    DigitAppends(12345678, 9, "12345678");
    DigitAppends(123456789, 0, "123456789");
  }

  lemma OneDigit()
    ensures DecNat(0) == "0" && DecNat(1) == "1" && DecNat(7) == "7"
  {
  }

  /** A character that neither belongs to a number nor is space around one. */
  predicate Foreign(c: char) {
    !('0' <= c <= '9') && c != '+' && c != '-' && !IsSpace(c)
  }

  predicate HasForeign(s: string) {
    exists i :: 0 <= i < |s| && Foreign(s[i])
  }

  predicate Blank(s: string) {
    forall i :: 0 <= i < |s| ==> s[i] in {' ', '\t', '\r', '\n'}
  }

  /** Where a connection starts: after the id sent back, if one is, whatever from_seq says; else at from_seq,
      with spaces around it ignored; else at 0.  A value that is no number is refused, and
      from_seq does not make up for a bad id. */
  lemma StartIsAsAsked(n: int, fromSeq: string, bad: string, before: string, after: string)
    requires IsInt64(n) && HasForeign(bad)
    requires Blank(before) && Blank(after)
    ensures n != MAX_INT64 ==> EffectiveStart(before + Dec(n) + after, fromSeq) == Some(n + 1)
    ensures EffectiveStart("", before + Dec(n) + after) == Some(n)
    ensures EffectiveStart("", "") == Some(0)
    ensures EffectiveStart("", bad) == None && EffectiveStart(bad, fromSeq) == None
  {
    hide Dec, TrimLeft, TrimRight, ParseInt;
    DecReads(n);
    DecIsTight(n);
    TrimsAround(before, Dec(n), after);
    assert (before + Dec(n) + after)[|before|] == Dec(n)[0];
    BadIsRefused(bad);
  }

  lemma DecIsTight(n: int)
    requires IsInt64(n)
    ensures Dec(n) != "" && !IsSpace(Dec(n)[0]) && !IsSpace(Dec(n)[|Dec(n)| - 1])
  {
    hide DecNat, NatOf;
    var d := DecNat(if n < 0 then -n else n);
    DecNatReads(if n < 0 then -n else n);
    assert IsDigit(d[0]) && IsDigit(d[|d| - 1]);
  }

  lemma TrimsAround(before: string, s: string, after: string)
    requires s != "" && !IsSpace(s[0]) && !IsSpace(s[|s| - 1])
    requires Blank(before) && Blank(after)
    ensures TrimRight(TrimLeft(before + s + after)) == s
  {
    TrimsLeft(before, s + after);
    assert before + s + after == before + (s + after);
    TrimsRight(s, after);
  }

  lemma {:induction false} TrimsLeft(before: string, rest: string)
    requires rest != "" && !IsSpace(rest[0]) && Blank(before)
    ensures TrimLeft(before + rest) == rest
  {
    if before == "" {
      assert before + rest == rest;
    } else {
      assert (before + rest)[0] == before[0];
      TrimsLeft(before[1..], rest);
      assert (before + rest)[1..] == before[1..] + rest;
    }
  }

  lemma {:induction false} TrimsRight(s: string, after: string)
    requires s != "" && !IsSpace(s[|s| - 1]) && Blank(after)
    ensures TrimRight(s + after) == s
    decreases |after|
  {
    var all := s + after;
    if after == "" {
      assert all == s;
    } else {
      var n := |after| - 1;
      assert all[|all| - 1] == after[n];
      TrimsRight(s, after[..n]);
      assert all[..|all| - 1] == s + after[..n];
    }
  }

  lemma BadIsRefused(bad: string)
    requires HasForeign(bad)
    ensures ParseInt(TrimRight(TrimLeft(bad))) == None
  {
    LeftKeepsForeign(bad);
    RightKeepsForeign(TrimLeft(bad));
    var s := TrimRight(TrimLeft(bad));
    var i :| 0 <= i < |s| && Foreign(s[i]);
    var digits := if s[0] == '+' || s[0] == '-' then s[1..] else s;
    if s[0] == '+' || s[0] == '-' { assert digits[i - 1] == s[i]; }
    assert !AllDigits(digits);
  }

  lemma {:induction false} LeftKeepsForeign(s: string)
    requires HasForeign(s)
    ensures HasForeign(TrimLeft(s))
  {
    var i :| 0 <= i < |s| && Foreign(s[i]);
    if IsSpace(s[0]) {
      assert s[1..][i - 1] == s[i];
      LeftKeepsForeign(s[1..]);
    } else {
      assert TrimLeft(s) == s;
    }
  }

  lemma {:induction false} RightKeepsForeign(s: string)
    requires HasForeign(s)
    ensures HasForeign(TrimRight(s))
  {
    var i :| 0 <= i < |s| && Foreign(s[i]);
    if IsSpace(s[|s| - 1]) {
      assert s[..|s| - 1][i] == s[i];
      RightKeepsForeign(s[..|s| - 1]);
    } else {
      assert TrimRight(s) == s;
    }
  }

  /** A plus sign may stand before a number. */
  lemma PlusIsAccepted(n: nat)
    requires IsInt64(n)
    ensures EffectiveStart("", "+" + Dec(n)) == Some(n)
  {
    hide DecNat, NatOf;
    DecNatReads(n);
    assert IsDigit(DecNat(n)[|DecNat(n)| - 1]);
    NothingToTrim("+" + Dec(n));
    assert ("+" + Dec(n))[1..] == DecNat(n);
  }

  /** A sign alone is no number, nor is one beyond 64 bits. */
  lemma LoneSignsAndGiantsAreRefused(n: int)
    requires n > 9223372036854775807 || n < -9223372036854775808
    ensures EffectiveStart("", "+") == None && EffectiveStart("", "-") == None && EffectiveStart("", " ") == None
    ensures EffectiveStart("", Dec(n)) == None
  {
    hide DecNat, NatOf;
    var d := DecNat(if n < 0 then -n else n);
    DecNatReads(if n < 0 then -n else n);
    assert IsDigit(d[0]) && IsDigit(d[|d| - 1]);
    NothingToTrim("+");
    NothingToTrim("-");
    NothingToTrim(Dec(n));
    assert n < 0 ==> Dec(n)[1..] == d;
  }

  /* ---------- cut and resumed ---------- */

  function OwnChunk(it: Item): seq<Chunk> {
    if it.Log? then [it.c] else []
  }

  function Chunks(items: seq<Item>): seq<Chunk> {
    if items == [] then [] else OwnChunk(items[0]) + Chunks(items[1..])
  }

  lemma ChunksHead(items: seq<Item>)
    requires items != []
    ensures Chunks(items) == OwnChunk(items[0]) + Chunks(items[1..])
  {
  }

  lemma NoItems()
    ensures Chunks([]) == []
  {
  }

  lemma {:induction false} ChunksConcat(a: seq<Item>, b: seq<Item>)
    ensures Chunks(a + b) == Chunks(a) + Chunks(b)
  {
    hide Chunks, OwnChunk;
    if a == [] {
      assert a + b == b;
      NoItems();
    } else {
      ChunksConcat(a[1..], b);
      ChunksHead(a);
      ChunksHead(a + b);
      assert (a + b)[1..] == a[1..] + b;
    }
  }

  /** The last event ID of a client holding these chunks. */
  function IdOf(held: seq<Chunk>): string {
    if held == [] then "" else Dec(held[|held| - 1].num)
  }

  lemma {:induction false} IdAfterIsLast(items: seq<Item>, id: string)
    ensures IdAfter(items, id) == if Chunks(items) == [] then id else IdOf(Chunks(items))
    decreases |items|
  {
    hide Dec;
    if items != [] {
      IdAfterIsLast(items[1..], NextId(items[0], id));
    }
  }

  ghost predicate SafeIds(s: seq<Chunk>) {
    forall i :: 0 <= i < |s| ==> MIN_INT64 <= s[i].num < MAX_INT64
  }

  lemma StartIsResume(held: seq<Chunk>, fromSeq: string, origin: int)
    requires SafeIds(held) && EffectiveStart("", fromSeq) == Some(origin)
    ensures EffectiveStart(IdOf(held), fromSeq) == Some(Resume(origin, held))
  {
    hide Dec, EffectiveStart;
    if held != [] {
      ResumesAfterIff(held[|held| - 1].num, fromSeq);
    }
  }

  ghost predicate Int64Ids(s: seq<Chunk>) {
    forall i :: 0 <= i < |s| ==> IsInt64(s[i].num)
  }

  /** The text of a connection: its chunks, with comments among them, for a client that could resume. */
  ghost predicate Streams(w: World, items: seq<Item>) {
    Chunks(items) == w.out && CleanComments(items) && Int64Ids(w.out) && SafeIds(w.got)
  }

  /** What a client holds once the first k characters of the text have arrived. */
  function Held(w: World, items: seq<Item>, k: nat): seq<Chunk> {
    w.got + Chunks(items[..Whole(items, k)])
  }

  /** A client that carries its id buffer over has seen the events of the whole items, and its
      Last-Event-ID makes the server start right after what it holds. */
  ghost predicate ResumesAt(w: World, items: seq<Item>, fromSeq: string, k: nat)
    requires k <= |Print(items)|
  {
    var id := IdOf(w.got);
    var r := FeedAll(Opened(id, id), Print(items)[..k]);
    && r.events == Expected(items[..Whole(items, k)], id)
    && EffectiveStart(r.lastId, fromSeq) == Some(Resume(w.origin, Held(w, items, k)))
  }

  lemma PrefixOfChunks(items: seq<Item>, j: nat)
    requires j <= |items|
    ensures Chunks(items[..j]) <= Chunks(items)
  {
    hide Chunks;
    ChunksConcat(items[..j], items[j..]);
    assert items[..j] + items[j..] == items;
  }

  lemma PrintableItems(items: seq<Item>)
    requires CleanComments(items) && CrFree(items)
    ensures forall i :: 0 <= i < |items| ==> Printable(items[i])
  {
    hide Plain;
  }

  lemma HeldIsSafe(w: World, items: seq<Item>, k: nat)
    requires Streams(w, items) && SafeIds(w.out)
    ensures SafeIds(Held(w, items, k))
  {
    hide Chunks, Whole, CleanComments;
    PrefixOfChunks(items, Whole(items, k));
  }

  /** The last event ID of a reader fed the first k characters. */
  lemma CutId(items: seq<Item>, buffer: string, lastId: string, k: nat)
    requires CleanComments(items) && CrFree(items) && k <= |Print(items)|
    ensures var r := FeedAll(Opened(buffer, lastId), Print(items)[..k]); var held := Chunks(items[..Whole(items, k)]);
      && r.events == Expected(items[..Whole(items, k)], buffer)
      && r.lastId == if Whole(items, k) == 0 then lastId else if held == [] then buffer else IdOf(held)
  {
    hide Print, FeedAll, Expected, Printable, Dec, Chunks, Whole, IdAfter, CleanComments, CrFree;
    PrintableItems(items);
    CutAnywhere(Opened(buffer, lastId), items, k);
    IdAfterIsLast(items[..Whole(items, k)], buffer);
    assert [] + Expected(items[..Whole(items, k)], buffer) == Expected(items[..Whole(items, k)], buffer);
  }

  lemma NothingWhole(items: seq<Item>, k: nat)
    requires Whole(items, k) == 0
    ensures Chunks(items[..Whole(items, k)]) == []
  {
  }

  lemma IdOfHeld(got: seq<Chunk>, more: seq<Chunk>)
    ensures IdOf(got + more) == if more == [] then IdOf(got) else IdOf(more)
  {
    hide Dec;
    assert more == [] ==> got + more == got;
  }

  lemma CleanCutResumes(w: World, items: seq<Item>, fromSeq: string, k: nat)
    requires Streams(w, items) && CrFree(items) && SafeIds(w.out) && k <= |Print(items)|
    requires EffectiveStart("", fromSeq) == Some(w.origin)
    ensures ResumesAt(w, items, fromSeq, k)
  {
    hide Print, FeedAll, EffectiveStart, Expected, Dec, IdOf, Chunks, Whole, CleanComments, CrFree, SafeIds, Resume;
    var id := IdOf(w.got);
    CutId(items, id, id, k);
    if Whole(items, k) == 0 { NothingWhole(items, k); }
    IdOfHeld(w.got, Chunks(items[..Whole(items, k)]));
    HeldIsSafe(w, items, k);
    StartIsResume(Held(w, items, k), fromSeq, w.origin);
  }

  lemma WholeStream(items: seq<Item>, n: nat)
    requires n <= |items|
    ensures |Print(items[..n])| <= |Print(items)| && Whole(items, |Print(items[..n])|) == n
    decreases |items|
  {
    hide PrintItem;
    if n > 0 {
      PrintTakes(items, n);
      WholeStream(items[1..], n - 1);
    } else if items != [] {
      ItemIsNotEmpty(items[0]);
    }
  }

  lemma ItemIsNotEmpty(it: Item)
    ensures |PrintItem(it)| > 0
  {
    hide ItemLines, Joined;
  }

  lemma {:induction false} ChunkAt(items: seq<Item>, p: nat) returns (q: nat)
    requires p < |Chunks(items)|
    ensures q < |items| && items[q].Log? && items[q].c == Chunks(items)[p]
  {
    if items[0].Log? && p == 0 {
      q := 0;
    } else {
      var n := ChunkAt(items[1..], if items[0].Log? then p - 1 else p);
      q := n + 1;
    }
  }

  lemma ChunksUpTo(items: seq<Item>, q: nat)
    requires q < |items| && items[q].Log?
    ensures Chunks(items[..q + 1]) == Chunks(items[..q]) + [items[q].c]
  {
    hide Chunks;
    ChunksConcat(items[..q], [items[q]]);
    assert items[..q] + [items[q]] == items[..q + 1];
    OneChunk(items[q]);
  }

  lemma OneChunk(it: Item)
    requires it.Log?
    ensures Chunks([it]) == [it.c]
  {
    assert [it][1..] == [];
    assert Chunks([]) == [];
  }

  /** After the chunk with the greatest 64-bit seq the start wraps around. */
  lemma GreatestSeqIsLost(w: World, items: seq<Item>, fromSeq: string) returns (k: nat)
    requires Streams(w, items) && CrFree(items) && !SafeIds(w.out)
    ensures k <= |Print(items)| && !ResumesAt(w, items, fromSeq, k)
  {
    hide Print, FeedAll, EffectiveStart, Expected, Dec, Chunks, Whole, CleanComments, CrFree;
    var p :| 0 <= p < |w.out| && w.out[p].num == MAX_INT64;
    var q := ChunkAt(items, p);
    k := |Print(items[..q + 1])|;
    WholeStream(items, q + 1);
    ChunksUpTo(items, q);
    CutId(items, IdOf(w.got), IdOf(w.got), k);
    ResumesAfterIff(MAX_INT64, fromSeq);
  }

  lemma CrIsLost(w: World, items: seq<Item>, fromSeq: string)
    requires Streams(w, items) && !CrFree(items)
    ensures !ResumesAt(w, items, fromSeq, |Print(items)|)
  {
    hide Print, FeedAll, EffectiveStart, Expected, Dec, IdOf, Chunks, Whole, CleanComments, CrFree, SafeIds;
    WholeStream(items, |items|);
    assert items[..|items|] == items && Print(items)[..|Print(items)|] == Print(items);
    RoundTripIffCrFree(items, IdOf(w.got), IdOf(w.got));
  }

  /** Any connection of any orderly run may be cut at any character and resumed right after what the
      client holds, if and only if no chunk of it holds a CR and none has the greatest 64-bit seq. */
  lemma CutStreamResumesIff(ws: seq<World>, i: nat, items: seq<Item>, fromSeq: string)
    requires IsRun(ws, true) && i < |ws| && Streams(ws[i], items)
    requires EffectiveStart("", fromSeq) == Some(ws[i].origin)
    ensures (forall k: nat :: k <= |Print(items)| ==> ResumesAt(ws[i], items, fromSeq, k))
      <==> CrFree(items) && SafeIds(ws[i].out)
  {
    hide IsRun, Streams, Print, ResumesAt, CrFree, SafeIds, EffectiveStart;
    var w := ws[i];
    if CrFree(items) && SafeIds(w.out) {
      forall k: nat | k <= |Print(items)| ensures ResumesAt(w, items, fromSeq, k) {
        CleanCutResumes(w, items, fromSeq, k);
      }
    } else if CrFree(items) {
      var k := GreatestSeqIsLost(w, items, fromSeq);
    } else {
      CrIsLost(w, items, fromSeq);
    }
  }

  /** The whole way: cut the text of any connection of any orderly run at any character.  All the client
      holds, the first m chunks of this connection included, is a prefix of the log it asked for, and
      its Last-Event-ID makes the server start right after it, as Reconnect(m) does. */
  lemma CutStreamResumes(ws: seq<World>, i: nat, items: seq<Item>, fromSeq: string, k: nat) returns (m: nat)
    requires IsRun(ws, true) && i < |ws| && Streams(ws[i], items) && k <= |Print(items)|
    requires CrFree(items) && SafeIds(ws[i].out) && EffectiveStart("", fromSeq) == Some(ws[i].origin)
    ensures m <= |ws[i].out| && Held(ws[i], items, k) == ws[i].got + ws[i].out[..m] <= From(ws[i].order, ws[i].origin)
    ensures ResumesAt(ws[i], items, fromSeq, k)
  {
    hide IsRun, Print, ResumesAt, CrFree, SafeIds, EffectiveStart, From, Chunks, Whole, CleanComments, Resume, Enabled;
    var w := ws[i];
    m := |Chunks(items[..Whole(items, k)])|;
    PrefixOfChunks(items, Whole(items, k));
    ReconnectComposes(ws, i, m);
    CleanCutResumes(w, items, fromSeq, k);
  }

  /* ---------- an empty id buffer per connection ---------- */

  /** Some chunk's event ends within the first k characters. */
  ghost predicate ChunkArrived(items: seq<Item>, k: nat) {
    exists i :: 0 <= i < |items| && items[i].Log? && |Print(items[..i + 1])| <= k
  }

  lemma {:induction false} PrintGrows(items: seq<Item>, i: nat, j: nat)
    requires i <= j <= |items|
    ensures |Print(items[..i])| <= |Print(items[..j])|
  {
    hide Print;
    PrintConcat(items[..i], items[i..j]);
    assert items[..i] + items[i..j] == items[..j];
  }

  lemma ArrivedIff(items: seq<Item>, k: nat)
    ensures ChunkArrived(items, k) <==> Chunks(items[..Whole(items, k)]) != []
  {
    hide Print, Chunks, Whole;
    var j := Whole(items, k);
    WholeIsExact(items, k);
    if i :| 0 <= i < |items| && items[i].Log? && |Print(items[..i + 1])| <= k {
      if j <= i {
        PrintGrows(items, j + 1, i + 1);
        assert false;
      }
      ChunksUpTo(items[..j], i);
      PrefixOfChunks(items[..j], i + 1);
    }
    if Chunks(items[..j]) != [] {
      var q := ChunkAt(items[..j], 0);
      PrintGrows(items, q + 1, j);
    }
  }

  /** A client that starts each stream with an empty id buffer still sends the right Last-Event-ID if and
      only if it held nothing before, or the cut fell within the first item, or a chunk arrived. */
  lemma EmptyBufferResumesIff(ws: seq<World>, i: nat, items: seq<Item>, fromSeq: string, k: nat)
    requires IsRun(ws, true) && i < |ws| && Streams(ws[i], items) && k <= |Print(items)|
    requires CrFree(items) && SafeIds(ws[i].out) && EffectiveStart("", fromSeq) == Some(ws[i].origin)
    ensures var w := ws[i]; var r := FeedAll(Opened("", IdOf(w.got)), Print(items)[..k]);
      EffectiveStart(r.lastId, fromSeq) == Some(Resume(w.origin, Held(w, items, k)))
      <==> w.got == [] || items == [] || k < |PrintItem(items[0])| || ChunkArrived(items, k)
  {
    hide IsRun, Print, PrintItem, FeedAll, EffectiveStart, Bridged, Held, Resume, ChunkArrived, Streams, CrFree,
         SafeIds, IdOf;
    RunsAreBridged(ws, i);
    EmptyBufferCut(ws[i], items, fromSeq, k);
  }

  lemma NoneWholeIff(items: seq<Item>, k: nat)
    ensures Whole(items, k) == 0 <==> items == [] || k < |PrintItem(items[0])|
  {
    hide PrintItem;
  }

  lemma EmptyBufferCut(w: World, items: seq<Item>, fromSeq: string, k: nat)
    requires Bridged(w) && Streams(w, items) && k <= |Print(items)| && EffectiveStart("", fromSeq) == Some(w.origin)
    requires CrFree(items) && SafeIds(w.out)
    ensures var r := FeedAll(Opened("", IdOf(w.got)), Print(items)[..k]);
      EffectiveStart(r.lastId, fromSeq) == Some(Resume(w.origin, Held(w, items, k)))
      <==> w.got == [] || items == [] || k < |PrintItem(items[0])| || ChunkArrived(items, k)
  {
    hide Print, PrintItem, FeedAll, EffectiveStart, Expected, Dec, IdOf, Bridged, Chunks, Whole, CleanComments,
         CrFree, SafeIds, Resume, ChunkArrived;
    CutId(items, "", IdOf(w.got), k);
    ArrivedIff(items, k);
    NoneWholeIff(items, k);
    if Whole(items, k) == 0 { NothingWhole(items, k); }
    IdOfHeld(w.got, Chunks(items[..Whole(items, k)]));
    HeldIsSafe(w, items, k);
    StartIsResume(Held(w, items, k), fromSeq, w.origin);
    NoIdYet();
    if w.got != [] && Chunks(items[..Whole(items, k)]) == [] {
      assert Held(w, items, k) == w.got;
      GotIsAbove(w);
    }
  }

  lemma NoIdYet()
    ensures IdOf([]) == ""
  {
  }

  /** Resuming a client that holds something starts above where it first asked. */
  lemma GotIsAbove(w: World)
    requires Bridged(w) && w.got != []
    ensures Resume(w.origin, w.got) > w.origin
  {
    hide Between, InOrder, ChannelOk, PlaceOk;
    assert w.got[|w.got| - 1] in w.got;
    BetweenMember(w.order, w.origin, w.start - 1, w.got[|w.got| - 1]);
  }

  /** The reconnection was cut right after its first comment. */
  ghost predicate Forgets(w: World, fromSeq: string) {
    var items := [Comment("connected")];
    && Streams(w, items) && CrFree(items) && SafeIds(w.out)
    && var r := FeedAll(Opened("", IdOf(w.got)), Print(items));
       EffectiveStart(r.lastId, fromSeq) == Some(w.origin) != Some(Resume(w.origin, w.got))
  }

  /** One chunk received, then a reconnection cut right after its connected comment: a client that
      empties its id buffer sends no Last-Event-ID, and the server starts over. */
  lemma EmptyBufferForgets(w0: World, c: Chunk, fromSeq: string) returns (ws: seq<World>)
    requires Opening(w0) && w0.lease == Some(c.lease) && w0.origin <= c.num && MIN_INT64 <= c.num < MAX_INT64
    requires EffectiveStart("", fromSeq) == Some(w0.origin)
    ensures |ws| > 0 && IsRun(ws, true) && ws[|ws| - 1].got == [c] && Forgets(ws[|ws| - 1], fromSeq)
  {
    hide EffectiveStart, IsRun, Opening, Forgets;
    ws := LogOrder.OneChunkThenReconnect(w0, c);
    CommentForgets(ws[|ws| - 1], c, fromSeq);
  }

  lemma CommentForgets(w: World, c: Chunk, fromSeq: string)
    requires w.got == [c] && w.out == [] && w.origin <= c.num && MIN_INT64 <= c.num < MAX_INT64
    requires EffectiveStart("", fromSeq) == Some(w.origin)
    ensures Forgets(w, fromSeq)
  {
    hide EffectiveStart, FeedAll, Print, IdOf, Expected, Chunks, Whole;
    var items := [Comment("connected")];
    NoChunks("connected");
    CutId(items, "", IdOf(w.got), |Print(items)|);
    WholeStream(items, 1);
    assert items[..1] == items && Print(items)[..|Print(items)|] == Print(items);
  }

  lemma NoChunks(text: string)
    ensures Chunks([Comment(text)]) == []
  {
    assert [Comment(text)][1..] == [];
  }
}
