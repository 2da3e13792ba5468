/** canonicalNeedRow (internal/dispatch/queue.go:559-600): the one cell of a matrixed need whose
    result and outputs a dependent sees, and when that choice does not depend on row order. */
module NeedRow {
  import opened Jobs

  ghost predicate HasResult(n: Job) { n.result.Some? }

  ghost predicate Finished(n: Job) { n.result.Some? && n.finishedAt.Some? }

  /** a finished no later than b: by time, then by id. */
  ghost predicate NotAfter(a: Job, b: Job)
    requires Finished(a) && Finished(b)
  {
    a.finishedAt.value < b.finishedAt.value || (a.finishedAt == b.finishedAt && a.id <= b.id)
  }

  ghost predicate IsLastFinished(rows: seq<Job>, c: Job) {
    c in rows && Finished(c) && forall n :: n in rows && Finished(n) ==> NotAfter(n, c)
  }

  ghost predicate IsFirstResult(rows: seq<Job>, c: Job) {
    exists i :: 0 <= i < |rows| && rows[i] == c && HasResult(c) && forall j :: 0 <= j < i ==> !HasResult(rows[j])
  }

  /** The documented choice: last finished cell; failing that the first with a result; failing that the first. */
  ghost predicate IsCanonical(rows: seq<Job>, c: Option<Job>) {
    if rows == [] then c == None
    else if exists n :: n in rows && Finished(n) then c.Some? && IsLastFinished(rows, c.value)
    else if exists n :: n in rows && HasResult(n) then c.Some? && IsFirstResult(rows, c.value)
    else c == Some(rows[0])
  }

  /** One step of the scan: the row kept after seeing n. */
  function Keep(kept: Option<Job>, n: Job): Option<Job> {
    if n.result.None? then kept
    else if kept.None? then Some(n)
    else if n.finishedAt.None? then kept
    else if kept.value.finishedAt.None? then Some(n)
    else if n.finishedAt.value > kept.value.finishedAt.value then Some(n)
    else if n.finishedAt == kept.value.finishedAt && n.id > kept.value.id then Some(n)
    else kept
  }

  function Scan(rows: seq<Job>): Option<Job> {
    if rows == [] then None else Keep(Scan(rows[..|rows| - 1]), rows[|rows| - 1])
  }

  function Canonical(rows: seq<Job>): Option<Job> {
    if Scan(rows).None? && |rows| > 0 then Some(rows[0]) else Scan(rows)
  }

  method CanonicalNeedRow(rows: seq<Job>) returns (canonical: Option<Job>)
    ensures canonical == Canonical(rows)
  {
    canonical := None;
    for i := 0 to |rows|
      invariant canonical == Scan(rows[..i])
    {
      var n := rows[i];
      assert rows[..i + 1][..i] == rows[..i];
      if n.result.None? {
        continue;
      }
      if canonical.None? {
        canonical := Some(n);
      } else if n.finishedAt.None? {
        // nothing to compare with: keep the current row
      } else if canonical.value.finishedAt.None? {
        canonical := Some(n);
      } else if n.finishedAt.value > canonical.value.finishedAt.value {
        canonical := Some(n);
      } else if n.finishedAt == canonical.value.finishedAt && n.id > canonical.value.id {
        canonical := Some(n);
      }
    }
    assert rows[..|rows|] == rows;
    if canonical.None? && |rows| > 0 {
      canonical := Some(rows[0]);
    }
  }

  /** What the scan keeps. */
  ghost predicate Kept(rows: seq<Job>, k: Option<Job>) {
    && (k.None? <==> forall n :: n in rows ==> !HasResult(n))
    && (k.Some? && Finished(k.value) ==> IsLastFinished(rows, k.value))
    && (k.Some? && !Finished(k.value) ==> IsFirstResult(rows, k.value) && forall n :: n in rows ==> !Finished(n))
  }

  lemma {:induction false} ScanKeeps(rows: seq<Job>)
    ensures Kept(rows, Scan(rows))
  {
    hide Kept, Keep;
    if rows == [] {
      EmptyKept();
    } else {
      var i := |rows| - 1;
      ScanKeeps(rows[..i]);
      KeepStep(rows[..i], rows[i], Scan(rows[..i]));
      assert rows == rows[..i] + [rows[i]];
    }
  }

  lemma EmptyKept()
    ensures Kept([], None)
  {
  }

  lemma KeepStep(rows: seq<Job>, n: Job, k: Option<Job>)
    requires Kept(rows, k)
    ensures Kept(rows + [n], Keep(k, n))
  {
    hide IsFirstResult;
    var all := rows + [n];
    assert forall m :: m in all <==> m in rows || m == n;
    if k.Some? && !Finished(k.value) {
      FirstResultStays(rows, n, k.value);
    } else if k.None? && n.result.Some? {
      NewFirstResult(rows, n);
    }
  }

  lemma FirstResultStays(rows: seq<Job>, n: Job, c: Job)
    requires IsFirstResult(rows, c)
    ensures IsFirstResult(rows + [n], c)
  {
    var k :| 0 <= k < |rows| && rows[k] == c && forall j :: 0 <= j < k ==> !HasResult(rows[j]);
    assert (rows + [n])[k] == c;
    assert forall j :: 0 <= j < k ==> (rows + [n])[j] == rows[j];
  }

  lemma NewFirstResult(rows: seq<Job>, n: Job)
    requires HasResult(n) && forall m :: m in rows ==> !HasResult(m)
    ensures IsFirstResult(rows + [n], n)
  {
    assert (rows + [n])[|rows|] == n;
    assert forall j :: 0 <= j < |rows| ==> (rows + [n])[j] in rows;
  }

  /** The scan makes the documented choice. */
  lemma CanonicalIsDocumented(rows: seq<Job>)
    ensures IsCanonical(rows, Canonical(rows))
  {
    ScanKeeps(rows);
  }

  /* ---------- row order ---------- */

  ghost predicate DistinctIds(rows: seq<Job>) {
    forall a, b :: a in rows && b in rows && a.id == b.id ==> a == b
  }

  ghost predicate Reordering(a: seq<Job>, b: seq<Job>) { multiset(a) == multiset(b) }

  ghost predicate OrderIndependent(rows: seq<Job>) {
    forall a :: Reordering(rows, a) ==> Canonical(a) == Canonical(rows)
  }

  /** What a caller can check: a cell has finished, or there is no choice to make. */
  ghost predicate Decided(rows: seq<Job>) {
    || (exists n :: n in rows && Finished(n))
    || (exists n :: n in rows && HasResult(n) && forall m :: m in rows && HasResult(m) ==> m == n)
    || (forall m, n :: m in rows && n in rows ==> m == n)
  }

  lemma LastFinishedIsUnique(rows: seq<Job>, c: Job, d: Job)
    requires DistinctIds(rows) && IsLastFinished(rows, c) && IsLastFinished(rows, d)
    ensures c == d
  {
    assert NotAfter(c, d) && NotAfter(d, c);
  }

  lemma SameMembers(a: seq<Job>, b: seq<Job>)
    requires Reordering(a, b)
    ensures |a| == |b| && forall n :: n in a <==> n in b
  {
    assert |a| == |multiset(a)| && |b| == |multiset(b)|;
    forall n ensures n in a <==> n in b {
      assert n in a <==> n in multiset(a);
      assert n in b <==> n in multiset(b);
    }
  }

  lemma DecidedIsOrderIndependent(rows: seq<Job>, a: seq<Job>)
    requires DistinctIds(rows) && Decided(rows) && Reordering(rows, a)
    ensures Canonical(a) == Canonical(rows)
  {
    var c, d := Canonical(rows), Canonical(a);
    CanonicalIsDocumented(rows);
    CanonicalIsDocumented(a);
    SameMembers(rows, a);
    if rows != [] {
      assert rows[0] in rows && a != [];
      assert a[0] in a;
      if n :| n in rows && Finished(n) {
        assert IsLastFinished(rows, d.value);
        LastFinishedIsUnique(rows, c.value, d.value);
      }
    }
  }

  /** Row i moved to the front. */
  function Promote(rows: seq<Job>, i: nat): seq<Job>
    requires i < |rows|
  {
    [rows[i]] + rows[..i] + rows[i + 1..]
  }

  lemma PromoteReorders(rows: seq<Job>, i: nat)
    requires i < |rows|
    ensures Reordering(rows, Promote(rows, i))
  {
    assert rows == rows[..i] + [rows[i]] + rows[i + 1..];
  }

  /** Order independence holds exactly when the choice is decided. */
  lemma OrderIndependentIffDecided(rows: seq<Job>)
    requires DistinctIds(rows)
    ensures OrderIndependent(rows) <==> Decided(rows)
  {
    hide IsCanonical, Decided, Canonical;
    if Decided(rows) {
      forall a | Reordering(rows, a) ensures Canonical(a) == Canonical(rows) {
        DecidedIsOrderIndependent(rows, a);
      }
    } else {
      var a := UndecidedDepends(rows);
      assert !OrderIndependent(rows);
    }
  }

  lemma UndecidedDepends(rows: seq<Job>) returns (a: seq<Job>)
    requires !Decided(rows)
    ensures Reordering(rows, a) && Canonical(a) != Canonical(rows)
  {
    CanonicalIsDocumented(rows);
    var n := OtherChoice(rows, Canonical(rows));
    var i :| 0 <= i < |rows| && rows[i] == n;
    PromotedIsCanonical(rows, i);
    a := Promote(rows, i);
  }

  lemma PromotedIsCanonical(rows: seq<Job>, i: nat)
    requires i < |rows| && forall n :: n in rows ==> !Finished(n)
    requires HasResult(rows[i]) || forall m :: m in rows ==> !HasResult(m)
    ensures Reordering(rows, Promote(rows, i)) && Canonical(Promote(rows, i)) == Some(rows[i])
  {
    var a := Promote(rows, i);
    PromoteReorders(rows, i);
    SameMembers(rows, a);
    CanonicalIsDocumented(a);
    assert a[0] == rows[i];
  }

  /** Some other row could have been picked instead of c. */
  lemma OtherChoice(rows: seq<Job>, c: Option<Job>) returns (n: Job)
    requires !Decided(rows) && IsCanonical(rows, c)
    ensures n in rows && Some(n) != c
    ensures HasResult(n) || forall m :: m in rows ==> !HasResult(m)
  {
    if m :| m in rows && HasResult(m) {
      n :| n in rows && HasResult(n) && Some(n) != c;
    } else {
      var a, b :| a in rows && b in rows && a != b;
      n := if Some(a) == c then b else a;
    }
  }
}
