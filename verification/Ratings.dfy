/** Resolving re-submitted ratings: per user the newest row of a session, then the newest row of an
    answer, with rows that lack the key kept one by one. */
module Ratings {
  import opened Optional

  datatype Row = Row(
    id: int, createdAt: int, user: string, session: Option<string>, answer: Option<string>, isAnswer: bool,
    score: Option<int>)

  datatype Key = Session | Answer

  /** The group a row belongs to under a key: its user and the key's value; none when that is NULL. */
  function GroupOf(r: Row, k: Key): Option<(string, string)> {
    var v := if k == Session then r.session else r.answer;
    if v.Some? then Some((r.user, v.value)) else None
  }

  /** Later by creation time, then by id. */
  predicate Newer(a: Row, b: Row) {
    a.createdAt > b.createdAt || (a.createdAt == b.createdAt && a.id > b.id)
  }

  ghost predicate Sorted(rows: seq<Row>) {
    forall i, j :: 0 <= i < j < |rows| ==> !Newer(rows[j], rows[i])
  }

  /** No two rows share a group. */
  ghost predicate OnePerGroup(rows: seq<Row>, k: Key) {
    forall i, j :: 0 <= i < j < |rows| && GroupOf(rows[i], k).Some? ==> GroupOf(rows[i], k) != GroupOf(rows[j], k)
  }

  ghost predicate HasGroup(rows: seq<Row>, g: (string, string), k: Key) {
    exists i :: 0 <= i < |rows| && GroupOf(rows[i], k) == Some(g)
  }

  /** No row of the list is newer than `r` in its group. */
  ghost predicate NewestIn(rows: seq<Row>, r: Row, k: Key) {
    forall i :: 0 <= i < |rows| && GroupOf(rows[i], k) == GroupOf(r, k) ==> !Newer(rows[i], r)
  }

  /** What one pass makes of its input: per group one row, a newest one; every row without a group; in
      order, newest first; the rest is counted as replaced. */
  ghost predicate Resolved(rows: seq<Row>, k: Key, out: seq<Row>, replaced: int) {
    && Sorted(out)
    && OnePerGroup(out, k)
    && (forall i :: 0 <= i < |out| ==> out[i] in rows)
    && (forall i :: 0 <= i < |out| && GroupOf(out[i], k).Some? ==> NewestIn(rows, out[i], k))
    && (forall g :: HasGroup(rows, g, k) ==> HasGroup(out, g, k))
    && (forall r :: GroupOf(r, k).None? ==> multiset(out)[r] == multiset(rows)[r])
    && |rows| == |out| + replaced && replaced >= 0
  }

  // ---------------------------------------------------------------- keeping the order

  /** Where a row goes in a sorted list: behind the rows that are not older. */
  function Position(out: seq<Row>, r: Row): (p: nat)
    ensures p <= |out|
  {
    if out == [] then 0
    else if Newer(r, out[|out| - 1]) then Position(out[..|out| - 1], r)
    else |out|
  }

  function Inserted(out: seq<Row>, r: Row): seq<Row> {
    var p := Position(out, r);
    out[..p] + [r] + out[p..]
  }

  lemma {:induction false} PositionRight(out: seq<Row>, r: Row)
    requires Sorted(out)
    ensures forall i :: 0 <= i < Position(out, r) ==> !Newer(r, out[i])
    ensures forall i :: Position(out, r) <= i < |out| ==> Newer(r, out[i])
  {
    if out != [] && Newer(r, out[|out| - 1]) {
      PositionRight(out[..|out| - 1], r);
    }
  }

  lemma InsertedSorted(out: seq<Row>, r: Row)
    requires Sorted(out)
    ensures Sorted(Inserted(out, r)) && multiset(Inserted(out, r)) == multiset(out) + multiset{r}
    ensures forall x :: x in Inserted(out, r) <==> x == r || x in out
  {
    PositionRight(out, r);
    var p := Position(out, r);
    assert out == out[..p] + out[p..];
  }

  lemma InsertedDistinct(out: seq<Row>, r: Row, k: Key)
    requires OnePerGroup(out, k)
    requires GroupOf(r, k).Some? ==> forall i :: 0 <= i < |out| ==> GroupOf(out[i], k) != GroupOf(r, k)
    ensures OnePerGroup(Inserted(out, r), k)
  {
  }

  // ---------------------------------------------------------------- one pass

  /** The index leads to the picked row of each group and to no other. */
  ghost predicate IndexFits(picked: seq<Row>, at: map<(string, string), nat>, k: Key) {
    && (forall g <- at :: at[g] < |picked| && GroupOf(picked[at[g]], k) == Some(g))
    && (forall j :: 0 <= j < |picked| ==>
          GroupOf(picked[j], k).Some? && GroupOf(picked[j], k).value in at && at[GroupOf(picked[j], k).value] == j)
  }

  ghost predicate NewestFits(rows: seq<Row>, k: Key, n: nat, picked: seq<Row>)
    requires n <= |rows|
  {
    forall j :: 0 <= j < |picked| ==> picked[j] in rows && NewestIn(rows[..n], picked[j], k)
  }

  ghost predicate GroupsSeen(rows: seq<Row>, k: Key, n: nat, at: map<(string, string), nat>)
    requires n <= |rows|
  {
    forall i :: 0 <= i < n && GroupOf(rows[i], k).Some? ==> GroupOf(rows[i], k).value in at
  }

  ghost predicate LooseFits(rows: seq<Row>, k: Key, n: nat, loose: seq<Row>)
    requires n <= |rows|
  {
    && (forall j :: 0 <= j < |loose| ==> GroupOf(loose[j], k).None? && loose[j] in rows)
    && (forall r :: GroupOf(r, k).None? ==> multiset(loose)[r] == multiset(rows[..n])[r])
  }

  /** After `n` rows: the picked row of every group so far, where to find it, and the rows without one. */
  ghost predicate PickedUpTo(
    rows: seq<Row>, k: Key, n: nat, picked: seq<Row>, at: map<(string, string), nat>, loose: seq<Row>)
    requires n <= |rows|
  {
    && IndexFits(picked, at, k) && NewestFits(rows, k, n, picked) && GroupsSeen(rows, k, n, at)
    && LooseFits(rows, k, n, loose) && |picked| + |loose| <= n
  }

  /** A row of another group, or one no newer, leaves the newest as it is. */
  lemma NewestKept(rows: seq<Row>, n: nat, r: Row, k: Key)
    requires n < |rows| && NewestIn(rows[..n], r, k)
    requires GroupOf(rows[n], k) != GroupOf(r, k) || !Newer(rows[n], r)
    ensures NewestIn(rows[..n + 1], r, k)
  {
    forall i | 0 <= i < n + 1 && GroupOf(rows[i], k) == GroupOf(r, k) ensures !Newer(rows[i], r) {
      if i < n { assert rows[..n][i] == rows[i]; }
    }
  }

  lemma LooseKept(rows: seq<Row>, k: Key, n: nat, loose: seq<Row>)
    requires n < |rows| && LooseFits(rows, k, n, loose) && GroupOf(rows[n], k).Some?
    ensures LooseFits(rows, k, n + 1, loose)
  {
    assert rows[..n + 1] == rows[..n] + [rows[n]];
  }

  lemma PickLoose(rows: seq<Row>, k: Key, n: nat, picked: seq<Row>, at: map<(string, string), nat>, loose: seq<Row>)
    requires n < |rows| && PickedUpTo(rows, k, n, picked, at, loose) && GroupOf(rows[n], k).None?
    ensures PickedUpTo(rows, k, n + 1, picked, at, loose + [rows[n]])
  {
    assert rows[..n + 1] == rows[..n] + [rows[n]];
    forall j | 0 <= j < |picked| ensures NewestIn(rows[..n + 1], picked[j], k) {
      NewestKept(rows, n, picked[j], k);
    }
  }

  lemma PickNew(rows: seq<Row>, k: Key, n: nat, picked: seq<Row>, at: map<(string, string), nat>, loose: seq<Row>)
    requires n < |rows| && PickedUpTo(rows, k, n, picked, at, loose)
    requires GroupOf(rows[n], k).Some? && GroupOf(rows[n], k).value !in at
    ensures PickedUpTo(rows, k, n + 1, picked + [rows[n]], at[GroupOf(rows[n], k).value := |picked|], loose)
  {
    LooseKept(rows, k, n, loose);
    forall j | 0 <= j < |picked| ensures NewestIn(rows[..n + 1], picked[j], k) {
      NewestKept(rows, n, picked[j], k);
    }
    FirstOfGroup(rows, k, n, at);
  }

  lemma FirstOfGroup(rows: seq<Row>, k: Key, n: nat, at: map<(string, string), nat>)
    requires n < |rows| && GroupsSeen(rows, k, n, at)
    requires GroupOf(rows[n], k).Some? && GroupOf(rows[n], k).value !in at
    ensures NewestIn(rows[..n + 1], rows[n], k)
  {
    forall i | 0 <= i < n + 1 && GroupOf(rows[i], k) == GroupOf(rows[n], k) ensures !Newer(rows[i], rows[n]) {
      assert i == n;
    }
  }

  lemma PickOlder(rows: seq<Row>, k: Key, n: nat, picked: seq<Row>, at: map<(string, string), nat>, loose: seq<Row>)
    requires n < |rows| && PickedUpTo(rows, k, n, picked, at, loose)
    requires GroupOf(rows[n], k).Some? && GroupOf(rows[n], k).value in at
    requires !Newer(rows[n], picked[at[GroupOf(rows[n], k).value]])
    ensures PickedUpTo(rows, k, n + 1, picked, at, loose)
  {
    LooseKept(rows, k, n, loose);
    forall j | 0 <= j < |picked| ensures NewestIn(rows[..n + 1], picked[j], k) {
      NewestKept(rows, n, picked[j], k);
    }
  }

  lemma PickNewer(rows: seq<Row>, k: Key, n: nat, picked: seq<Row>, at: map<(string, string), nat>, loose: seq<Row>)
    requires n < |rows| && PickedUpTo(rows, k, n, picked, at, loose)
    requires GroupOf(rows[n], k).Some? && GroupOf(rows[n], k).value in at
    requires Newer(rows[n], picked[at[GroupOf(rows[n], k).value]])
    ensures PickedUpTo(rows, k, n + 1, picked[at[GroupOf(rows[n], k).value] := rows[n]], at, loose)
  {
    var j := at[GroupOf(rows[n], k).value];
    var picked' := picked[j := rows[n]];
    LooseKept(rows, k, n, loose);
    IndexReplaced(picked, at, k, j, rows[n]);
    NewestReplaced(rows, k, n, picked[j]);
    forall i | 0 <= i < |picked'| ensures NewestIn(rows[..n + 1], picked'[i], k) {
      if i != j {
        assert GroupOf(picked[i], k) != GroupOf(rows[n], k);
        NewestKept(rows, n, picked[i], k);
      }
    }
  }

  lemma IndexReplaced(picked: seq<Row>, at: map<(string, string), nat>, k: Key, j: nat, r: Row)
    requires IndexFits(picked, at, k) && j < |picked| && GroupOf(r, k) == GroupOf(picked[j], k)
    ensures IndexFits(picked[j := r], at, k)
  {
  }

  lemma NewestReplaced(rows: seq<Row>, k: Key, n: nat, old_: Row)
    requires n < |rows| && NewestIn(rows[..n], old_, k) && GroupOf(old_, k) == GroupOf(rows[n], k) && Newer(rows[n], old_)
    ensures NewestIn(rows[..n + 1], rows[n], k)
  {
    forall i | 0 <= i < n + 1 && GroupOf(rows[i], k) == GroupOf(rows[n], k) ensures !Newer(rows[i], rows[n]) {
      if i < n { assert rows[..n][i] == rows[i]; }
    }
  }

  /** Sorting the picked and the loose rows, newest first. */
  method SortNewestFirst(rows: seq<Row>, ghost k: Key) returns (out: seq<Row>)
    requires OnePerGroup(rows, k)
    ensures Sorted(out) && OnePerGroup(out, k) && multiset(out) == multiset(rows)
  {
    out := [];
    for j := 0 to |rows|
      invariant Sorted(out) && OnePerGroup(out, k) && multiset(out) == multiset(rows[..j])
    {
      assert rows[..j + 1] == rows[..j] + [rows[j]];
      forall i | 0 <= i < |out| && GroupOf(rows[j], k).Some?
        ensures GroupOf(out[i], k) != GroupOf(rows[j], k)
      {
        assert out[i] in multiset(rows[..j]);
        assert out[i] in rows[..j];
      }
      InsertedSorted(out, rows[j]);
      InsertedDistinct(out, rows[j], k);
      out := Inserted(out, rows[j]);
    }
    assert rows[..|rows|] == rows;
  }

  lemma SameRows(a: seq<Row>, b: seq<Row>, r: Row)
    requires multiset(a) == multiset(b)
    ensures (r in a <==> r in b) && |a| == |b|
  {
    assert r in a <==> r in multiset(a);
    assert |multiset(a)| == |a| && |multiset(b)| == |b|;
  }

  lemma PassResolves(
    rows: seq<Row>, k: Key, picked: seq<Row>, at: map<(string, string), nat>, loose: seq<Row>, out: seq<Row>)
    requires PickedUpTo(rows, k, |rows|, picked, at, loose)
    requires Sorted(out) && OnePerGroup(out, k) && multiset(out) == multiset(picked + loose)
    ensures Resolved(rows, k, out, |rows| - |out|)
  {
    assert rows[..|rows|] == rows;
    forall i | 0 <= i < |out|
      ensures out[i] in rows && (GroupOf(out[i], k).Some? ==> NewestIn(rows, out[i], k))
    {
      SameRows(out, picked + loose, out[i]);
    }
    forall g | HasGroup(rows, g, k)
      ensures HasGroup(out, g, k)
    {
      SameRows(out, picked + loose, picked[at[g]]);
    }
    forall r: Row | GroupOf(r, k).None?
      ensures multiset(out)[r] == multiset(rows)[r]
    {
      assert r !in picked;
      assert multiset(picked)[r] == 0;
    }
    assert |multiset(out)| == |out| && |multiset(picked + loose)| == |picked + loose|;
  }

  /** One row: the picked row of its group is replaced in place when the row is newer. */
  method PickRow(
    ghost rows: seq<Row>, ghost n: nat, r: Row, k: Key, picked: seq<Row>, at: map<(string, string), nat>, loose: seq<Row>)
    returns (picked': seq<Row>, at': map<(string, string), nat>, loose': seq<Row>)
    requires n < |rows| && rows[n] == r && PickedUpTo(rows, k, n, picked, at, loose)
    ensures PickedUpTo(rows, k, n + 1, picked', at', loose')
  {
    picked', at', loose' := picked, at, loose;
    var g := GroupOf(r, k);
    if g.None? {
      PickLoose(rows, k, n, picked, at, loose);
      loose' := loose + [r];
    } else if g.value !in at {
      PickNew(rows, k, n, picked, at, loose);
      picked', at' := picked + [r], at[g.value := |picked|];
    } else if Newer(r, picked[at[g.value]]) {
      PickNewer(rows, k, n, picked, at, loose);
      picked' := picked[at[g.value] := r];
    } else {
      PickOlder(rows, k, n, picked, at, loose);
    }
  }

  method Pick(rows: seq<Row>, k: Key) returns (picked: seq<Row>, at: map<(string, string), nat>, loose: seq<Row>)
    ensures PickedUpTo(rows, k, |rows|, picked, at, loose)
  {
    picked, at, loose := [], map[], [];
    for n := 0 to |rows|
      invariant PickedUpTo(rows, k, n, picked, at, loose)
    {
      picked, at, loose := PickRow(rows, n, rows[n], k, picked, at, loose);
    }
  }

  lemma PickedOnce(
    rows: seq<Row>, k: Key, picked: seq<Row>, at: map<(string, string), nat>, loose: seq<Row>)
    requires PickedUpTo(rows, k, |rows|, picked, at, loose)
    ensures OnePerGroup(picked + loose, k) && |picked + loose| <= |rows|
  {
  }

  /** The newest row of every group, and all rows without one. */
  method LatestPerKey(rows: seq<Row>, k: Key) returns (out: seq<Row>, replaced: int)
    ensures Resolved(rows, k, out, replaced)
  {
    var picked, at, loose := Pick(rows, k);
    PickedOnce(rows, k, picked, at, loose);
    out := SortNewestFirst(picked + loose, k);
    PassResolves(rows, k, picked, at, loose, out);
    replaced := |rows| - |out|;
  }

  // ---------------------------------------------------------------- what a pass means

  /** No two rows share creation time and id. */
  ghost predicate Stamped(rows: seq<Row>) {
    forall i, j :: 0 <= i < j < |rows| ==> Newer(rows[i], rows[j]) || Newer(rows[j], rows[i])
  }

  /** A row survives a pass when it has no group or is the newest of it. */
  ghost predicate Survives(rows: seq<Row>, k: Key, r: Row) {
    r in rows && (GroupOf(r, k).None? || NewestIn(rows, r, k))
  }

  lemma {:induction false} ResolvedMembers(rows: seq<Row>, k: Key, out: seq<Row>, replaced: int, r: Row)
    requires Resolved(rows, k, out, replaced) && Stamped(rows)
    ensures r in out <==> Survives(rows, k, r)
  {
    if r in out {
      var i :| 0 <= i < |out| && out[i] == r;
    }
    if Survives(rows, k, r) {
      var i :| 0 <= i < |rows| && rows[i] == r;
      if GroupOf(r, k).None? {
        assert multiset(rows)[r] > 0;
      } else {
        assert HasGroup(rows, GroupOf(r, k).value, k);
        var j :| 0 <= j < |out| && GroupOf(out[j], k) == Some(GroupOf(r, k).value);
        var m :| 0 <= m < |rows| && rows[m] == out[j];
        assert !Newer(rows[m], r) && !Newer(rows[i], out[j]);
      }
    }
  }

  /** A stamped list has no duplicates, and neither has what a pass leaves of it. */
  lemma ResolvedStamped(rows: seq<Row>, k: Key, out: seq<Row>, replaced: int)
    requires Resolved(rows, k, out, replaced) && Stamped(rows)
    ensures Stamped(out)
  {
    forall i, j | 0 <= i < j < |out|
      ensures Newer(out[i], out[j]) || Newer(out[j], out[i])
    {
      var a :| 0 <= a < |rows| && rows[a] == out[i];
      var b :| 0 <= b < |rows| && rows[b] == out[j];
      if a == b {
        StampedOnce(rows, a);
        LooseTwice(out, i, j);
      }
    }
  }

  lemma {:induction false} StampedOnce(rows: seq<Row>, a: nat)
    requires Stamped(rows) && a < |rows|
    ensures multiset(rows)[rows[a]] == 1
  {
    assert rows == rows[..a] + [rows[a]] + rows[a + 1..];
    assert rows[a] !in rows[..a] && rows[a] !in rows[a + 1..];
  }

  lemma LooseTwice(out: seq<Row>, i: nat, j: nat)
    requires i < j < |out| && out[i] == out[j]
    ensures multiset(out)[out[i]] >= 2
  {
    assert out == out[..j] + [out[j]] + out[j + 1..];
    assert out[i] == out[..j][i];
    assert out[i] in multiset(out[..j]);
  }

  /** Two sorted stamped lists with the same members are equal. */
  lemma {:induction false} SortedDetermined(a: seq<Row>, b: seq<Row>)
    requires Sorted(a) && Sorted(b) && Stamped(a) && Stamped(b)
    requires forall r :: r in a <==> r in b
    ensures a == b
    decreases |a|
  {
    assert (a != [] ==> a[0] in a) && (b != [] ==> b[0] in b);
    if a != [] {
      SameHead(a, b);
      SameTail(a, b);
      SortedDetermined(a[1..], b[1..]);
      assert a == [a[0]] + a[1..] && b == [b[0]] + b[1..];
    }
  }

  /** The first of a sorted stamped list is newer than every other of its rows. */
  lemma HeadNewest(a: seq<Row>, r: Row)
    requires Sorted(a) && Stamped(a) && r in a
    ensures r == a[0] || Newer(a[0], r)
  {
    var i :| 0 <= i < |a| && a[i] == r;
    assert i > 0 ==> !Newer(a[i], a[0]);
    assert i > 0 ==> Newer(a[0], a[i]);
  }

  lemma SameHead(a: seq<Row>, b: seq<Row>)
    requires Sorted(a) && Sorted(b) && Stamped(a) && Stamped(b) && a != [] && b != []
    requires a[0] in b && b[0] in a
    ensures a[0] == b[0]
  {
    HeadNewest(a, b[0]);
    HeadNewest(b, a[0]);
  }

  lemma InTail(a: seq<Row>, r: Row)
    requires Stamped(a) && a != []
    ensures r in a[1..] <==> r in a && r != a[0]
  {
    forall m | 1 <= m < |a| ensures a[m] in a[1..] && a[m] != a[0] {
      assert a[1..][m - 1] == a[m];
      assert Newer(a[0], a[m]) || Newer(a[m], a[0]);
    }
    assert forall m :: 0 <= m < |a| - 1 ==> a[1..][m] == a[m + 1];
  }

  lemma SameTail(a: seq<Row>, b: seq<Row>)
    requires Stamped(a) && Stamped(b) && a != [] && b != [] && a[0] == b[0]
    requires forall r :: r in a <==> r in b
    ensures forall r :: r in a[1..] <==> r in b[1..]
  {
    forall r ensures r in a[1..] <==> r in b[1..] {
      InTail(a, r);
      InTail(b, r);
    }
  }

  lemma PassOrderIndependent(
    rows: seq<Row>, rows': seq<Row>, k: Key, out: seq<Row>, out': seq<Row>, replaced: int, replaced': int)
    requires Stamped(rows) && Stamped(rows') && forall r :: r in rows <==> r in rows'
    requires Resolved(rows, k, out, replaced) && Resolved(rows', k, out', replaced')
    ensures out == out'
  {
    ResolvedStamped(rows, k, out, replaced);
    ResolvedStamped(rows', k, out', replaced');
    forall r
      ensures r in out <==> r in out'
    {
      ResolvedMembers(rows, k, out, replaced, r);
      ResolvedMembers(rows', k, out', replaced', r);
      SurvivesSame(rows, rows', k, r);
    }
    SortedDetermined(out, out');
  }

  lemma SurvivesSame(rows: seq<Row>, rows': seq<Row>, k: Key, r: Row)
    requires forall x :: x in rows <==> x in rows'
    ensures Survives(rows, k, r) <==> Survives(rows', k, r)
  {
    NewestSame(rows, rows', k, r);
    NewestSame(rows', rows, k, r);
  }

  lemma NewestSame(rows: seq<Row>, rows': seq<Row>, k: Key, r: Row)
    requires forall x :: x in rows <==> x in rows'
    ensures NewestIn(rows, r, k) ==> NewestIn(rows', r, k)
  {
    if NewestIn(rows, r, k) {
      forall i | 0 <= i < |rows'| && GroupOf(rows'[i], k) == GroupOf(r, k)
        ensures !Newer(rows'[i], r)
      {
        assert rows'[i] in rows;
        var j :| 0 <= j < |rows| && rows[j] == rows'[i];
      }
    }
  }

  /** A list that is sorted and has one row per group resolves to itself: nothing is replaced. */
  lemma PassFixed(out: seq<Row>, k: Key, again: seq<Row>, replaced: int)
    requires Sorted(out) && OnePerGroup(out, k) && Stamped(out) && Resolved(out, k, again, replaced)
    ensures again == out && replaced == 0
  {
    ResolvedStamped(out, k, again, replaced);
    forall r
      ensures r in again <==> r in out
    {
      ResolvedMembers(out, k, again, replaced, r);
      if r in out && GroupOf(r, k).Some? {
        assert NewestIn(out, r, k);
      }
    }
    SortedDetermined(again, out);
  }

  // ---------------------------------------------------------------- both passes

  predicate Eligible(r: Row) {
    r.isAnswer && r.score.Some?
  }

  function EligibleRows(rows: seq<Row>): (r: seq<Row>)
    ensures forall x :: x in r <==> x in rows && Eligible(x)
  {
    if rows == [] then []
    else if Eligible(rows[|rows| - 1]) then EligibleRows(rows[..|rows| - 1]) + [rows[|rows| - 1]]
    else EligibleRows(rows[..|rows| - 1])
  }

  /** The second pass leaves at most one row per session, too. */
  lemma StillOnePerSession(rows: seq<Row>, out: seq<Row>, replaced: int)
    requires OnePerGroup(rows, Session) && Resolved(rows, Answer, out, replaced)
    ensures OnePerGroup(out, Session)
  {
    forall i, j | 0 <= i < j < |out| && GroupOf(out[i], Session).Some?
      ensures GroupOf(out[i], Session) != GroupOf(out[j], Session)
    {
      var a :| 0 <= a < |rows| && rows[a] == out[i];
      var b :| 0 <= b < |rows| && rows[b] == out[j];
      if a == b {
        LooseTwice(out, i, j);
        OnceInGroup(rows, Session, a);
      }
    }
  }

  lemma OnceInGroup(rows: seq<Row>, k: Key, a: nat)
    requires OnePerGroup(rows, k) && a < |rows| && GroupOf(rows[a], k).Some?
    ensures multiset(rows)[rows[a]] == 1
  {
    assert rows == rows[..a] + [rows[a]] + rows[a + 1..];
    assert rows[a] !in rows[..a] && rows[a] !in rows[a + 1..];
  }

  /** Where every group has one row, a pass keeps that row: it is the only one with its group. */
  lemma SingleKept(rows: seq<Row>, k: Key, out: seq<Row>, replaced: int, r: Row)
    requires OnePerGroup(rows, k) && Resolved(rows, k, out, replaced)
    ensures multiset(out)[r] == multiset(rows)[r]
  {
    if GroupOf(r, k).Some? {
      if r in rows {
        var i :| 0 <= i < |rows| && rows[i] == r;
        assert HasGroup(rows, GroupOf(r, k).value, k);
        var j :| 0 <= j < |out| && GroupOf(out[j], k) == Some(GroupOf(r, k).value);
        var m :| 0 <= m < |rows| && rows[m] == out[j];
        assert m == i;
        OnceInGroup(rows, k, i);
        OnceInGroup(out, k, j);
      } else {
        assert r !in out;
      }
    }
  }

  /** A pass over a list that has one row per group replaces nothing and keeps every row, whatever the
      creation times and ids. */
  lemma PassKeepsSingles(rows: seq<Row>, k: Key, out: seq<Row>, replaced: int)
    requires OnePerGroup(rows, k) && Resolved(rows, k, out, replaced)
    ensures replaced == 0 && multiset(out) == multiset(rows)
  {
    forall r: Row
      ensures multiset(out)[r] == multiset(rows)[r]
    {
      SingleKept(rows, k, out, replaced, r);
    }
    assert multiset(out) == multiset(rows);
    assert |multiset(out)| == |out| && |multiset(rows)| == |rows|;
  }

  /** One row per group is a matter of which rows there are, not of their order. */
  lemma SinglesReordered(a: seq<Row>, b: seq<Row>, k: Key)
    requires OnePerGroup(a, k) && multiset(a) == multiset(b)
    ensures OnePerGroup(b, k)
  {
    forall i, j | 0 <= i < j < |b| && GroupOf(b[i], k).Some?
      ensures GroupOf(b[i], k) != GroupOf(b[j], k)
    {
      SameRows(a, b, b[i]);
      SameRows(a, b, b[j]);
      var m :| 0 <= m < |a| && a[m] == b[i];
      var n :| 0 <= n < |a| && a[n] == b[j];
      if m == n {
        LooseTwice(b, i, j);
        OnceInGroup(a, k, m);
      }
    }
  }

  ghost predicate BothPasses(rows: seq<Row>, mid: seq<Row>, out: seq<Row>, bySession: int, byAnswer: int) {
    Resolved(EligibleRows(rows), Session, mid, bySession) && Resolved(mid, Answer, out, byAnswer)
  }

  /** The user has a rating among the rows that is at least as new: created later, or at the same time with
      an id not smaller. */
  ghost predicate AsNewKept(out: seq<Row>, r: Row) {
    exists i :: 0 <= i < |out| && out[i].user == r.user
                && (out[i].createdAt > r.createdAt || (out[i].createdAt == r.createdAt && out[i].id >= r.id))
  }

  lemma PassKeepsAsNew(rows: seq<Row>, k: Key, out: seq<Row>, replaced: int, r: Row)
    requires Resolved(rows, k, out, replaced) && r in rows
    ensures AsNewKept(out, r)
  {
    if GroupOf(r, k).Some? {
      var i :| 0 <= i < |rows| && rows[i] == r;
      assert HasGroup(rows, GroupOf(r, k).value, k);
      var j :| 0 <= j < |out| && GroupOf(out[j], k) == GroupOf(r, k);
      assert !Newer(rows[i], out[j]);
    } else {
      assert multiset(out)[r] == multiset(rows)[r] > 0;
      var i :| 0 <= i < |out| && out[i] == r;
    }
  }

  /** Whatever is replaced, every user keeps a rating at least as new as any eligible one of theirs. */
  lemma RatingKept(rows: seq<Row>, mid: seq<Row>, out: seq<Row>, s: int, a: int, r: Row)
    requires BothPasses(rows, mid, out, s, a) && r in EligibleRows(rows)
    ensures AsNewKept(out, r)
  {
    PassKeepsAsNew(EligibleRows(rows), Session, mid, s, r);
    var i :| 0 <= i < |mid| && mid[i].user == r.user
             && (mid[i].createdAt > r.createdAt || (mid[i].createdAt == r.createdAt && mid[i].id >= r.id));
    PassKeepsAsNew(mid, Answer, out, a, mid[i]);
  }

  /** No user has two ratings of one session or of one answer. */
  ghost predicate OnePerUser(out: seq<Row>) {
    forall i, j :: 0 <= i < j < |out| && out[i].user == out[j].user ==>
      && (out[i].session.Some? ==> out[i].session != out[j].session)
      && (out[i].answer.Some? ==> out[i].answer != out[j].answer)
  }

  /** Newest first. */
  ghost predicate NewestFirst(out: seq<Row>) {
    forall i, j :: 0 <= i < j < |out| ==>
      out[i].createdAt > out[j].createdAt || (out[i].createdAt == out[j].createdAt && out[i].id >= out[j].id)
  }

  lemma GroupsApart(out: seq<Row>)
    requires OnePerGroup(out, Session) && OnePerGroup(out, Answer) && Sorted(out)
    ensures OnePerUser(out) && NewestFirst(out)
  {
    forall i, j | 0 <= i < j < |out| && out[i].user == out[j].user
      ensures out[i].session.Some? ==> out[i].session != out[j].session
      ensures out[i].answer.Some? ==> out[i].answer != out[j].answer
    {
      assert GroupOf(out[i], Session).Some? ==> GroupOf(out[i], Session) != GroupOf(out[j], Session);
      assert GroupOf(out[i], Answer).Some? ==> GroupOf(out[i], Answer) != GroupOf(out[j], Answer);
    }
    forall i, j | 0 <= i < j < |out|
      ensures out[i].createdAt > out[j].createdAt || (out[i].createdAt == out[j].createdAt && out[i].id >= out[j].id)
    {
      assert !Newer(out[j], out[i]);
    }
  }

  /** Sessions first, answers second. What is left has one row per session and one per answer, and every
      eligible row was kept or replaced. */
  method ResolveRatings(rows: seq<Row>) returns (out: seq<Row>, bySession: int, byAnswer: int, ghost mid: seq<Row>)
    ensures BothPasses(rows, mid, out, bySession, byAnswer)
    ensures OnePerGroup(out, Session) && OnePerGroup(out, Answer) && Sorted(out)
    ensures |EligibleRows(rows)| == |out| + bySession + byAnswer
    ensures OnePerUser(out) && NewestFirst(out)
    ensures forall r :: r in EligibleRows(rows) ==> AsNewKept(out, r)
  {
    var first, s := LatestPerKey(EligibleRows(rows), Session);
    var second, a := LatestPerKey(first, Answer);
    StillOnePerSession(first, second, a);
    GroupsApart(second);
    forall r | r in EligibleRows(rows) ensures AsNewKept(second, r) {
      RatingKept(rows, first, second, s, a, r);
    }
    return second, s, a, first;
  }

  lemma {:induction false} EligibleStamped(rows: seq<Row>)
    requires Stamped(rows)
    ensures Stamped(EligibleRows(rows))
  {
    if rows != [] {
      var n := |rows| - 1;
      EligibleStamped(rows[..n]);
      forall i | 0 <= i < |EligibleRows(rows[..n])|
        ensures Newer(EligibleRows(rows[..n])[i], rows[n]) || Newer(rows[n], EligibleRows(rows[..n])[i])
      {
        var r := EligibleRows(rows[..n])[i];
        assert r in rows[..n];
        var j :| 0 <= j < n && rows[..n][j] == r;
      }
    }
  }

  /** The resolution does not depend on the order of the input. */
  lemma ResolutionOrderIndependent(
    rows: seq<Row>, rows': seq<Row>, mid: seq<Row>, mid': seq<Row>, out: seq<Row>, out': seq<Row>,
    s: int, s': int, a: int, a': int)
    requires Stamped(rows) && Stamped(rows') && forall r :: r in rows <==> r in rows'
    requires BothPasses(rows, mid, out, s, a) && BothPasses(rows', mid', out', s', a')
    ensures out == out'
  {
    EligibleStamped(rows);
    EligibleStamped(rows');
    PassOrderIndependent(EligibleRows(rows), EligibleRows(rows'), Session, mid, mid', s, s');
    ResolvedStamped(EligibleRows(rows), Session, mid, s);
    PassOrderIndependent(mid, mid, Answer, out, out', a, a');
  }

  lemma {:induction false} AllEligible(rows: seq<Row>)
    requires forall i :: 0 <= i < |rows| ==> Eligible(rows[i])
    ensures EligibleRows(rows) == rows
  {
    if rows != [] {
      var front, last := rows[..|rows| - 1], rows[|rows| - 1];
      assert Eligible(last) && forall i :: 0 <= i < |front| ==> front[i] == rows[i];
      AllEligible(front);
      assert rows == front + [last];
    }
  }

  lemma ResolvedEligible(rows: seq<Row>, mid: seq<Row>, out: seq<Row>, s: int, a: int)
    requires BothPasses(rows, mid, out, s, a)
    ensures EligibleRows(out) == out
  {
    forall i | 0 <= i < |out|
      ensures Eligible(out[i])
    {
      assert out[i] in mid;
      var j :| 0 <= j < |mid| && mid[j] == out[i];
    }
    AllEligible(out);
  }

  /** Resolving a resolution replaces nothing and keeps every row, also where rows share creation time
      and id. */
  lemma ResolutionSettles(
    rows: seq<Row>, mid: seq<Row>, out: seq<Row>, s: int, a: int, mid': seq<Row>, out': seq<Row>, s': int, a': int)
    requires BothPasses(rows, mid, out, s, a) && BothPasses(out, mid', out', s', a')
    ensures s' == 0 && a' == 0 && multiset(out') == multiset(out)
  {
    ResolvedEligible(rows, mid, out, s, a);
    StillOnePerSession(mid, out, a);
    PassKeepsSingles(out, Session, mid', s');
    SinglesReordered(out, mid', Answer);
    PassKeepsSingles(mid', Answer, out', a');
  }

  /** Resolving a resolution whose rows differ in creation time or id keeps the order as well. */
  lemma ResolutionIdempotent(
    rows: seq<Row>, mid: seq<Row>, out: seq<Row>, s: int, a: int, mid': seq<Row>, out': seq<Row>, s': int, a': int)
    requires Stamped(rows) && BothPasses(rows, mid, out, s, a) && BothPasses(out, mid', out', s', a')
    ensures out' == out && s' == 0 && a' == 0
  {
    EligibleStamped(rows);
    ResolvedStamped(EligibleRows(rows), Session, mid, s);
    ResolvedStamped(mid, Answer, out, a);
    StillOnePerSession(mid, out, a);
    ResolvedEligible(rows, mid, out, s, a);
    PassFixed(out, Session, mid', s');
    PassFixed(out, Answer, out', a');
  }
}
