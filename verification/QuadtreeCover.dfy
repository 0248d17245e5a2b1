/** What a point is pushed by when cells far from it are taken as a whole: said by the points that fall into
    a region, without the tree. */
module QuadtreeCover {
  import opened Quadtree

  datatype Region = Region(x: real, y: real, w: real)

  /** Quadrant 1 and 3 are right of the middle, 2 and 3 are below it. */
  function Quarter(c: Region, q: nat): Region {
    var h := c.w / 2.0;
    Region(if q == 1 || q == 3 then c.x + h else c.x, if q == 2 || q == 3 then c.y + h else c.y, h)
  }

  predicate InQuarter(c: Region, q: nat, p: Point) {
    && (p.x >= c.x + c.w / 2.0 <==> q == 1 || q == 3)
    && (p.y >= c.y + c.w / 2.0 <==> q == 2 || q == 3)
    && q < 4
  }

  /** The listed points that fall into a quadrant, in order. */
  function Within(n: seq<Point>, list: seq<nat>, c: Region, q: nat): (r: seq<nat>)
    requires Among(list, |n|)
    ensures Among(r, |n|)
  {
    if list == [] then []
    else
      var rest, j := Within(n, list[..|list| - 1], c, q), list[|list| - 1];
      if InQuarter(c, q, n[j]) then rest + [j] else rest
  }

  /** The listed points below a path of quadrants. */
  function Under(n: seq<Point>, list: seq<nat>, c: Region, path: seq<nat>): (r: seq<nat>)
    requires Among(list, |n|)
    ensures Among(r, |n|)
    decreases |path|
  {
    if path == [] then list else Under(n, Within(n, list, c, path[0]), Quarter(c, path[0]), path[1..])
  }

  function TotalsOf(n: seq<Point>, list: seq<nat>): Totals
    requires Among(list, |n|)
  {
    Totals(|list|, SumX(n, list), SumY(n, list))
  }

  // ---------------------------------------------------------------- the tree holds the points

  /** Every cell holds the points that fall into its region: its totals are theirs. A leaf above the depth
      cap holds one at most, and remembers the first; a cell with quadrants holds two at least. */
  predicate Holds(t: Tree, n: seq<Point>, list: seq<nat>, c: Region, depth: nat)
    requires Among(list, |n|)
  {
    && Region(t.x, t.y, t.w) == c && Sums(t) == TotalsOf(n, list)
    && match t
       case Leaf(_, _, _, _, _, _, body) =>
         (depth < MAX_DEPTH ==> |list| <= 1) && if list == [] then body < 0 else body == list[0]
       case Node(_, _, _, _, _, _, k0, k1, k2, k3) =>
         && depth < MAX_DEPTH && |list| >= 2
         && Holds(k0, n, Within(n, list, c, 0), Quarter(c, 0), depth + 1)
         && Holds(k1, n, Within(n, list, c, 1), Quarter(c, 1), depth + 1)
         && Holds(k2, n, Within(n, list, c, 2), Quarter(c, 2), depth + 1)
         && Holds(k3, n, Within(n, list, c, 3), Quarter(c, 3), depth + 1)
  }

  ghost predicate KidHolds(t: Tree, n: seq<Point>, list: seq<nat>, c: Region, depth: nat, q: nat)
    requires Among(list, |n|) && t.Node? && q < 4
  {
    Holds(Kid(t, q), n, Within(n, list, c, q), Quarter(c, q), depth + 1)
  }

  ghost predicate KidsHold(t: Tree, n: seq<Point>, list: seq<nat>, c: Region, depth: nat)
    requires Among(list, |n|) && t.Node?
  {
    && Region(t.x, t.y, t.w) == c
    && KidHolds(t, n, list, c, depth, 0) && KidHolds(t, n, list, c, depth, 1)
    && KidHolds(t, n, list, c, depth, 2) && KidHolds(t, n, list, c, depth, 3)
  }

  lemma WithinNext(n: seq<Point>, list: seq<nat>, c: Region, q: nat, j: nat)
    requires Among(list, |n|) && j < |n|
    ensures Among(list + [j], |n|)
    ensures Within(n, list + [j], c, q)
            == if InQuarter(c, q, n[j]) then Within(n, list, c, q) + [j] else Within(n, list, c, q)
    ensures TotalsOf(n, list + [j])
            == Totals(|list| + 1, SumX(n, list) + n[j].x, SumY(n, list) + n[j].y)
  {
    assert (list + [j])[..|list|] == list;
  }

  lemma PlacedKid(t: Tree, n: seq<Point>, list: seq<nat>, j: nat, c: Region, depth: nat, q: nat)
    requires t.Node? && Fit(t, |n|, depth) && j < |n| && q < 4 && Region(t.x, t.y, t.w) == c
    requires Among(list, |n|) && Among(list + [j], |n|) && KidHolds(t, n, list, c, depth, q)
    requires q == Quadrant(t, n[j]) ==>
               && Among(Within(n, list, c, q) + [j], |n|)
               && Holds(Insert(Kid(t, q), n, j, depth + 1), n, Within(n, list, c, q) + [j], Quarter(c, q), depth + 1)
    ensures KidHolds(Place(t, n, j, depth), n, list + [j], c, depth, q)
  {
    WithinNext(n, list, c, q, j);
    PlaceKids(t, n, j, depth, q);
    assert InQuarter(c, q, n[j]) <==> q == Quadrant(t, n[j]);
  }

  lemma PlaceKeeps(t: Tree, n: seq<Point>, j: nat, depth: nat)
    requires t.Node? && Fit(t, |n|, depth) && j < |n|
    ensures var r := Place(t, n, j, depth); Region(r.x, r.y, r.w) == Region(t.x, t.y, t.w) && Sums(r) == Sums(t)
  {
  }

  lemma {:induction false} PlaceHolds(t: Tree, n: seq<Point>, list: seq<nat>, j: nat, c: Region, depth: nat)
    requires t.Node? && Fit(t, |n|, depth) && j < |n| && Among(list, |n|) && KidsHold(t, n, list, c, depth)
    ensures Among(list + [j], |n|) && KidsHold(Place(t, n, j, depth), n, list + [j], c, depth)
    ensures Sums(Place(t, n, j, depth)) == Sums(t)
    decreases MAX_DEPTH + 1 - depth, 0
  {
    var at := Quadrant(t, n[j]);
    InsertHolds(Kid(t, at), n, Within(n, list, c, at), j, Quarter(c, at), depth + 1);
    PlacedKid(t, n, list, j, c, depth, 0);
    PlacedKid(t, n, list, j, c, depth, 1);
    PlacedKid(t, n, list, j, c, depth, 2);
    PlacedKid(t, n, list, j, c, depth, 3);
    PlaceKeeps(t, n, j, depth);
  }

  lemma EmptyHolds(u: Tree, n: seq<Point>, c: Region, depth: nat)
    requires u.Leaf? && Region(u.x, u.y, u.w) == c && depth < MAX_DEPTH
    ensures KidsHold(SplitLeaf(u, |n|, depth), n, [], c, depth) && Sums(SplitLeaf(u, |n|, depth)) == Sums(u)
  {
  }

  lemma SameKids(t: Tree, n: seq<Point>, list: seq<nat>, same: seq<nat>, c: Region, depth: nat)
    requires t.Node? && Among(list, |n|) && KidsHold(t, n, list, c, depth) && list == same
    ensures KidsHold(t, n, same, c, depth)
  {
  }

  lemma SplitHolds(u: Tree, n: seq<Point>, list: seq<nat>, body: nat, j: nat, c: Region, depth: nat)
    requires u.Leaf? && Region(u.x, u.y, u.w) == c && depth < MAX_DEPTH && body < |n| && j < |n| && list == [body]
    ensures var r := Place(Place(SplitLeaf(u, |n|, depth), n, body, depth), n, j, depth);
            KidsHold(r, n, list + [j], c, depth) && Sums(r) == Sums(u)
    decreases MAX_DEPTH + 1 - depth, 1
  {
    var e := SplitLeaf(u, |n|, depth);
    EmptyHolds(u, n, c, depth);
    PlaceHolds(e, n, [], body, c, depth);
    SameKids(Place(e, n, body, depth), n, [] + [body], list, c, depth);
    PlaceHolds(Place(e, n, body, depth), n, list, j, c, depth);
  }

  lemma NodeHolds(t: Tree, n: seq<Point>, list: seq<nat>, c: Region, depth: nat)
    requires Among(list, |n|) && t.Node? && depth < MAX_DEPTH && |list| >= 2 && KidsHold(t, n, list, c, depth)
    requires Sums(t) == TotalsOf(n, list)
    ensures Holds(t, n, list, c, depth)
  {
  }

  lemma HoldsKids(t: Tree, n: seq<Point>, list: seq<nat>, c: Region, depth: nat)
    requires Among(list, |n|) && t.Node? && Holds(t, n, list, c, depth)
    ensures depth < MAX_DEPTH && |list| >= 2 && KidsHold(t, n, list, c, depth)
  {
  }

  lemma NodeInserted(t: Tree, n: seq<Point>, list: seq<nat>, j: nat, c: Region, depth: nat)
    requires Fit(t, |n|, depth) && depth <= MAX_DEPTH && j < |n| && Among(list, |n|) && Holds(t, n, list, c, depth) && t.Node?
    ensures Among(list + [j], |n|) && Holds(Insert(t, n, j, depth), n, list + [j], c, depth)
    decreases MAX_DEPTH + 1 - depth, 2
  {
    var u := Counted(t, n[j]);
    WithinNext(n, list, c, 0, j);
    HoldsKids(t, n, list, c, depth);
    PlaceHolds(u, n, list, j, c, depth);
    NodeHolds(Place(u, n, j, depth), n, list + [j], c, depth);
  }

  lemma SplitIs(t: Tree, n: seq<Point>, j: nat, depth: nat)
    requires Fit(t, |n|, depth) && j < |n| && t.Leaf? && 0 <= t.body && depth < MAX_DEPTH
    ensures Insert(t, n, j, depth) == Place(Place(SplitLeaf(Counted(t, n[j]), |n|, depth), n, t.body, depth), n, j, depth)
  {
  }

  lemma SplitInserted(t: Tree, n: seq<Point>, list: seq<nat>, j: nat, c: Region, depth: nat)
    requires Fit(t, |n|, depth) && j < |n| && Among(list, |n|) && Holds(t, n, list, c, depth)
    requires t.Leaf? && 0 <= t.body && depth < MAX_DEPTH
    ensures Among(list + [j], |n|) && Holds(Insert(t, n, j, depth), n, list + [j], c, depth)
    decreases MAX_DEPTH + 1 - depth, 2
  {
    var u := Counted(t, n[j]);
    WithinNext(n, list, c, 0, j);
    SplitHolds(u, n, list, t.body, j, c, depth);
    SplitIs(t, n, j, depth);
    NodeHolds(Insert(t, n, j, depth), n, list + [j], c, depth);
  }

  lemma LeafInserted(t: Tree, n: seq<Point>, list: seq<nat>, j: nat, c: Region, depth: nat)
    requires Fit(t, |n|, depth) && depth <= MAX_DEPTH && j < |n| && Among(list, |n|) && Holds(t, n, list, c, depth)
    requires t.Leaf? && (t.body < 0 || depth == MAX_DEPTH)
    ensures Among(list + [j], |n|) && Holds(Insert(t, n, j, depth), n, list + [j], c, depth)
  {
    WithinNext(n, list, c, 0, j);
  }

  /** Inserting a point keeps every cell holding what falls into it. */
  lemma {:induction false} InsertHolds(t: Tree, n: seq<Point>, list: seq<nat>, j: nat, c: Region, depth: nat)
    requires Fit(t, |n|, depth) && depth <= MAX_DEPTH && j < |n| && Among(list, |n|) && Holds(t, n, list, c, depth)
    ensures Among(list + [j], |n|) && Holds(Insert(t, n, j, depth), n, list + [j], c, depth)
    decreases MAX_DEPTH + 1 - depth, 3
  {
    if t.Node? {
      NodeInserted(t, n, list, j, c, depth);
    } else if 0 <= t.body && depth < MAX_DEPTH {
      SplitInserted(t, n, list, j, c, depth);
    } else {
      LeafInserted(t, n, list, j, c, depth);
    }
  }

  lemma BuildLast(root: Tree, n: seq<Point>, list: seq<nat>, c: Region)
    requires Fit(root, |n|, 0) && Among(list, |n|) && list != []
    requires var before, j := list[..|list| - 1], list[|list| - 1];
             Among(before + [j], |n|) && Holds(Insert(Build(root, n, before), n, j, 0), n, before + [j], c, 0)
    ensures Holds(Build(root, n, list), n, list, c, 0)
  {
    assert list[..|list| - 1] + [list[|list| - 1]] == list;
  }

  lemma {:induction false} GrownHolds(root: Tree, n: seq<Point>, list: seq<nat>, c: Region)
    requires Fit(root, |n|, 0) && Among(list, |n|) && Holds(root, n, [], c, 0)
    ensures Holds(Build(root, n, list), n, list, c, 0)
    decreases |list|
  {
    if list != [] {
      var before, j := list[..|list| - 1], list[|list| - 1];
      GrownHolds(root, n, before, c);
      InsertHolds(Build(root, n, before), n, before, j, c, 0);
      BuildLast(root, n, list, c);
    }
  }

  /** The tree built from an empty root holds the inserted points, cell by cell. */
  lemma BuildHolds(x: real, y: real, w: real, n: seq<Point>, list: seq<nat>)
    requires Among(list, |n|)
    ensures Holds(Build(Empty(x, y, w), n, list), n, list, Region(x, y, w), 0)
  {
    GrownHolds(Empty(x, y, w), n, list, Region(x, y, w));
  }

  // ---------------------------------------------------------------- the cells that push

  /** Points that are not looked at one by one: a single one, those that share a cell at the depth cap, or
      those the kernel takes as a whole. */
  predicate Stop(n: seq<Point>, list: seq<nat>, c: Region, depth: nat, i: nat, s: Kernel)
    requires Among(list, |n|) && i < |n|
  {
    |list| == 1 || depth >= MAX_DEPTH || s.whole(c.w, n[i], TotalsOf(n, list))
  }

  /** The path leads to a cell that pushes: it holds points, it is not opened, and all cells above it are. */
  predicate Taken(n: seq<Point>, list: seq<nat>, c: Region, depth: nat, i: nat, s: Kernel, path: seq<nat>)
    requires Among(list, |n|) && i < |n|
    decreases |path|
  {
    && list != []
    && if path == [] then Stop(n, list, c, depth, i, s)
       else !Stop(n, list, c, depth, i, s)
            && Taken(n, Within(n, list, c, path[0]), Quarter(c, path[0]), depth + 1, i, s, path[1..])
  }

  /** All points below the cells, with repetitions. */
  function Gathered(n: seq<Point>, list: seq<nat>, c: Region, cells: seq<seq<nat>>): multiset<nat>
    requires Among(list, |n|)
  {
    if cells == [] then multiset{}
    else Gathered(n, list, c, cells[..|cells| - 1]) + multiset(Under(n, list, c, cells[|cells| - 1]))
  }

  /** What the points of a cell contribute together: their totals push, but a leaf that remembers the pushed
      point itself gives nothing. */
  function Term(n: seq<Point>, g: seq<nat>, depth: nat, i: nat, s: Kernel): Point
    requires Among(g, |n|) && i < |n|
  {
    if g != [] && (|g| == 1 || depth >= MAX_DEPTH) && g[0] == i then ZERO else s.push(n[i], TotalsOf(n, g))
  }

  function CoverSum(n: seq<Point>, list: seq<nat>, c: Region, depth: nat, i: nat, s: Kernel, cells: seq<seq<nat>>): Point
    requires Among(list, |n|) && i < |n|
  {
    if cells == [] then ZERO
    else
      var path := cells[|cells| - 1];
      Plus(CoverSum(n, list, c, depth, i, s, cells[..|cells| - 1]), Term(n, Under(n, list, c, path), depth + |path|, i, s))
  }

  /** The cells are those that push, and every listed point is below exactly one of them. */
  ghost predicate Covers(
    n: seq<Point>, list: seq<nat>, c: Region, depth: nat, i: nat, s: Kernel, cells: seq<seq<nat>>)
    requires Among(list, |n|) && i < |n|
  {
    && (forall path :: path in cells <==> Taken(n, list, c, depth, i, s, path))
    && Gathered(n, list, c, cells) == multiset(list)
  }

  function Extend(q: nat, cells: seq<seq<nat>>): (r: seq<seq<nat>>)
    ensures |r| == |cells| && forall k :: 0 <= k < |r| ==> r[k] == [q] + cells[k]
  {
    seq(|cells|, k requires 0 <= k < |cells| => [q] + cells[k])
  }

  ghost function Cells(n: seq<Point>, list: seq<nat>, c: Region, depth: nat, i: nat, s: Kernel): seq<seq<nat>>
    requires Among(list, |n|) && i < |n| && depth <= MAX_DEPTH
    decreases MAX_DEPTH - depth
  {
    if list == [] then []
    else if Stop(n, list, c, depth, i, s) then [[]]
    else
      Extend(0, Cells(n, Within(n, list, c, 0), Quarter(c, 0), depth + 1, i, s))
      + Extend(1, Cells(n, Within(n, list, c, 1), Quarter(c, 1), depth + 1, i, s))
      + Extend(2, Cells(n, Within(n, list, c, 2), Quarter(c, 2), depth + 1, i, s))
      + Extend(3, Cells(n, Within(n, list, c, 3), Quarter(c, 3), depth + 1, i, s))
  }

  lemma {:induction false} Extended(
    n: seq<Point>, list: seq<nat>, c: Region, depth: nat, i: nat, s: Kernel, q: nat, cells: seq<seq<nat>>)
    requires Among(list, |n|) && i < |n|
    ensures CoverSum(n, list, c, depth, i, s, Extend(q, cells))
            == CoverSum(n, Within(n, list, c, q), Quarter(c, q), depth + 1, i, s, cells)
    ensures Gathered(n, list, c, Extend(q, cells)) == Gathered(n, Within(n, list, c, q), Quarter(c, q), cells)
    decreases |cells|
  {
    if cells != [] {
      var rest, path := cells[..|cells| - 1], cells[|cells| - 1];
      Extended(n, list, c, depth, i, s, q, rest);
      assert Extend(q, cells)[..|cells| - 1] == Extend(q, rest);
      assert ([q] + path)[1..] == path;
    }
  }

  lemma PlusAssociates(a: Point, b: Point, c: Point)
    ensures Plus(Plus(a, b), c) == Plus(a, Plus(b, c)) && Plus(a, ZERO) == a
  {
  }

  lemma {:induction false} JoinedSum(
    n: seq<Point>, list: seq<nat>, c: Region, depth: nat, i: nat, s: Kernel, a: seq<seq<nat>>, b: seq<seq<nat>>)
    requires Among(list, |n|) && i < |n|
    ensures CoverSum(n, list, c, depth, i, s, a + b)
            == Plus(CoverSum(n, list, c, depth, i, s, a), CoverSum(n, list, c, depth, i, s, b))
    decreases |b|
  {
    var f := CoverSum(n, list, c, depth, i, s, a);
    if b != [] {
      var rest, path := b[..|b| - 1], b[|b| - 1];
      JoinedSum(n, list, c, depth, i, s, a, rest);
      assert (a + b)[..|a + b| - 1] == a + rest && (a + b)[|a + b| - 1] == path;
      PlusAssociates(f, CoverSum(n, list, c, depth, i, s, rest), Term(n, Under(n, list, c, path), depth + |path|, i, s));
    } else {
      assert a + b == a;
      PlusAssociates(f, ZERO, ZERO);
    }
  }

  lemma {:induction false} JoinedPoints(n: seq<Point>, list: seq<nat>, c: Region, a: seq<seq<nat>>, b: seq<seq<nat>>)
    requires Among(list, |n|)
    ensures Gathered(n, list, c, a + b) == Gathered(n, list, c, a) + Gathered(n, list, c, b)
    decreases |b|
  {
    if b != [] {
      JoinedPoints(n, list, c, a, b[..|b| - 1]);
      assert (a + b)[..|a + b| - 1] == a + b[..|b| - 1];
    } else {
      assert a + b == a;
    }
  }

  lemma {:induction false} FourQuarters(n: seq<Point>, list: seq<nat>, c: Region)
    requires Among(list, |n|)
    ensures multiset(Within(n, list, c, 0)) + multiset(Within(n, list, c, 1)) + multiset(Within(n, list, c, 2))
            + multiset(Within(n, list, c, 3)) == multiset(list)
    decreases |list|
  {
    if list != [] {
      var rest, j := list[..|list| - 1], list[|list| - 1];
      FourQuarters(n, rest, c);
      assert list == rest + [j];
    }
  }

  lemma {:induction false} OutOfRange(n: seq<Point>, list: seq<nat>, c: Region, q: nat)
    requires Among(list, |n|) && q >= 4
    ensures Within(n, list, c, q) == []
    decreases |list|
  {
    if list != [] {
      OutOfRange(n, list[..|list| - 1], c, q);
    }
  }

  lemma {:induction false} CellsCover(n: seq<Point>, list: seq<nat>, c: Region, depth: nat, i: nat, s: Kernel)
    requires Among(list, |n|) && i < |n| && depth <= MAX_DEPTH
    ensures Gathered(n, list, c, Cells(n, list, c, depth, i, s)) == multiset(list)
    decreases MAX_DEPTH - depth
  {
    if list != [] && !Stop(n, list, c, depth, i, s) {
      QuarterCover(n, list, c, depth, i, s, 0);
      QuarterCover(n, list, c, depth, i, s, 1);
      QuarterCover(n, list, c, depth, i, s, 2);
      QuarterCover(n, list, c, depth, i, s, 3);
      var k0, k1, k2, k3 := Part(n, list, c, depth, i, s, 0), Part(n, list, c, depth, i, s, 1),
                            Part(n, list, c, depth, i, s, 2), Part(n, list, c, depth, i, s, 3);
      JoinedPoints(n, list, c, k0, k1);
      JoinedPoints(n, list, c, k0 + k1, k2);
      JoinedPoints(n, list, c, k0 + k1 + k2, k3);
      FourQuarters(n, list, c);
    }
  }

  /** The cells that lie in one quadrant. */
  ghost function Part(n: seq<Point>, list: seq<nat>, c: Region, depth: nat, i: nat, s: Kernel, q: nat): seq<seq<nat>>
    requires Among(list, |n|) && i < |n| && depth < MAX_DEPTH
  {
    Extend(q, Cells(n, Within(n, list, c, q), Quarter(c, q), depth + 1, i, s))
  }

  lemma {:induction false} QuarterCover(n: seq<Point>, list: seq<nat>, c: Region, depth: nat, i: nat, s: Kernel, q: nat)
    requires Among(list, |n|) && i < |n| && depth < MAX_DEPTH
    ensures Gathered(n, list, c, Part(n, list, c, depth, i, s, q)) == multiset(Within(n, list, c, q))
    decreases MAX_DEPTH - depth, 0
  {
    CellsCover(n, Within(n, list, c, q), Quarter(c, q), depth + 1, i, s);
    Extended(n, list, c, depth, i, s, q, Cells(n, Within(n, list, c, q), Quarter(c, q), depth + 1, i, s));
  }

  lemma InPart(n: seq<Point>, list: seq<nat>, c: Region, depth: nat, i: nat, s: Kernel, q: nat, path: seq<nat>)
    requires Among(list, |n|) && i < |n| && depth < MAX_DEPTH
    ensures path in Part(n, list, c, depth, i, s, q) <==>
            path != [] && path[0] == q && path[1..] in Cells(n, Within(n, list, c, q), Quarter(c, q), depth + 1, i, s)
  {
    var cells := Cells(n, Within(n, list, c, q), Quarter(c, q), depth + 1, i, s);
    if path in Extend(q, cells) {
      var k :| 0 <= k < |cells| && Extend(q, cells)[k] == path;
      assert path[1..] == cells[k];
    }
    if path != [] && path[0] == q && path[1..] in cells {
      var k :| 0 <= k < |cells| && cells[k] == path[1..];
      assert path == [q] + cells[k] == Extend(q, cells)[k];
    }
  }

  /** The cells of an opened region are those of its quadrants. */
  lemma InSomePart(n: seq<Point>, list: seq<nat>, c: Region, depth: nat, i: nat, s: Kernel, path: seq<nat>)
    requires Among(list, |n|) && i < |n| && depth < MAX_DEPTH && list != [] && !Stop(n, list, c, depth, i, s)
    ensures path in Cells(n, list, c, depth, i, s) <==>
            || path in Part(n, list, c, depth, i, s, 0) || path in Part(n, list, c, depth, i, s, 1)
            || path in Part(n, list, c, depth, i, s, 2) || path in Part(n, list, c, depth, i, s, 3)
  {
    var a, b := Part(n, list, c, depth, i, s, 0), Part(n, list, c, depth, i, s, 1);
    var d, e := Part(n, list, c, depth, i, s, 2), Part(n, list, c, depth, i, s, 3);
    assert Cells(n, list, c, depth, i, s) == a + b + d + e;
  }

  lemma HeadDecides(n: seq<Point>, list: seq<nat>, c: Region, depth: nat, i: nat, s: Kernel, path: seq<nat>)
    requires Among(list, |n|) && i < |n| && depth < MAX_DEPTH && list != [] && !Stop(n, list, c, depth, i, s)
    ensures path in Cells(n, list, c, depth, i, s) <==>
            path != [] && path[0] < 4
            && path[1..] in Cells(n, Within(n, list, c, path[0]), Quarter(c, path[0]), depth + 1, i, s)
  {
    InSomePart(n, list, c, depth, i, s, path);
    InPart(n, list, c, depth, i, s, 0, path);
    InPart(n, list, c, depth, i, s, 1, path);
    InPart(n, list, c, depth, i, s, 2, path);
    InPart(n, list, c, depth, i, s, 3, path);
  }

  lemma TakenHead(n: seq<Point>, list: seq<nat>, c: Region, depth: nat, i: nat, s: Kernel, path: seq<nat>)
    requires Among(list, |n|) && i < |n| && list != [] && !Stop(n, list, c, depth, i, s)
    ensures Taken(n, list, c, depth, i, s, path) <==>
            path != [] && path[0] < 4 && Taken(n, Within(n, list, c, path[0]), Quarter(c, path[0]), depth + 1, i, s, path[1..])
  {
    if path != [] && path[0] >= 4 {
      OutOfRange(n, list, c, path[0]);
    }
  }

  lemma LoneCell(n: seq<Point>, list: seq<nat>, c: Region, depth: nat, i: nat, s: Kernel, path: seq<nat>)
    requires Among(list, |n|) && i < |n| && depth <= MAX_DEPTH && (list == [] || Stop(n, list, c, depth, i, s))
    ensures path in Cells(n, list, c, depth, i, s) <==> Taken(n, list, c, depth, i, s, path)
  {
  }

  lemma HeadTaken(n: seq<Point>, list: seq<nat>, c: Region, depth: nat, i: nat, s: Kernel, path: seq<nat>)
    requires Among(list, |n|) && i < |n| && depth < MAX_DEPTH && list != [] && !Stop(n, list, c, depth, i, s)
    requires path != [] ==>
               (path[1..] in Cells(n, Within(n, list, c, path[0]), Quarter(c, path[0]), depth + 1, i, s) <==>
                Taken(n, Within(n, list, c, path[0]), Quarter(c, path[0]), depth + 1, i, s, path[1..]))
    ensures path in Cells(n, list, c, depth, i, s) <==> Taken(n, list, c, depth, i, s, path)
  {
    HeadDecides(n, list, c, depth, i, s, path);
    TakenHead(n, list, c, depth, i, s, path);
  }

  /** The cells are exactly those that push. */
  lemma {:induction false} CellsTaken(
    n: seq<Point>, list: seq<nat>, c: Region, depth: nat, i: nat, s: Kernel, path: seq<nat>)
    requires Among(list, |n|) && i < |n| && depth <= MAX_DEPTH
    ensures path in Cells(n, list, c, depth, i, s) <==> Taken(n, list, c, depth, i, s, path)
    decreases |path|
  {
    if list == [] || Stop(n, list, c, depth, i, s) {
      LoneCell(n, list, c, depth, i, s, path);
    } else {
      if path != [] {
        CellsTaken(n, Within(n, list, c, path[0]), Quarter(c, path[0]), depth + 1, i, s, path[1..]);
      }
      HeadTaken(n, list, c, depth, i, s, path);
    }
  }

  lemma QuarterForce(t: Tree, n: seq<Point>, list: seq<nat>, c: Region, depth: nat, i: nat, s: Kernel, q: nat)
    requires t.Node? && Among(list, |n|) && i < |n| && depth < MAX_DEPTH && q < 4 && KidHolds(t, n, list, c, depth, q)
    ensures Force(Kid(t, q), n, i, s) == CoverSum(n, list, c, depth, i, s, Part(n, list, c, depth, i, s, q))
    decreases MAX_DEPTH - depth, 0
  {
    ForceCovers(Kid(t, q), n, Within(n, list, c, q), Quarter(c, q), depth + 1, i, s);
    Extended(n, list, c, depth, i, s, q, Cells(n, Within(n, list, c, q), Quarter(c, q), depth + 1, i, s));
  }

  lemma StopForce(t: Tree, n: seq<Point>, list: seq<nat>, c: Region, depth: nat, i: nat, s: Kernel)
    requires Among(list, |n|) && i < |n| && depth <= MAX_DEPTH && Holds(t, n, list, c, depth)
    requires list != [] && Stop(n, list, c, depth, i, s)
    ensures Force(t, n, i, s) == Term(n, list, depth, i, s)
  {
  }

  lemma OpenForce(t: Tree, n: seq<Point>, list: seq<nat>, c: Region, depth: nat, i: nat, s: Kernel)
    requires Among(list, |n|) && i < |n| && depth <= MAX_DEPTH && Holds(t, n, list, c, depth)
    requires list != [] && !Stop(n, list, c, depth, i, s)
    ensures t.Node? && depth < MAX_DEPTH && Force(t, n, i, s) == KidsForce(t, n, i, s)
    ensures KidsHold(t, n, list, c, depth)
  {
  }

  lemma PartsSum(n: seq<Point>, list: seq<nat>, c: Region, depth: nat, i: nat, s: Kernel)
    requires Among(list, |n|) && i < |n| && depth < MAX_DEPTH && list != [] && !Stop(n, list, c, depth, i, s)
    ensures var f := (q: nat) => CoverSum(n, list, c, depth, i, s, Part(n, list, c, depth, i, s, q));
            CoverSum(n, list, c, depth, i, s, Cells(n, list, c, depth, i, s)) == Plus(Plus(f(0), f(1)), Plus(f(2), f(3)))
  {
    var k0, k1, k2, k3 := Part(n, list, c, depth, i, s, 0), Part(n, list, c, depth, i, s, 1),
                          Part(n, list, c, depth, i, s, 2), Part(n, list, c, depth, i, s, 3);
    assert Cells(n, list, c, depth, i, s) == k0 + k1 + k2 + k3;
    JoinedSum(n, list, c, depth, i, s, k0, k1);
    JoinedSum(n, list, c, depth, i, s, k0 + k1, k2);
    JoinedSum(n, list, c, depth, i, s, k0 + k1 + k2, k3);
    PlusAssociates(CoverSum(n, list, c, depth, i, s, k0 + k1), CoverSum(n, list, c, depth, i, s, k2),
                   CoverSum(n, list, c, depth, i, s, k3));
  }

  lemma {:induction false} ForceCovers(t: Tree, n: seq<Point>, list: seq<nat>, c: Region, depth: nat, i: nat, s: Kernel)
    requires Among(list, |n|) && i < |n| && depth <= MAX_DEPTH && Holds(t, n, list, c, depth)
    ensures Force(t, n, i, s) == CoverSum(n, list, c, depth, i, s, Cells(n, list, c, depth, i, s))
    decreases MAX_DEPTH - depth
  {
    if list != [] {
      if Stop(n, list, c, depth, i, s) {
        StopForce(t, n, list, c, depth, i, s);
        OneCell(n, list, c, depth, i, s);
      } else {
        OpenForce(t, n, list, c, depth, i, s);
        QuarterForce(t, n, list, c, depth, i, s, 0);
        QuarterForce(t, n, list, c, depth, i, s, 1);
        QuarterForce(t, n, list, c, depth, i, s, 2);
        QuarterForce(t, n, list, c, depth, i, s, 3);
        PartsSum(n, list, c, depth, i, s);
      }
    }
  }

  lemma OneCell(n: seq<Point>, list: seq<nat>, c: Region, depth: nat, i: nat, s: Kernel)
    requires Among(list, |n|) && i < |n|
    ensures CoverSum(n, list, c, depth, i, s, [[]]) == Term(n, list, depth, i, s)
  {
    var path: seq<nat> := [];
    assert [path][..0] == [] && Under(n, list, c, path) == list;
  }

  /** The force the tree gives is the sum over the cells that push, whatever the kernel and the threshold:
      these cells cover the points, each point is below one of them, each pushes with the number and the
      coordinate sums of the points that fall into it, and the own leaf gives nothing. */
  lemma ForceIsCoverSum(x: real, y: real, w: real, n: seq<Point>, list: seq<nat>, i: nat, s: Kernel)
    requires Among(list, |n|) && i < |n|
    ensures exists cells ::
              Covers(n, list, Region(x, y, w), 0, i, s, cells)
              && Force(Build(Empty(x, y, w), n, list), n, i, s) == CoverSum(n, list, Region(x, y, w), 0, i, s, cells)
  {
    var c := Region(x, y, w);
    var cells := Cells(n, list, c, 0, i, s);
    BuildHolds(x, y, w, n, list);
    ForceCovers(Build(Empty(x, y, w), n, list), n, list, c, 0, i, s);
    CellsCover(n, list, c, 0, i, s);
    forall path ensures path in cells <==> Taken(n, list, c, 0, i, s, path) {
      CellsTaken(n, list, c, 0, i, s, path);
    }
    assert Covers(n, list, c, 0, i, s, cells);
  }

  /** Where all points together are taken as a whole, their totals push at once. */
  lemma AllAsOne(x: real, y: real, w: real, n: seq<Point>, list: seq<nat>, i: nat, s: Kernel)
    requires Among(list, |n|) && i < |n| && |list| >= 2 && s.whole(w, n[i], TotalsOf(n, list))
    ensures Force(Build(Empty(x, y, w), n, list), n, i, s) == s.push(n[i], TotalsOf(n, list))
  {
    BuildHolds(x, y, w, n, list);
  }

  lemma QuotientBelow(a: real, b: real, t: real)
    requires b > 0.0
    ensures a / b < t <==> a < t * b
  {
    var q := a / b;
    assert q * b == a;
    assert q < t ==> q * b < t * b;
    assert q >= t ==> q * b >= t * b;
  }

  /** The graph view takes a cell as a whole when its width, squared, is below the threshold times the
      softened squared distance to the centre of its points. */
  lemma WholeIffFar(repel: real, alpha: real, threshold: real, w: real, p: Point, t: Totals)
    ensures Repulsion(repel, alpha, threshold).whole(w, p, t) <==> Square(w) < threshold * Distance2(p, Centre(t))
  {
    QuotientBelow(Square(w), Distance2(p, Centre(t)), threshold);
  }
}
