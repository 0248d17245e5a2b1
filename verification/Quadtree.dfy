/** The graph view's quadtree: an index over points that is built in place, point by point, and stands in
    for the direct sum of repulsions. Coordinates are reals. */
module Quadtree {
  datatype Point = Point(x: real, y: real)

  const MAX_DEPTH: nat := 22

  /** The value of a cell: a leaf with at most one remembered body, or four quadrants. */
  datatype Tree =
    | Leaf(x: real, y: real, w: real, m: nat, sx: real, sy: real, body: int)
    | Node(x: real, y: real, w: real, m: nat, sx: real, sy: real, k0: Tree, k1: Tree, k2: Tree, k3: Tree)

  function Empty(x: real, y: real, w: real): Tree {
    Leaf(x, y, w, 0, 0.0, 0.0, -1)
  }

  /** Quadrants are made only above the depth cap, and bodies are among the `n` points. */
  predicate Fit(t: Tree, n: nat, depth: nat) {
    match t
    case Leaf(_, _, _, _, _, _, body) => body < n
    case Node(_, _, _, _, _, _, k0, k1, k2, k3) =>
      && depth < MAX_DEPTH
      && Fit(k0, n, depth + 1) && Fit(k1, n, depth + 1) && Fit(k2, n, depth + 1) && Fit(k3, n, depth + 1)
  }

  function Quadrant(t: Tree, p: Point): nat {
    (if p.x >= t.x + t.w / 2.0 then 1 else 0) + (if p.y >= t.y + t.w / 2.0 then 2 else 0)
  }

  function Kid(t: Tree, q: nat): Tree
    requires t.Node? && q < 4
  {
    if q == 0 then t.k0 else if q == 1 then t.k1 else if q == 2 then t.k2 else t.k3
  }

  function WithKid(t: Tree, q: nat, k: Tree): Tree
    requires t.Node? && q < 4
  {
    if q == 0 then t.(k0 := k) else if q == 1 then t.(k1 := k) else if q == 2 then t.(k2 := k) else t.(k3 := k)
  }

  /** Four empty quadrants under the totals of a leaf. */
  function SplitLeaf(t: Tree, n: nat, depth: nat): (r: Tree)
    requires t.Leaf? && depth < MAX_DEPTH
    ensures r.Node? && Fit(r, n, depth)
  {
    var h := t.w / 2.0;
    var k0, k1, k2, k3 := Empty(t.x, t.y, h), Empty(t.x + h, t.y, h), Empty(t.x, t.y + h, h), Empty(t.x + h, t.y + h, h);
    assert Fit(k0, n, depth + 1) && Fit(k1, n, depth + 1) && Fit(k2, n, depth + 1) && Fit(k3, n, depth + 1);
    Node(t.x, t.y, t.w, t.m, t.sx, t.sy, k0, k1, k2, k3)
  }

  function Counted(t: Tree, p: Point): Tree {
    match t
    case Leaf(_, _, _, m, sx, sy, _) => t.(m := m + 1, sx := sx + p.x, sy := sy + p.y)
    case Node(_, _, _, m, sx, sy, _, _, _, _) => t.(m := m + 1, sx := sx + p.x, sy := sy + p.y)
  }

  function Place(t: Tree, n: seq<Point>, i: nat, depth: nat): (r: Tree)
    requires t.Node? && Fit(t, |n|, depth) && i < |n|
    ensures r.Node? && Fit(r, |n|, depth)
    decreases MAX_DEPTH + 1 - depth, 0
  {
    var q := Quadrant(t, n[i]);
    WithKid(t, q, Insert(Kid(t, q), n, i, depth + 1))
  }

  function Insert(t: Tree, n: seq<Point>, i: nat, depth: nat): (r: Tree)
    requires Fit(t, |n|, depth) && depth <= MAX_DEPTH && i < |n|
    ensures Fit(r, |n|, depth)
    decreases MAX_DEPTH + 1 - depth, 1
  {
    var c := Counted(t, n[i]);
    if t.Node? then Place(c, n, i, depth)
    else if t.body < 0 then c.(body := i)
    else if depth >= MAX_DEPTH then c
    else Place(Place(SplitLeaf(c, |n|, depth), n, t.body, depth), n, i, depth)
  }

  // ---------------------------------------------------------------- conservation

  /** Every cell's totals are those of its quadrants; a leaf is empty, or holds its body at least. */
  predicate Balanced(t: Tree, n: seq<Point>, depth: nat) {
    match t
    case Leaf(_, _, _, m, sx, sy, body) =>
      && body < |n|
      && (m == 0 <==> body < 0)
      && (depth < MAX_DEPTH ==> m <= 1)
      && (m == 0 ==> sx == 0.0 && sy == 0.0)
      && (m == 1 && body >= 0 ==> sx == n[body].x && sy == n[body].y)
    case Node(_, _, _, m, sx, sy, k0, k1, k2, k3) =>
      && m == k0.m + k1.m + k2.m + k3.m
      && sx == k0.sx + k1.sx + k2.sx + k3.sx
      && sy == k0.sy + k1.sy + k2.sy + k3.sy
      && Balanced(k0, n, depth + 1) && Balanced(k1, n, depth + 1) && Balanced(k2, n, depth + 1) && Balanced(k3, n, depth + 1)
  }

  /** A node whose totals do not yet include what is placed below it. */
  predicate Ahead(t: Tree, n: seq<Point>, depth: nat, m: nat, sx: real, sy: real) {
    && t.Node?
    && t.m == m + t.k0.m + t.k1.m + t.k2.m + t.k3.m
    && t.sx == sx + t.k0.sx + t.k1.sx + t.k2.sx + t.k3.sx
    && t.sy == sy + t.k0.sy + t.k1.sy + t.k2.sy + t.k3.sy
    && Balanced(t.k0, n, depth + 1) && Balanced(t.k1, n, depth + 1) && Balanced(t.k2, n, depth + 1) && Balanced(t.k3, n, depth + 1)
  }

  lemma KidSettles(t: Tree, q: nat, k: Tree, n: seq<Point>, p: Point, depth: nat, m: nat, sx: real, sy: real)
    requires q < 4 && Ahead(t, n, depth, m + 1, sx + p.x, sy + p.y) && Balanced(k, n, depth + 1)
    requires k.m == Kid(t, q).m + 1 && k.sx == Kid(t, q).sx + p.x && k.sy == Kid(t, q).sy + p.y
    ensures var r := WithKid(t, q, k); Ahead(r, n, depth, m, sx, sy) && r.m == t.m && r.sx == t.sx && r.sy == t.sy
  {
  }

  lemma {:induction false} PlaceSettles(t: Tree, n: seq<Point>, i: nat, depth: nat, m: nat, sx: real, sy: real)
    requires t.Node? && Fit(t, |n|, depth) && i < |n| && Ahead(t, n, depth, m + 1, sx + n[i].x, sy + n[i].y)
    ensures var r := Place(t, n, i, depth);
            Ahead(r, n, depth, m, sx, sy) && r.m == t.m && r.sx == t.sx && r.sy == t.sy
    decreases MAX_DEPTH + 1 - depth, 0
  {
    var q := Quadrant(t, n[i]);
    BalancedKid(t, n, depth, m + 1, sx + n[i].x, sy + n[i].y, q);
    InsertCounts(Kid(t, q), n, i, depth + 1);
    KidSettles(t, q, Insert(Kid(t, q), n, i, depth + 1), n, n[i], depth, m, sx, sy);
  }

  /** Inserting a point adds one to the mass and its coordinates to the sums, at every cell on its way. */
  lemma {:induction false} InsertCounts(t: Tree, n: seq<Point>, i: nat, depth: nat)
    requires Fit(t, |n|, depth) && depth <= MAX_DEPTH && i < |n| && Balanced(t, n, depth)
    ensures var r := Insert(t, n, i, depth);
            Balanced(r, n, depth) && r.m == t.m + 1 && r.sx == t.sx + n[i].x && r.sy == t.sy + n[i].y
    decreases MAX_DEPTH + 1 - depth, 2
  {
    var c := Counted(t, n[i]);
    if t.Node? {
      PlaceSettles(c, n, i, depth, 0, 0.0, 0.0);
    } else if t.body >= 0 && depth < MAX_DEPTH {
      SplitCounts(t, c, n, i, depth);
    }
  }

  lemma {:induction false} SplitCounts(t: Tree, c: Tree, n: seq<Point>, i: nat, depth: nat)
    requires t.Leaf? && 0 <= t.body && Balanced(t, n, depth) && depth < MAX_DEPTH && i < |n| && c == Counted(t, n[i])
    ensures Ahead(Place(Place(SplitLeaf(c, |n|, depth), n, t.body, depth), n, i, depth), n, depth, 0, 0.0, 0.0)
    ensures var r := Place(Place(SplitLeaf(c, |n|, depth), n, t.body, depth), n, i, depth);
            r.m == c.m && r.sx == c.sx && r.sy == c.sy
    decreases MAX_DEPTH + 1 - depth, 1
  {
    var s := SplitLeaf(c, |n|, depth);
    PlaceSettles(s, n, t.body, depth, 1, n[i].x, n[i].y);
    PlaceSettles(Place(s, n, t.body, depth), n, i, depth, 0, 0.0, 0.0);
  }

  // ---------------------------------------------------------------- forces

  /** A cell's totals: its mass and the sums of its coordinates. */
  datatype Totals = Totals(m: nat, sx: real, sy: real)

  /** How a mass with some totals pushes a point, and when a cell of some width is taken as a whole. */
  datatype Kernel = Kernel(push: (Point, Totals) -> Point, whole: (real, Point, Totals) -> bool)

  const ZERO := Point(0.0, 0.0)

  function Plus(p: Point, q: Point): Point {
    Point(p.x + q.x, p.y + q.y)
  }

  function Square(x: real): (r: real)
    ensures r >= 0.0
  {
    x * x
  }

  /** The softened squared distance; never below the softening. */
  function Distance2(p: Point, c: Point): (r: real)
    ensures r >= 9.0
  {
    Square(p.x - c.x) + Square(p.y - c.y) + 9.0
  }

  function Centre(t: Totals): Point {
    if t.m == 0 then ZERO else Point(t.sx / t.m as real, t.sy / t.m as real)
  }

  /** The kernel of the graph view: a softened repulsion from the centre of mass. */
  function Repulsion(repel: real, alpha: real, threshold: real): Kernel {
    Kernel((p: Point, t: Totals) =>
             var f := repel * t.m as real / Distance2(p, Centre(t)) * alpha;
             Point((p.x - Centre(t).x) * f, (p.y - Centre(t).y) * f),
           (w: real, p: Point, t: Totals) => Square(w) / Distance2(p, Centre(t)) < threshold)
  }

  /** No inner cell is ever taken as a whole. */
  ghost predicate NeverWhole(s: Kernel) {
    forall w, p, t :: !s.whole(w, p, t)
  }

  lemma QuotientNotNegative(a: real, b: real)
    requires a >= 0.0 && b > 0.0
    ensures a / b >= 0.0
  {
  }

  lemma ZeroThreshold(repel: real, alpha: real)
    ensures NeverWhole(Repulsion(repel, alpha, 0.0))
  {
    forall w: real, p: Point, t: Totals
      ensures !Repulsion(repel, alpha, 0.0).whole(w, p, t)
    {
      QuotientNotNegative(Square(w), Distance2(p, Centre(t)));
    }
  }

  function Sums(t: Tree): Totals {
    Totals(t.m, t.sx, t.sy)
  }

  /** What the tree contributes to the velocity of point `i`. */
  function Force(t: Tree, n: seq<Point>, i: nat, s: Kernel): Point
    requires i < |n|
  {
    if t.m == 0 then ZERO
    else if t.Leaf? then if t.body == i then ZERO else s.push(n[i], Sums(t))
    else if s.whole(t.w, n[i], Sums(t)) then s.push(n[i], Sums(t))
    else Plus(Plus(Force(t.k0, n, i, s), Force(t.k1, n, i, s)), Plus(Force(t.k2, n, i, s), Force(t.k3, n, i, s)))
  }

  /** The same from one other point alone. */
  function Pair(n: seq<Point>, i: nat, j: nat, s: Kernel): Point
    requires i < |n| && j < |n|
  {
    if i == j then ZERO else s.push(n[i], Totals(1, n[j].x, n[j].y))
  }

  predicate Among(list: seq<nat>, n: nat) {
    forall k :: 0 <= k < |list| ==> list[k] < n
  }

  function DirectSum(n: seq<Point>, list: seq<nat>, i: nat, s: Kernel): Point
    requires i < |n| && Among(list, |n|)
  {
    if list == [] then ZERO
    else Plus(DirectSum(n, list[..|list| - 1], i, s), Pair(n, i, list[|list| - 1], s))
  }

  function Build(root: Tree, n: seq<Point>, list: seq<nat>): (t: Tree)
    requires Fit(root, |n|, 0) && Among(list, |n|)
    ensures Fit(t, |n|, 0)
  {
    if list == [] then root else Insert(Build(root, n, list[..|list| - 1]), n, list[|list| - 1], 0)
  }

  /** No leaf holds more than one point. */
  predicate Singles(t: Tree) {
    match t
    case Leaf(_, _, _, m, _, _, _) => m <= 1
    case Node(_, _, _, _, _, _, k0, k1, k2, k3) => Singles(k0) && Singles(k1) && Singles(k2) && Singles(k3)
  }

  function KidsForce(t: Tree, n: seq<Point>, i: nat, s: Kernel): Point
    requires t.Node? && i < |n|
  {
    Plus(Plus(Force(t.k0, n, i, s), Force(t.k1, n, i, s)), Plus(Force(t.k2, n, i, s), Force(t.k3, n, i, s)))
  }

  lemma Descends(t: Tree, n: seq<Point>, i: nat, s: Kernel, depth: nat)
    requires t.Node? && i < |n| && NeverWhole(s) && Balanced(t, n, depth)
    ensures Force(t, n, i, s) == KidsForce(t, n, i, s)
  {
    if t.m == 0 {
      assert t.k0.m == 0 && t.k1.m == 0 && t.k2.m == 0 && t.k3.m == 0;
    }
  }

  lemma LoneLeaf(t: Tree, n: seq<Point>, i: nat, s: Kernel, depth: nat)
    requires t.Leaf? && t.m == 1 && Balanced(t, n, depth) && i < |n| && 0 <= t.body
    ensures Force(t, n, i, s) == Pair(n, i, t.body, s)
  {
    assert Sums(t) == Totals(1, n[t.body].x, n[t.body].y);
  }

  /** Placing touches the quadrant of the point and no other. */
  lemma PlaceKids(t: Tree, n: seq<Point>, j: nat, depth: nat, q: nat)
    requires t.Node? && Fit(t, |n|, depth) && j < |n| && q < 4
    ensures Kid(Place(t, n, j, depth), q)
            == if q == Quadrant(t, n[j]) then Insert(Kid(t, q), n, j, depth + 1) else Kid(t, q)
    ensures Quadrant(Place(t, n, j, depth), n[j]) == Quadrant(t, n[j])
  {
  }

  lemma OneOfFour(a: Point, b: Point, c: Point, d: Point, delta: Point)
    ensures Plus(Plus(Plus(a, delta), b), Plus(c, d)) == Plus(Plus(Plus(a, b), Plus(c, d)), delta)
    ensures Plus(Plus(a, Plus(b, delta)), Plus(c, d)) == Plus(Plus(Plus(a, b), Plus(c, d)), delta)
    ensures Plus(Plus(a, b), Plus(Plus(c, delta), d)) == Plus(Plus(Plus(a, b), Plus(c, d)), delta)
    ensures Plus(Plus(a, b), Plus(c, Plus(d, delta))) == Plus(Plus(Plus(a, b), Plus(c, d)), delta)
  {
  }

  lemma KidsForceAfter(t: Tree, n: seq<Point>, i: nat, s: Kernel, q: nat, k: Tree)
    requires t.Node? && q < 4 && i < |n|
    ensures KidsForce(WithKid(t, q, k), n, i, s)
            == Plus(Plus(Force(if q == 0 then k else t.k0, n, i, s), Force(if q == 1 then k else t.k1, n, i, s)),
                    Plus(Force(if q == 2 then k else t.k2, n, i, s), Force(if q == 3 then k else t.k3, n, i, s)))
  {
  }

  /** When one quadrant's contribution grows, so does the sum of the four. */
  lemma KidGrows(t: Tree, n: seq<Point>, i: nat, s: Kernel, q: nat, k: Tree, delta: Point)
    requires t.Node? && q < 4 && i < |n| && Force(k, n, i, s) == Plus(Force(Kid(t, q), n, i, s), delta)
    ensures KidsForce(WithKid(t, q, k), n, i, s) == Plus(KidsForce(t, n, i, s), delta)
  {
    var a, b, c, d := Force(t.k0, n, i, s), Force(t.k1, n, i, s), Force(t.k2, n, i, s), Force(t.k3, n, i, s);
    OneOfFour(a, b, c, d, delta);
    KidsForceAfter(t, n, i, s, q, k);
  }

  lemma {:induction false} PlaceForce(t: Tree, n: seq<Point>, i: nat, j: nat, depth: nat, s: Kernel)
    requires t.Node? && Fit(t, |n|, depth) && i < |n| && j < |n| && NeverWhole(s)
    requires Balanced(Kid(t, Quadrant(t, n[j])), n, depth + 1)
    requires Singles(Insert(Kid(t, Quadrant(t, n[j])), n, j, depth + 1))
    ensures KidsForce(Place(t, n, j, depth), n, i, s) == Plus(KidsForce(t, n, i, s), Pair(n, i, j, s))
    decreases MAX_DEPTH + 1 - depth, 0
  {
    var q := Quadrant(t, n[j]);
    var k := Insert(Kid(t, q), n, j, depth + 1);
    InsertForce(Kid(t, q), n, i, j, depth + 1, s);
    KidGrows(t, n, i, s, q, k, Pair(n, i, j, s));
    assert Place(t, n, j, depth) == WithKid(t, q, k);
  }

  /** While leaves stay single, inserting a point adds exactly its own push. */
  lemma {:induction false} InsertForce(t: Tree, n: seq<Point>, i: nat, j: nat, depth: nat, s: Kernel)
    requires Fit(t, |n|, depth) && depth <= MAX_DEPTH && i < |n| && j < |n| && NeverWhole(s)
    requires Balanced(t, n, depth) && Singles(Insert(t, n, j, depth))
    ensures Force(Insert(t, n, j, depth), n, i, s) == Plus(Force(t, n, i, s), Pair(n, i, j, s))
    decreases MAX_DEPTH + 1 - depth, 2
  {
    var c, r := Counted(t, n[j]), Insert(t, n, j, depth);
    InsertCounts(t, n, j, depth);
    if t.Node? {
      PlaceForce(c, n, i, j, depth, s);
      Descends(r, n, i, s, depth);
      Descends(t, n, i, s, depth);
    } else if t.body < 0 {
      LoneLeaf(r, n, i, s, depth);
    } else if depth < MAX_DEPTH {
      LoneLeaf(t, n, i, s, depth);
      SplitForce(t, c, n, i, j, depth, s);
      Descends(r, n, i, s, depth);
    }
  }

  lemma EmptySplit(t: Tree, n: seq<Point>, i: nat, s: Kernel, depth: nat)
    requires t.Leaf? && depth < MAX_DEPTH && i < |n|
    ensures KidsForce(SplitLeaf(t, |n|, depth), n, i, s) == ZERO
  {
  }

  lemma SingleKid(t: Tree, q: nat)
    requires t.Node? && q < 4 && Singles(t)
    ensures Singles(Kid(t, q))
  {
  }

  lemma BalancedKid(t: Tree, n: seq<Point>, depth: nat, m: nat, sx: real, sy: real, q: nat)
    requires Ahead(t, n, depth, m, sx, sy) && q < 4
    ensures Balanced(Kid(t, q), n, depth + 1)
  {
  }

  lemma {:induction false} SplitForce(t: Tree, c: Tree, n: seq<Point>, i: nat, j: nat, depth: nat, s: Kernel)
    requires t.Leaf? && 0 <= t.body && Balanced(t, n, depth) && depth < MAX_DEPTH && i < |n| && j < |n|
    requires c == Counted(t, n[j]) && NeverWhole(s)
    requires Singles(Place(Place(SplitLeaf(c, |n|, depth), n, t.body, depth), n, j, depth))
    ensures KidsForce(Place(Place(SplitLeaf(c, |n|, depth), n, t.body, depth), n, j, depth), n, i, s)
            == Plus(Pair(n, i, t.body, s), Pair(n, i, j, s))
    decreases MAX_DEPTH + 1 - depth, 1
  {
    var e := SplitLeaf(c, |n|, depth);
    var p := Place(e, n, t.body, depth);
    var q := Quadrant(p, n[j]);
    EmptySplit(c, n, i, s, depth);
    PlaceForce(e, n, i, t.body, depth, s);
    PlaceSettles(e, n, t.body, depth, 1, n[j].x, n[j].y);
    BalancedKid(p, n, depth, 1, n[j].x, n[j].y, q);
    PlaceKids(p, n, j, depth, q);
    SingleKid(Place(p, n, j, depth), q);
    PlaceForce(p, n, i, j, depth, s);
  }

  lemma {:induction false} SinglesBefore(t: Tree, n: seq<Point>, j: nat, depth: nat)
    requires Fit(t, |n|, depth) && depth <= MAX_DEPTH && j < |n| && Balanced(t, n, depth)
    requires Singles(Insert(t, n, j, depth))
    ensures Singles(t)
    decreases MAX_DEPTH + 1 - depth
  {
    if t.Node? {
      var c := Counted(t, n[j]);
      var q := Quadrant(c, n[j]);
      PlaceKids(c, n, j, depth, 0);
      PlaceKids(c, n, j, depth, 1);
      PlaceKids(c, n, j, depth, 2);
      PlaceKids(c, n, j, depth, 3);
      SinglesBefore(Kid(t, q), n, j, depth + 1);
    }
  }

  /** A tree built from an empty root conserves mass and coordinate sums at every cell, whatever the
      points; the depth cap ends every insertion, also of coincident points. */
  lemma {:induction false} BuildConserves(root: Tree, n: seq<Point>, list: seq<nat>)
    requires Fit(root, |n|, 0) && Balanced(root, n, 0) && Among(list, |n|)
    ensures var t := Build(root, n, list);
            && Balanced(t, n, 0) && t.m == root.m + |list|
            && t.sx == root.sx + SumX(n, list) && t.sy == root.sy + SumY(n, list)
  {
    if list != [] {
      BuildConserves(root, n, list[..|list| - 1]);
      InsertCounts(Build(root, n, list[..|list| - 1]), n, list[|list| - 1], 0);
    }
  }

  function SumX(n: seq<Point>, list: seq<nat>): real
    requires Among(list, |n|)
  {
    if list == [] then 0.0 else SumX(n, list[..|list| - 1]) + n[list[|list| - 1]].x
  }

  function SumY(n: seq<Point>, list: seq<nat>): real
    requires Among(list, |n|)
  {
    if list == [] then 0.0 else SumY(n, list[..|list| - 1]) + n[list[|list| - 1]].y
  }

  /** With threshold zero, a tree without crowded leaves gives every point exactly the sum of the pushes
      of all others, whatever the kernel. */
  lemma {:induction false} TreeIsDirectSum(x: real, y: real, w: real, n: seq<Point>, list: seq<nat>, i: nat, s: Kernel)
    requires Among(list, |n|) && i < |n| && NeverWhole(s)
    requires Singles(Build(Empty(x, y, w), n, list))
    ensures Force(Build(Empty(x, y, w), n, list), n, i, s) == DirectSum(n, list, i, s)
    decreases |list|
  {
    var root := Empty(x, y, w);
    if list != [] {
      var before, j := list[..|list| - 1], list[|list| - 1];
      BuildConserves(root, n, before);
      SinglesBefore(Build(root, n, before), n, j, 0);
      TreeIsDirectSum(x, y, w, n, before, i, s);
      InsertForce(Build(root, n, before), n, i, j, 0, s);
    }
  }
}
