/** The quadtree as it is built and used: cells on the heap, changed in place. */
module QuadtreeCells {
  import opened Quadtree
  import opened QuadtreeCover

  lemma PlaceNode(t: Tree, n: seq<Point>, i: nat, depth: nat, q: nat)
    requires t.Node? && Fit(t, |n|, depth) && i < |n| && q == Quadrant(t, n[i])
    ensures var k := Insert(Kid(t, q), n, i, depth + 1);
            Place(t, n, i, depth) == Node(t.x, t.y, t.w, t.m, t.sx, t.sy, if q == 0 then k else t.k0,
                                          if q == 1 then k else t.k1, if q == 2 then k else t.k2, if q == 3 then k else t.k3)
  {
  }

  /** Velocity `i` changed by `f`, all others are as they were. */
  ghost predicate Pushed(x0: seq<real>, y0: seq<real>, x1: seq<real>, y1: seq<real>, i: nat, f: Point)
    requires i < |x0| && i < |y0|
  {
    x1 == x0[i := x0[i] + f.x] && y1 == y0[i := y0[i] + f.y]
  }

  lemma PushedTwice(
    x0: seq<real>, y0: seq<real>, x1: seq<real>, y1: seq<real>, x2: seq<real>, y2: seq<real>, i: nat, f: Point, g: Point)
    requires i < |x0| && i < |y0| && i < |x1| && i < |y1|
    requires Pushed(x0, y0, x1, y1, i, f) && Pushed(x1, y1, x2, y2, i, g)
    ensures Pushed(x0, y0, x2, y2, i, Plus(f, g))
  {
  }

  /** The sum of the first `q` of four contributions. */
  function Partial(a: Point, b: Point, c: Point, d: Point, q: nat): Point {
    if q == 0 then ZERO else if q == 1 then a else if q == 2 then Plus(a, b)
    else if q == 3 then Plus(Plus(a, b), c) else Plus(Plus(a, b), Plus(c, d))
  }

  lemma PartialGrows(a: Point, b: Point, c: Point, d: Point, q: nat)
    requires q < 4
    ensures Partial(a, b, c, d, q + 1)
            == Plus(Partial(a, b, c, d, q), if q == 0 then a else if q == 1 then b else if q == 2 then c else d)
  {
  }

  lemma PushedAs(x0: seq<real>, y0: seq<real>, x1: seq<real>, y1: seq<real>, i: nat, f: Point, g: Point)
    requires i < |x0| && i < |y0| && Pushed(x0, y0, x1, y1, i, f) && f == g
    ensures Pushed(x0, y0, x1, y1, i, g)
  {
  }

  class Cell {
    const x: real
    const y: real
    const w: real
    var m: nat
    var sx: real
    var sy: real
    var body: int
    var kids: seq<Cell>      // empty, or the four quadrants
    ghost var Repr: set<object>

    ghost predicate Valid()
      reads this, Repr
      decreases Repr
    {
      && this in Repr
      && (kids == [] || |kids| == 4)
      && (forall q :: 0 <= q < |kids| ==> kids[q] in Repr && kids[q].Repr <= Repr && this !in kids[q].Repr && kids[q].Valid())
      && (forall q, r :: 0 <= q < r < |kids| ==> kids[q].Repr !! kids[r].Repr)
    }

    /** The tree this cell stands for. */
    ghost function Value(): Tree
      requires Valid()
      reads this, Repr
      decreases Repr
    {
      if kids == [] then Leaf(x, y, w, m, sx, sy, body)
      else Node(x, y, w, m, sx, sy, kids[0].Value(), kids[1].Value(), kids[2].Value(), kids[3].Value())
    }

    constructor (x: real, y: real, w: real)
      ensures Valid() && Repr == {this} && Value() == Empty(x, y, w)
    {
      this.x, this.y, this.w := x, y, w;
      m, sx, sy, body, kids := 0, 0.0, 0.0, -1, [];
      Repr := {this};
    }

    method Count(p: Point)
      requires Valid()
      modifies this
      ensures Valid() && Repr == old(Repr) && kids == old(kids) && body == old(body)
      ensures Value() == Counted(old(Value()), p)
    {
      m, sx, sy := m + 1, sx + p.x, sy + p.y;
    }

    method NewKids(h: real) returns (k: seq<Cell>)
      ensures |k| == 4 && fresh({k[0], k[1], k[2], k[3]})
      ensures forall q :: 0 <= q < 4 ==> k[q].Valid() && k[q].Repr == {k[q]}
      ensures forall q, r :: 0 <= q < r < 4 ==> k[q] != k[r]
      ensures k[0].Value() == Empty(x, y, h) && k[1].Value() == Empty(x + h, y, h)
      ensures k[2].Value() == Empty(x, y + h, h) && k[3].Value() == Empty(x + h, y + h, h)
    {
      var a := new Cell(x, y, h);
      var b := new Cell(x + h, y, h);
      var c := new Cell(x, y + h, h);
      var d := new Cell(x + h, y + h, h);
      k := [a, b, c, d];
    }

    method Split(n: nat, depth: nat)
      requires Valid() && kids == [] && depth < MAX_DEPTH
      modifies this
      ensures Valid() && fresh(Repr - old(Repr)) && kids != []
      ensures Value() == SplitLeaf(old(Value()), n, depth)
    {
      body := -1;
      var h := w / 2.0;
      var k := NewKids(h);
      Adopt(k);
      Assemble(Empty(x, y, h), Empty(x + h, y, h), Empty(x, y + h, h), Empty(x + h, y + h, h));
    }

    /** Four separate lone cells become the quadrants. */
    method Adopt(k: seq<Cell>)
      requires this in Repr && |k| == 4
      requires forall q :: 0 <= q < 4 ==> k[q] !in Repr && k[q].Valid() && k[q].Repr == {k[q]}
      requires forall q, r :: 0 <= q < r < 4 ==> k[q] != k[r]
      modifies `kids, `Repr
      ensures kids == k && Repr == old(Repr) + {k[0], k[1], k[2], k[3]} && Quartered()
      ensures forall q :: 0 <= q < 4 ==> k[q].Value() == old(k[q].Value())
    {
      kids := k;
      Repr := Repr + {k[0], k[1], k[2], k[3]};
    }

    /** Four valid quadrants with separate footprints. */
    ghost predicate Quartered()
      reads this, Repr
    {
      && this in Repr && |kids| == 4
      && (forall q :: 0 <= q < 4 ==> kids[q] in Repr && kids[q].Repr <= Repr && this !in kids[q].Repr && kids[q].Valid())
      && (forall q, r :: 0 <= q < r < 4 ==> kids[q].Repr !! kids[r].Repr)
    }

    lemma Assemble(t0: Tree, t1: Tree, t2: Tree, t3: Tree)
      requires Quartered()
      requires kids[0].Value() == t0 && kids[1].Value() == t1 && kids[2].Value() == t2 && kids[3].Value() == t3
      ensures Valid() && Value() == Node(x, y, w, m, sx, sy, t0, t1, t2, t3)
    {
    }

    /** One quadrant takes a point; the other three do not notice. */
    method KidInsert(q: nat, n: seq<Point>, i: nat, depth: nat)
      requires Valid() && q < |kids| && Fit(kids[q].Value(), |n|, depth + 1) && depth < MAX_DEPTH && i < |n|
      modifies kids[q].Repr
      ensures |kids| == 4 && fresh(kids[q].Repr - old(kids[q].Repr))
      ensures forall r :: 0 <= r < 4 ==> kids[r].Valid()
      ensures kids[q].Value() == Insert(old(kids[q].Value()), n, i, depth + 1)
      ensures forall r :: 0 <= r < 4 && r != q ==> kids[r].Value() == old(kids[r].Value()) && kids[r].Repr == old(kids[r].Repr)
      decreases MAX_DEPTH + 1 - depth, 0, 0
    {
      kids[q].QInsert(n, i, depth + 1);
    }

    method KidGrow(q: nat, n: seq<Point>, i: nat, depth: nat)
      requires Valid() && q < |kids| && Fit(kids[q].Value(), |n|, depth + 1) && depth < MAX_DEPTH && i < |n|
      modifies kids[q].Repr, `Repr
      ensures Quartered() && fresh(Repr - old(Repr)) && kids == old(kids)
      ensures kids[q].Value() == Insert(old(kids[q].Value()), n, i, depth + 1)
      ensures forall r :: 0 <= r < 4 && r != q ==> kids[r].Value() == old(kids[r].Value())
      decreases MAX_DEPTH + 1 - depth, 0, 1
    {
      KidInsert(q, n, i, depth);
      Repr := Repr + kids[q].Repr;
    }

    /** Inserts below the quadrant the point falls into. */
    method QPlace(n: seq<Point>, i: nat, depth: nat)
      requires Valid() && kids != [] && Fit(Value(), |n|, depth) && i < |n|
      modifies Repr
      ensures Valid() && fresh(Repr - old(Repr)) && kids != []
      ensures Value() == Place(old(Value()), n, i, depth)
      decreases MAX_DEPTH + 1 - depth, 0, 2
    {
      ghost var t := Value();
      var q := (if n[i].x >= x + w / 2.0 then 1 else 0) + (if n[i].y >= y + w / 2.0 then 2 else 0);
      PlaceNode(t, n, i, depth, q);
      KidGrow(q, n, i, depth);
      ghost var k := Insert(Kid(t, q), n, i, depth + 1);
      Assemble(if q == 0 then k else t.k0, if q == 1 then k else t.k1, if q == 2 then k else t.k2, if q == 3 then k else t.k3);
    }

    /** A full leaf becomes four quadrants, and its body and the new point go down. */
    method SplitPlace(n: seq<Point>, i: nat, depth: nat)
      requires Valid() && kids == [] && Fit(Value(), |n|, depth) && 0 <= body && depth < MAX_DEPTH && i < |n|
      modifies Repr
      ensures Valid() && fresh(Repr - old(Repr))
      ensures Value() == Place(Place(SplitLeaf(old(Value()), |n|, depth), n, old(body), depth), n, i, depth)
      decreases MAX_DEPTH + 1 - depth, 0, 3
    {
      var b := body;
      Split(|n|, depth);
      QPlace(n, b, depth);
      QPlace(n, i, depth);
    }

    method QInsert(n: seq<Point>, i: nat, depth: nat)
      requires Valid() && Fit(Value(), |n|, depth) && depth <= MAX_DEPTH && i < |n|
      modifies Repr
      ensures Valid() && fresh(Repr - old(Repr))
      ensures Value() == Insert(old(Value()), n, i, depth)
      decreases MAX_DEPTH + 1 - depth, 1
    {
      Count(n[i]);
      if kids != [] {
        QPlace(n, i, depth);
      } else if body < 0 {
        body := i;
      } else if depth < MAX_DEPTH {
        SplitPlace(n, i, depth);
      }
    }

    method QForceKid(q: nat, n: seq<Point>, i: nat, s: Kernel, vx: array<real>, vy: array<real>)
      requires Valid() && q < |kids| && i < |n| && |n| <= vx.Length && |n| <= vy.Length
      requires vx != vy && vx !in Repr && vy !in Repr
      modifies vx, vy
      ensures Valid() && Value() == old(Value())
      ensures Pushed(old(vx[..]), old(vy[..]), vx[..], vy[..], i, Force(Kid(Value(), q), n, i, s))
      decreases Repr, 0
    {
      kids[q].QForce(n, i, s, vx, vy);
    }

    /** The four quadrants, one after the other. */
    method QForceKids(n: seq<Point>, i: nat, s: Kernel, vx: array<real>, vy: array<real>)
      requires Valid() && kids != [] && i < |n| && |n| <= vx.Length && |n| <= vy.Length
      requires vx != vy && vx !in Repr && vy !in Repr
      modifies vx, vy
      ensures Valid() && Value() == old(Value())
      ensures Pushed(old(vx[..]), old(vy[..]), vx[..], vy[..], i, KidsForce(Value(), n, i, s))
      decreases Repr, 1
    {
      ghost var t := Value();
      ghost var a, b, c, d := Force(t.k0, n, i, s), Force(t.k1, n, i, s), Force(t.k2, n, i, s), Force(t.k3, n, i, s);
      for q := 0 to 4
        invariant Valid() && Value() == t
        invariant Pushed(old(vx[..]), old(vy[..]), vx[..], vy[..], i, Partial(a, b, c, d, q))
      {
        ghost var x1, y1 := vx[..], vy[..];
        QForceKid(q, n, i, s, vx, vy);
        PartialGrows(a, b, c, d, q);
        PushedTwice(old(vx[..]), old(vy[..]), x1, y1, vx[..], vy[..], i, Partial(a, b, c, d, q), Force(Kid(t, q), n, i, s));
        PushedAs(old(vx[..]), old(vy[..]), vx[..], vy[..], i, Plus(Partial(a, b, c, d, q), Force(Kid(t, q), n, i, s)),
                 Partial(a, b, c, d, q + 1));
      }
    }

    /** Adds what this cell contributes to the velocity of point `i`, and touches no other velocity. */
    method QForce(n: seq<Point>, i: nat, s: Kernel, vx: array<real>, vy: array<real>)
      requires Valid() && i < |n| && |n| <= vx.Length && |n| <= vy.Length && vx != vy && vx !in Repr && vy !in Repr
      modifies vx, vy
      ensures Pushed(old(vx[..]), old(vy[..]), vx[..], vy[..], i, Force(Value(), n, i, s))
      decreases Repr, 2
    {
      if m == 0 {
        return;
      }
      var sums := Totals(m, sx, sy);
      if kids == [] || s.whole(w, n[i], sums) {
        if kids == [] && body == i {
          return;
        }
        var f := s.push(n[i], sums);
        vx[i], vy[i] := vx[i] + f.x, vy[i] + f.y;
      } else {
        QForceKids(n, i, s, vx, vy);
      }
    }
  }

  /** The index over the listed points, built insertion by insertion. */
  method BuildTree(x: real, y: real, w: real, n: seq<Point>, list: seq<nat>) returns (root: Cell)
    requires Among(list, |n|)
    ensures root.Valid() && fresh(root.Repr) && root.Value() == Build(Empty(x, y, w), n, list)
  {
    root := new Cell(x, y, w);
    for k := 0 to |list|
      invariant root.Valid() && fresh(root.Repr) && root.Value() == Build(Empty(x, y, w), n, list[..k])
    {
      assert list[..k + 1][..k] == list[..k];
      root.QInsert(n, list[k], 0);
    }
    assert list[..|list|] == list;
  }

  /** Point `i` is accelerated by the cells that push it, whatever the kernel and its threshold. Where the
      kernel takes all points together, that is one push by their totals. */
  method Repel(
    x: real, y: real, w: real, n: seq<Point>, list: seq<nat>, i: nat, s: Kernel, vx: array<real>, vy: array<real>)
    requires Among(list, |n|) && i < |n| && |n| <= vx.Length && |n| <= vy.Length && vx != vy
    modifies vx, vy
    ensures exists cells ::
              Covers(n, list, Region(x, y, w), 0, i, s, cells)
              && Pushed(old(vx[..]), old(vy[..]), vx[..], vy[..], i, CoverSum(n, list, Region(x, y, w), 0, i, s, cells))
    ensures |list| >= 2 && s.whole(w, n[i], TotalsOf(n, list)) ==>
              Pushed(old(vx[..]), old(vy[..]), vx[..], vy[..], i, s.push(n[i], TotalsOf(n, list)))
  {
    var root := BuildTree(x, y, w, n, list);
    root.QForce(n, i, s, vx, vy);
    ForceIsCoverSum(x, y, w, n, list, i, s);
    if |list| >= 2 && s.whole(w, n[i], TotalsOf(n, list)) {
      AllAsOne(x, y, w, n, list, i, s);
    }
  }

  /** Point `i` is accelerated by the direct sum of the pushes of all listed others, provided that the
      threshold is zero and no leaf of the index is crowded. */
  method RepelExactly(
    x: real, y: real, w: real, n: seq<Point>, list: seq<nat>, i: nat, s: Kernel, vx: array<real>, vy: array<real>)
    requires Among(list, |n|) && i < |n| && |n| <= vx.Length && |n| <= vy.Length && vx != vy
    requires NeverWhole(s) && Singles(Build(Empty(x, y, w), n, list))
    modifies vx, vy
    ensures Pushed(old(vx[..]), old(vy[..]), vx[..], vy[..], i, DirectSum(n, list, i, s))
  {
    var root := BuildTree(x, y, w, n, list);
    ghost var x0, y0 := vx[..], vy[..];
    root.QForce(n, i, s, vx, vy);
    PushedDirectly(x, y, w, n, list, i, s, x0, y0, vx[..], vy[..]);
  }

  lemma PushedDirectly(
    x: real, y: real, w: real, n: seq<Point>, list: seq<nat>, i: nat, s: Kernel,
    x0: seq<real>, y0: seq<real>, x1: seq<real>, y1: seq<real>)
    requires Among(list, |n|) && i < |n| && NeverWhole(s) && Singles(Build(Empty(x, y, w), n, list))
    requires i < |x0| && i < |y0|
    requires Pushed(x0, y0, x1, y1, i, Force(Build(Empty(x, y, w), n, list), n, i, s))
    ensures Pushed(x0, y0, x1, y1, i, DirectSum(n, list, i, s))
  {
    TreeIsDirectSum(x, y, w, n, list, i, s);
    PushedAs(x0, y0, x1, y1, i, Force(Build(Empty(x, y, w), n, list), n, i, s), DirectSum(n, list, i, s));
  }
}
