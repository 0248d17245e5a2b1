/** Action and reaction: the graph view's repulsion is opposite for the two points of a pair, so that the
    direct sums of all forces cancel. */
module QuadtreeMomentum {
  import opened Quadtree

  /** Two points push each other with equal and opposite forces. */
  ghost predicate Opposed(n: seq<Point>, s: Kernel) {
    forall i, j :: 0 <= i < |n| && 0 <= j < |n| ==> Plus(Pair(n, i, j, s), Pair(n, j, i, s)) == ZERO
  }

  lemma SameDistance(p: Point, q: Point)
    ensures Distance2(p, q) == Distance2(q, p)
  {
    OppositeSquare(p.x - q.x, q.x - p.x);
    OppositeSquare(p.y - q.y, q.y - p.y);
  }

  lemma OppositeSquare(a: real, b: real)
    requires a == -b
    ensures Square(a) == Square(b)
  {
  }

  lemma OppositeTimes(a: real, b: real, f: real)
    requires a == -b
    ensures a * f + b * f == 0.0
  {
    assert a * f + b * f == (a + b) * f;
  }

  lemma RepulsionOpposed(n: seq<Point>, repel: real, alpha: real, threshold: real)
    ensures Opposed(n, Repulsion(repel, alpha, threshold))
  {
    var s := Repulsion(repel, alpha, threshold);
    forall i, j | 0 <= i < |n| && 0 <= j < |n|
      ensures Plus(Pair(n, i, j, s), Pair(n, j, i, s)) == ZERO
    {
      var p, q := n[i], n[j];
      SameDistance(p, q);
      var f := repel * 1.0 / Distance2(p, q) * alpha;
      assert Centre(Totals(1, q.x, q.y)) == q && Centre(Totals(1, p.x, p.y)) == p;
      OppositeTimes(p.x - q.x, q.x - p.x, f);
      OppositeTimes(p.y - q.y, q.y - p.y, f);
    }
  }

  /** The sum of the forces that the listed points in `from` exert on those in `on`. */
  function Momentum(n: seq<Point>, on: seq<nat>, from: seq<nat>, s: Kernel): Point
    requires Among(on, |n|) && Among(from, |n|)
  {
    if on == [] then ZERO else Plus(Momentum(n, on[..|on| - 1], from, s), DirectSum(n, from, on[|on| - 1], s))
  }

  function Received(n: seq<Point>, on: seq<nat>, j: nat, s: Kernel): Point
    requires Among(on, |n|) && j < |n|
  {
    if on == [] then ZERO else Plus(Received(n, on[..|on| - 1], j, s), Pair(n, on[|on| - 1], j, s))
  }

  lemma PlusRegroups(a: Point, b: Point, c: Point, d: Point)
    ensures Plus(Plus(a, b), Plus(c, d)) == Plus(Plus(a, c), Plus(b, d))
    ensures Plus(Plus(a, b), c) == Plus(Plus(a, c), b)
  {
  }

  lemma {:induction false} MomentumNext(n: seq<Point>, on: seq<nat>, from: seq<nat>, j: nat, s: Kernel)
    requires Among(on, |n|) && Among(from, |n|) && j < |n|
    ensures Among(from + [j], |n|)
    ensures Momentum(n, on, from + [j], s) == Plus(Momentum(n, on, from, s), Received(n, on, j, s))
    decreases |on|
  {
    if on != [] {
      var rest, i := on[..|on| - 1], on[|on| - 1];
      MomentumNext(n, rest, from, j, s);
      assert (from + [j])[..|from|] == from;
      PlusRegroups(Momentum(n, rest, from, s), Received(n, rest, j, s), DirectSum(n, from, i, s), Pair(n, i, j, s));
    }
  }

  lemma {:induction false} ReceivedOpposed(n: seq<Point>, on: seq<nat>, j: nat, s: Kernel)
    requires Among(on, |n|) && j < |n| && Opposed(n, s)
    ensures Plus(Received(n, on, j, s), DirectSum(n, on, j, s)) == ZERO
    decreases |on|
  {
    if on != [] {
      var rest, i := on[..|on| - 1], on[|on| - 1];
      ReceivedOpposed(n, rest, j, s);
      PlusRegroups(Received(n, rest, j, s), Pair(n, i, j, s), DirectSum(n, rest, j, s), Pair(n, j, i, s));
      assert Plus(Pair(n, i, j, s), Pair(n, j, i, s)) == ZERO;
    }
  }

  /** The direct sums conserve momentum: over all listed points they cancel. */
  lemma {:induction false} MomentumConserved(n: seq<Point>, list: seq<nat>, s: Kernel)
    requires Among(list, |n|) && Opposed(n, s)
    ensures Momentum(n, list, list, s) == ZERO
    decreases |list|
  {
    if list != [] {
      var rest, j := list[..|list| - 1], list[|list| - 1];
      MomentumConserved(n, rest, s);
      MomentumNext(n, rest, rest, j, s);
      assert rest + [j] == list;
      ReceivedOpposed(n, rest, j, s);
      assert Plus(Pair(n, j, j, s), Pair(n, j, j, s)) == ZERO;
    }
  }
}
