/** Unit-weight shortest paths in the undirected graph that a topology file describes. */
module Graphs {

  /** Router numbers below size; links[i] are the neighbours of i, empty where there is no router. */
  datatype Graph = Graph(size: nat, present: set<nat>, links: seq<set<nat>>)

  /** addRoute is always called for both ends of a line of the topology file. */
  ghost predicate ValidGraph(g: Graph)
  {
    && |g.links| == g.size
    && (forall i | i in g.present :: i < g.size)
    && (forall i: nat, j: nat | Edge(g, i, j) :: i in g.present && j in g.present && Edge(g, j, i))
  }

  predicate Edge(g: Graph, i: nat, j: nat) { i < |g.links| && j in g.links[i] }

  /** There is a walk of n edges from i to j. */
  ghost predicate Walk(g: Graph, i: nat, j: nat, n: nat)
    decreases n
  {
    if n == 0 then i == j && i in g.present
    else exists k: nat :: Walk(g, i, k, n - 1) && Edge(g, k, j)
  }

  ghost predicate Dist(g: Graph, i: nat, j: nat, d: nat)
  {
    Walk(g, i, j, d) && forall n: nat | n < d :: !Walk(g, i, j, n)
  }

  ghost predicate Connected(g: Graph)
  {
    forall i, j | i in g.present && j in g.present :: Reachable(g, i, j)
  }

  ghost predicate Reachable(g: Graph, i: nat, j: nat) { exists n: nat :: Walk(g, i, j, n) }

  lemma {:induction false} DistIsUnique(g: Graph, i: nat, j: nat, d: nat, d': nat)
    requires Dist(g, i, j, d) && Dist(g, i, j, d')
    ensures d == d'
  {
  }

  lemma {:induction false} WalkEndsPresent(g: Graph, i: nat, j: nat, n: nat)
    requires ValidGraph(g) && Walk(g, i, j, n)
    ensures i in g.present && j in g.present
    decreases n
  {
    if n > 0 {
      var k: nat :| Walk(g, i, k, n - 1) && Edge(g, k, j);
      WalkEndsPresent(g, i, k, n - 1);
    }
  }

  lemma {:induction false} WalkConcat(g: Graph, i: nat, j: nat, k: nat, m: nat, n: nat)
    requires Walk(g, i, j, m) && Walk(g, j, k, n)
    ensures Walk(g, i, k, m + n)
    decreases n
  {
    if n > 0 {
      var l: nat :| Walk(g, j, l, n - 1) && Edge(g, l, k);
      WalkConcat(g, i, j, l, m, n - 1);
      assert Walk(g, i, l, m + n - 1);
    }
  }

  lemma {:induction false} StepWalk(g: Graph, i: nat, j: nat)
    requires ValidGraph(g) && Edge(g, i, j)
    ensures Walk(g, i, j, 1)
  {
    assert Walk(g, i, i, 0);
  }

  lemma {:induction false} WalkReverse(g: Graph, i: nat, j: nat, n: nat)
    requires ValidGraph(g) && Walk(g, i, j, n)
    ensures Walk(g, j, i, n)
    decreases n
  {
    if n > 0 {
      var k: nat :| Walk(g, i, k, n - 1) && Edge(g, k, j);
      WalkReverse(g, i, k, n - 1);
      StepWalk(g, j, k);
      WalkConcat(g, j, k, i, 1, n - 1);
    }
  }

  lemma {:induction false} WalkFrom(g: Graph, i: nat, h: nat, j: nat, n: nat)
    requires ValidGraph(g) && Edge(g, i, h) && Walk(g, h, j, n)
    ensures Walk(g, i, j, n + 1)
  {
    StepWalk(g, i, h);
    hide Walk, ValidGraph;
    WalkConcat(g, i, h, j, 1, n);
  }

  /** A neighbour that is one step closer by some walk is exactly one step closer. */
  lemma {:induction false} CloserNeighbour(g: Graph, i: nat, h: nat, j: nat, d: nat)
    requires ValidGraph(g) && Dist(g, i, j, d) && d > 0
    requires Edge(g, i, h) && Walk(g, h, j, d - 1)
    ensures Dist(g, h, j, d - 1)
  {
    forall n: nat | n < d - 1
      ensures !Walk(g, h, j, n)
    {
      if Walk(g, h, j, n) {
        WalkFrom(g, i, h, j, n);
      }
    }
  }

  /** The vertices at a distance of at most d from i. */
  ghost function Ball(g: Graph, i: nat, d: int): set<nat>
  {
    set v | v in g.present && exists n: nat :: n <= d && Dist(g, i, v, n)
  }

  lemma {:induction false} LastStep(g: Graph, i: nat, j: nat, d: nat) returns (k: nat)
    requires ValidGraph(g) && Dist(g, i, j, d) && d > 0
    ensures k in g.present && Dist(g, i, k, d - 1)
  {
    k :| Walk(g, i, k, d - 1) && Edge(g, k, j);
    forall n: nat | n < d - 1
      ensures !Walk(g, i, k, n)
    {
      if Walk(g, i, k, n) { assert Walk(g, i, j, n + 1); }
    }
  }

  lemma {:induction false} NotCloser(g: Graph, i: nat, j: nat, d: nat)
    requires Dist(g, i, j, d)
    ensures j !in Ball(g, i, d - 1)
  {
  }

  /** A vertex at distance d has one vertex at each smaller distance before it. */
  lemma {:induction false} BallIsLarge(g: Graph, i: nat, j: nat, d: nat)
    requires ValidGraph(g) && Dist(g, i, j, d) && j in g.present
    ensures |Ball(g, i, d)| > d
    decreases d
  {
    var smaller := {};
    if d > 0 {
      var k := LastStep(g, i, j, d);
      BallIsLarge(g, i, k, d - 1);
      smaller := Ball(g, i, d - 1);
    }
    NotCloser(g, i, j, d);
    assert smaller + {j} <= Ball(g, i, d);
    SubsetCard(smaller + {j}, Ball(g, i, d));
  }

  lemma {:induction false} DistBelowSize(g: Graph, i: nat, j: nat, d: nat)
    requires ValidGraph(g) && Dist(g, i, j, d) && j in g.present
    ensures d < |g.present|
  {
    BallIsLarge(g, i, j, d);
    SubsetCard(Ball(g, i, d), g.present);
  }

  lemma {:induction false} SubsetCard<T>(a: set<T>, b: set<T>)
    requires a <= b
    ensures |a| <= |b| && (|a| == |b| ==> a == b)
    decreases a
  {
    if a != {} {
      var x :| x in a;
      SubsetCard(a - {x}, b - {x});
    }
  }
}
