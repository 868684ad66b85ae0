/** NSRouter::createTable of hupsim.pl: Dijkstra's algorithm over fields shared by all runs. */
module Routing {
  import opened Graphs

  const INFINITY := 65535

  const NO_ONE := -1

  /** The fields distance, done and predecessor of every vertex. */
  datatype Labels = Labels(distance: seq<int>, done: seq<bool>, predecessor: seq<int>)

  // ---------------------------------------------------------------------------------------------
  // The invariant of the main loop, for source s.
  // ---------------------------------------------------------------------------------------------

  ghost predicate Shape(g: Graph, s: nat, l: Labels)
  {
    && |l.distance| == |l.done| == |l.predecessor| == g.size
    && (forall v | v in g.present :: v < g.size)
    && s in g.present
    && l.distance[s] == 0
    && (forall v | v in g.present :: 0 <= l.distance[v] <= INFINITY)
    && (forall v | v in g.present && v != s :: l.distance[v] >= 1)
  }

  /** A label below infinity is explained by a visited predecessor one step closer; u is being visited. */
  ghost predicate Explained(g: Graph, s: nat, l: Labels, u: int, v: nat)
    requires Shape(g, s, l) && v in g.present
  {
    v != s && l.distance[v] < INFINITY ==>
      var p := l.predecessor[v];
      && 0 <= p < g.size && p in g.present && Edge(g, p, v)
      && (l.done[p] || p == u)
      && l.distance[v] == l.distance[p] + 1
  }

  /** Every label below infinity is explained; no edge of a done vertex can still improve a label. */
  ghost predicate Dijkstra(g: Graph, s: nat, l: Labels, u: int)
  {
    && Shape(g, s, l)
    && (forall v | v in g.present :: Explained(g, s, l, u, v))
    && EdgesDone(g, l)
    && DoneFirst(g, l)
  }

  ghost predicate EdgesDone(g: Graph, l: Labels)
    requires forall v | v in g.present :: v < |l.distance| && v < |l.done|
  {
    forall x, v | x in g.present && v in g.present && l.done[x] && Edge(g, x, v) ::
      l.distance[v] <= l.distance[x] + 1
  }

  ghost predicate DoneFirst(g: Graph, l: Labels)
    requires forall v | v in g.present :: v < |l.distance| && v < |l.done|
  {
    forall x, v | x in g.present && v in g.present && l.done[x] && !l.done[v] :: l.distance[x] <= l.distance[v]
  }

  /** u is the next vertex to visit, and its neighbours below k have been relaxed. */
  ghost predicate Visiting(g: Graph, s: nat, l: Labels, u: nat, k: nat)
  {
    && Dijkstra(g, s, l, u)
    && u in g.present && !l.done[u]
    && Smallest(g, l, u)
    && RelaxedBelow(g, l, u, k)
  }

  ghost predicate Smallest(g: Graph, l: Labels, u: nat)
    requires forall v | v in g.present :: v < |l.distance| && v < |l.done|
    requires u in g.present
  {
    forall v | v in g.present && !l.done[v] :: l.distance[u] <= l.distance[v]
  }

  ghost predicate RelaxedBelow(g: Graph, l: Labels, u: nat, k: nat)
    requires forall v | v in g.present :: v < |l.distance|
    requires u in g.present
  {
    forall v | v in g.present && v < k && Edge(g, u, v) :: l.distance[v] <= l.distance[u] + 1
  }

  function Relaxed(l: Labels, u: nat, v: nat): Labels
    requires u < |l.distance| && v < |l.distance| && v < |l.predecessor|
  {
    if l.distance[v] > l.distance[u] + 1 then
      l.(distance := l.distance[v := l.distance[u] + 1], predecessor := l.predecessor[v := u])
    else l
  }

  /** A label that the edge from u improves belongs to a vertex that is neither the source nor done. */
  lemma {:induction false} ImprovedIsOpen(g: Graph, s: nat, l: Labels, u: nat, v: nat)
    requires Shape(g, s, l) && DoneFirst(g, l) && u in g.present && v in g.present
    requires l.distance[v] > l.distance[u] + 1 && !l.done[u]
    ensures v != s && v != u && !l.done[v]
  {
  }

  lemma {:induction false} RelaxShape(g: Graph, s: nat, l: Labels, u: nat, v: nat)
    requires Shape(g, s, l) && u in g.present && v in g.present && v != s
    ensures Shape(g, s, Relaxed(l, u, v))
  {
  }

  lemma {:induction false} RelaxExplains(g: Graph, s: nat, l: Labels, u: nat, v: nat, x: nat)
    requires Shape(g, s, l) && u in g.present && v in g.present && x in g.present
    requires Shape(g, s, Relaxed(l, u, v)) && Edge(g, u, v) && Explained(g, s, l, u, x)
    requires !l.done[v] && v != u
    ensures Explained(g, s, Relaxed(l, u, v), u, x)
  {
  }

  lemma {:induction false} RelaxOrders(g: Graph, s: nat, l: Labels, u: nat, v: nat)
    requires Shape(g, s, l) && u in g.present && v in g.present && !l.done[u] && !l.done[v] && v != u
    requires EdgesDone(g, l) && DoneFirst(g, l) && Smallest(g, l, u) && RelaxedBelow(g, l, u, v)
    ensures var l' := Relaxed(l, u, v);
            EdgesDone(g, l') && DoneFirst(g, l') && Smallest(g, l', u) && RelaxedBelow(g, l', u, v + 1)
  {
    hide Edge;
  }

  lemma {:induction false} RelaxKeeps(g: Graph, s: nat, l: Labels, u: nat, v: nat)
    requires Visiting(g, s, l, u, v) && Edge(g, u, v) && v in g.present
    ensures Visiting(g, s, Relaxed(l, u, v), u, v + 1)
  {
    if l.distance[v] > l.distance[u] + 1 {
      var l' := Relaxed(l, u, v);
      ImprovedIsOpen(g, s, l, u, v);
      RelaxShape(g, s, l, u, v);
      RelaxOrders(g, s, l, u, v);
      hide EdgesDone, DoneFirst, Smallest, RelaxedBelow, Explained, Edge;
      forall x | x in g.present
        ensures Explained(g, s, l', u, x)
      {
        RelaxExplains(g, s, l, u, v, x);
      }
    } else {
      SettledKeeps(g, s, l, u, v);
    }
  }

  lemma {:induction false} SettledKeeps(g: Graph, s: nat, l: Labels, u: nat, v: nat)
    requires Visiting(g, s, l, u, v) && v in g.present && l.distance[v] <= l.distance[u] + 1
    ensures Visiting(g, s, l, u, v + 1)
  {
    hide EdgesDone, DoneFirst, Smallest, Explained;
  }

  lemma {:induction false} SkipKeeps(g: Graph, s: nat, l: Labels, u: nat, v: nat)
    requires Visiting(g, s, l, u, v) && !Edge(g, u, v)
    ensures Visiting(g, s, l, u, v + 1)
  {
    hide Dijkstra;
  }

  lemma {:induction false} VisitEnds(g: Graph, s: nat, l: Labels, u: nat)
    requires ValidGraph(g) && Visiting(g, s, l, u, g.size)
    ensures Dijkstra(g, s, l.(done := l.done[u := true]), NO_ONE)
  {
    var l' := l.(done := l.done[u := true]);
    forall x | x in g.present
      ensures Explained(g, s, l', NO_ONE, x)
    {
      assert Explained(g, s, l, u, x);
    }
  }

  lemma {:induction false} VisitStarts(g: Graph, s: nat, l: Labels, u: nat)
    requires Dijkstra(g, s, l, NO_ONE) && u in g.present && !l.done[u]
    requires forall v | v in g.present && !l.done[v] :: l.distance[u] <= l.distance[v]
    ensures Visiting(g, s, l, u, 0)
  {
    forall x | x in g.present
      ensures Explained(g, s, l, u, x)
    {
      assert Explained(g, s, l, NO_ONE, x);
    }
  }

  // ---------------------------------------------------------------------------------------------
  // What holds when every vertex is done.
  // ---------------------------------------------------------------------------------------------

  ghost predicate AllDone(g: Graph, s: nat, l: Labels)
  {
    Dijkstra(g, s, l, NO_ONE) && forall v | v in g.present :: l.done[v]
  }

  lemma {:induction false} EdgeRaisesByOne(g: Graph, s: nat, l: Labels, x: nat, v: nat)
    requires ValidGraph(g) && AllDone(g, s, l) && Edge(g, x, v)
    ensures Shape(g, s, l) && x in g.present && v in g.present
    ensures l.distance[v] <= l.distance[x] + 1
  {
  }

  lemma {:induction false} ParentOf(g: Graph, s: nat, l: Labels, v: nat)
    requires AllDone(g, s, l) && v in g.present && v != s && l.distance[v] < INFINITY
    ensures Shape(g, s, l) && 0 <= l.predecessor[v] < g.size && l.predecessor[v] in g.present
    ensures Edge(g, l.predecessor[v], v) && l.distance[v] == l.distance[l.predecessor[v]] + 1
  {
    assert Explained(g, s, l, NO_ONE, v);
  }

  lemma {:induction false} ShapeOf(g: Graph, s: nat, l: Labels)
    requires AllDone(g, s, l)
    ensures Shape(g, s, l)
  {
  }

  lemma {:induction false} LabelsBoundWalks(g: Graph, s: nat, l: Labels, v: nat, n: nat)
    requires ValidGraph(g) && AllDone(g, s, l) && Walk(g, s, v, n)
    ensures Shape(g, s, l) && v in g.present && l.distance[v] <= n
    decreases n
  {
    hide Dijkstra, ValidGraph;
    ShapeOf(g, s, l);
    if n > 0 {
      var k: nat :| Walk(g, s, k, n - 1) && Edge(g, k, v);
      LabelsBoundWalks(g, s, l, k, n - 1);
      EdgeRaisesByOne(g, s, l, k, v);
    }
  }

  lemma {:induction false} LabelsAreWalks(g: Graph, s: nat, l: Labels, v: nat)
    requires ValidGraph(g) && AllDone(g, s, l) && v in g.present && l.distance[v] < INFINITY
    ensures Walk(g, s, v, l.distance[v])
    decreases if v < |l.distance| then l.distance[v] else 0
  {
    hide ValidGraph, Dijkstra;
    ShapeOf(g, s, l);
    if v != s {
      ParentOf(g, s, l, v);
      LabelsAreWalks(g, s, l, l.predecessor[v]);
    }
  }

  ghost predicate SomeAt(g: Graph, l: Labels, k: int)
  {
    exists x :: x in g.present && x < |l.distance| && l.distance[x] == k
  }

  /** Labels rise by at most one along an edge, so no smaller label is skipped on the way to a vertex. */
  lemma {:induction false} NoLabelSkipped(g: Graph, s: nat, l: Labels, v: nat, n: nat, k: nat)
    requires ValidGraph(g) && AllDone(g, s, l) && Walk(g, s, v, n)
    requires v in g.present && v < |l.distance| && k <= l.distance[v]
    ensures SomeAt(g, l, k)
    decreases n
  {
    hide ValidGraph, Dijkstra;
    ShapeOf(g, s, l);
    if n > 0 && k != l.distance[v] {
      var w: nat :| Walk(g, s, w, n - 1) && Edge(g, w, v);
      EdgeRaisesByOne(g, s, l, w, v);
      NoLabelSkipped(g, s, l, w, n - 1, k);
    }
  }

  /** The vertices with labels below k. */
  ghost function Below(g: Graph, l: Labels, k: nat): set<nat>
  {
    set v | v in g.present && v < |l.distance| && l.distance[v] < k
  }

  lemma {:induction false} ManyBelow(g: Graph, l: Labels, k: nat)
    requires forall i | 0 <= i < k :: SomeAt(g, l, i)
    ensures |Below(g, l, k)| >= k
  {
    if k > 0 {
      ManyBelow(g, l, k - 1);
      assert SomeAt(g, l, k - 1);
      var x :| x in g.present && x < |l.distance| && l.distance[x] == k - 1;
      assert Below(g, l, k - 1) + {x} <= Below(g, l, k);
      SubsetCard(Below(g, l, k - 1) + {x}, Below(g, l, k));
    }
  }

  /** INFINITY is out of reach of real distances when there are at most that many routers. */
  lemma {:induction false} ReachableIsNear(g: Graph, s: nat, l: Labels, v: nat)
    requires ValidGraph(g) && AllDone(g, s, l) && |g.present| <= INFINITY
    requires v in g.present && Reachable(g, s, v)
    ensures l.distance[v] < INFINITY
  {
    ShapeOf(g, s, l);
    var n: nat :| Walk(g, s, v, n);
    if l.distance[v] >= INFINITY {
      forall i | 0 <= i < INFINITY + 1
        ensures SomeAt(g, l, i)
      {
        NoLabelSkipped(g, s, l, v, n, i);
      }
      hide AllDone, Shape, ValidGraph, SomeAt;
      ManyBelow(g, l, INFINITY + 1);
      SubsetCard(Below(g, l, INFINITY + 1), g.present);
    }
  }

  /** For every graph: a label is the distance, cut off at INFINITY. */
  lemma {:induction false} LabelsAreDistances(g: Graph, s: nat, l: Labels, v: nat)
    requires ValidGraph(g) && AllDone(g, s, l) && v in g.present
    ensures 0 <= l.distance[v] <= INFINITY
    ensures forall n: nat | n < l.distance[v] :: !Walk(g, s, v, n)
    ensures l.distance[v] < INFINITY ==> Dist(g, s, v, l.distance[v])
  {
    ShapeOf(g, s, l);
    if l.distance[v] < INFINITY {
      LabelsAreWalks(g, s, l, v);
    }
    hide AllDone, Shape, ValidGraph;
    forall n: nat | n < l.distance[v]
      ensures !Walk(g, s, v, n)
    {
      if Walk(g, s, v, n) { LabelsBoundWalks(g, s, l, v, n); }
    }
  }

  lemma {:induction false} LabelsInReach(g: Graph, s: nat, l: Labels, v: nat)
    requires ValidGraph(g) && AllDone(g, s, l) && v in g.present
    requires Connected(g) && |g.present| <= INFINITY
    ensures 0 <= l.distance[v] < INFINITY && Dist(g, s, v, l.distance[v])
  {
    hide ValidGraph, Dijkstra, Dist;
    ShapeOf(g, s, l);
    assert Reachable(g, s, v);
    hide Connected, Reachable;
    ReachableIsNear(g, s, l, v);
    LabelsAreDistances(g, s, l, v);
  }

  // ---------------------------------------------------------------------------------------------
  // The routing table.
  // ---------------------------------------------------------------------------------------------

  /** The neighbour h of s lies on a shortest path to v. */
  ghost predicate GoodHop(g: Graph, s: nat, v: nat, h: int)
  {
    h >= 0 && Edge(g, s, h) && exists d: nat :: Dist(g, s, v, d + 1) && Dist(g, h, v, d)
  }

  /** What the table of router s holds for vertex v: a good hop, or nothing for s itself and for holes. */
  ghost predicate Entry(g: Graph, s: nat, v: nat, h: int)
  {
    if v in g.present && v != s then GoodHop(g, s, v, h) else h == NO_ONE
  }

  ghost predicate TableOf(g: Graph, s: nat, table: seq<int>)
  {
    |table| == g.size && forall v | 0 <= v < g.size :: Entry(g, s, v, table[v])
  }

  /** One turn of the walk back from v to its first hop: x is on a shortest path to v. */
  ghost predicate OnPath(g: Graph, s: nat, l: Labels, v: nat, x: nat)
  {
    && x in g.present && x < |l.distance| && v < |l.distance|
    && l.distance[x] <= l.distance[v]
    && Walk(g, x, v, l.distance[v] - l.distance[x])
  }

  lemma {:induction false} StepBack(g: Graph, s: nat, l: Labels, v: nat, x: nat)
    requires ValidGraph(g) && AllDone(g, s, l)
    requires v in g.present && x in g.present && x != s && l.distance[v] < INFINITY
    requires OnPath(g, s, l, v, x)
    ensures 0 <= l.predecessor[x] < g.size && l.distance[l.predecessor[x]] == l.distance[x] - 1
    ensures Edge(g, l.predecessor[x], x) && OnPath(g, s, l, v, l.predecessor[x])
  {
    hide Walk, ValidGraph, Dijkstra;
    ParentOf(g, s, l, x);
    var p := l.predecessor[x];
    WalkFrom(g, p, x, v, l.distance[v] - l.distance[x]);
  }

  lemma {:induction false} FirstHopIsGood(g: Graph, s: nat, l: Labels, v: nat, x: nat)
    requires ValidGraph(g) && AllDone(g, s, l)
    requires v in g.present && x in g.present && v != s && x != s && l.distance[v] < INFINITY
    requires OnPath(g, s, l, v, x) && l.predecessor[x] == s
    ensures GoodHop(g, s, v, x)
  {
    hide Walk, ValidGraph, Dijkstra, Dist;
    ParentOf(g, s, l, x);
    LabelsAreDistances(g, s, l, v);
    ShapeOf(g, s, l);
    assert Edge(g, s, x);
    CloserNeighbour(g, s, x, v, l.distance[v]);
    var d := l.distance[v] - 1;
    assert Dist(g, s, v, d + 1) && Dist(g, x, v, d);
  }

  // ---------------------------------------------------------------------------------------------
  // The routers.
  // ---------------------------------------------------------------------------------------------

  /** The vertices done so far, and those numbered below i. */
  ghost function Finished(g: Graph, l: Labels): set<nat>
  {
    set v | v in g.present && v < |l.done| && l.done[v]
  }

  ghost function Numbered(g: Graph, i: nat): set<nat>
  {
    set v | v in g.present && v < i
  }

  /** Turn i of the main loop finds a vertex to visit, whichever vertices the earlier turns took. */
  lemma {:induction false} SomeoneLeft(g: Graph, l: Labels, i: nat)
    requires |Finished(g, l)| == |Numbered(g, i)| && i in g.present
    requires forall v | v in g.present :: v < |l.done|
    ensures exists v :: v in g.present && v < |l.done| && !l.done[v]
  {
    if forall v | v in g.present :: l.done[v] {
      assert Finished(g, l) == g.present;
      SubsetCard(Numbered(g, i), g.present);
    }
  }

  lemma {:induction false} OneMoreFinished(g: Graph, l: Labels, u: nat, l': Labels)
    requires u in g.present && u < |l.done| && !l.done[u] && l'.done == l.done[u := true]
    ensures |Finished(g, l')| == |Finished(g, l)| + 1
  {
    assert Finished(g, l') == Finished(g, l) + {u};
  }

  lemma {:induction false} OneMoreNumbered(g: Graph, i: nat)
    ensures |Numbered(g, i + 1)| == |Numbered(g, i)| + if i in g.present then 1 else 0
  {
    assert Numbered(g, i + 1) == Numbered(g, i) + if i in g.present then {i} else {};
  }

  lemma {:induction false} NoneNumbered(g: Graph)
    ensures Numbered(g, 0) == {}
  {
  }

  lemma {:induction false} AllLabelled(g: Graph, s: nat, l: Labels)
    requires Dijkstra(g, s, l, NO_ONE)
    ensures |l.done| == g.size && forall v | v in g.present :: v < g.size
  {
  }

  lemma {:induction false} EveryoneFinished(g: Graph, l: Labels, i: nat)
    requires |Finished(g, l)| == |Numbered(g, i)|
    requires forall v | v in g.present :: v < i
    ensures forall v | v in g.present :: v < |l.done| && l.done[v]
  {
    assert Numbered(g, i) == g.present;
    SubsetCard(Finished(g, l), g.present);
  }

  /** The array of routers; index is router id, with holes. */
  type Vertexes = seq<Router?>

  function Routers(vs: Vertexes): set<Router> { set r: Router | r in vs }

  function GraphOf(vs: Vertexes): Graph
  {
    Graph(|vs|, set i | 0 <= i < |vs| && vs[i] != null, seq(|vs|, i requires 0 <= i < |vs| => LinksOf(vs[i])))
  }

  function LinksOf(r: Router?): set<nat> { if r == null then {} else r.links }

  ghost predicate Registered(vs: Vertexes)
  {
    && (forall i | 0 <= i < |vs| && vs[i] != null :: vs[i].id == i)
    && ValidGraph(GraphOf(vs))
  }

  lemma {:induction false} LinkedIsVertex(vs: Vertexes, u: nat, k: nat)
    requires Registered(vs) && u < |vs| && k in LinksOf(vs[u])
    ensures Edge(GraphOf(vs), u, k) && k < |vs| && vs[k] != null
  {
    assert Edge(GraphOf(vs), u, k);
  }

  ghost predicate Agrees(vs: Vertexes, l: Labels)
    reads Routers(vs)
  {
    && |l.distance| == |l.done| == |l.predecessor| == |vs|
    && forall i | 0 <= i < |vs| && vs[i] != null ::
         && vs[i].distance == l.distance[i]
         && vs[i].done == l.done[i]
         && vs[i].predecessor == l.predecessor[i]
  }

  class Router {
    const id: nat
    const links: set<nat>
    var distance: int
    var done: bool
    var predecessor: int
    var routingTable: seq<int>

    constructor (id: nat, links: set<nat>)
      ensures this.id == id && this.links == links && predecessor == NO_ONE
    {
      this.id := id;
      this.links := links;
      distance, done, predecessor, routingTable := 0, false, NO_ONE, [];
    }

    /** The base state of all vertexes; predecessors are left as an earlier run made them. */
    method Prepare(vs: Vertexes) returns (ghost l: Labels)
      requires Registered(vs) && id < |vs| && vs[id] == this
      modifies Routers(vs)`distance, Routers(vs)`done
      ensures Agrees(vs, l) && Dijkstra(GraphOf(vs), id, l, NO_ONE)
      ensures Finished(GraphOf(vs), l) == {}
    {
      ghost var g := GraphOf(vs);
      for i := 0 to |vs|
        invariant forall j | 0 <= j < i && vs[j] != null ::
                    !vs[j].done && vs[j].distance == if j == id then 0 else INFINITY
      {
        if vs[i] != null {
          vs[i].done := false;
          if vs[i].id == id { vs[i].distance := 0; } else { vs[i].distance := INFINITY; }
        }
      }
      l := Labels(seq(|vs|, i => if i == id then 0 else INFINITY), seq(|vs|, i => false),
                  seq(|vs|, i requires 0 <= i < |vs| reads Routers(vs) =>
                    if vs[i] == null then NO_ONE else vs[i].predecessor));
    }

    /** Which vertex to visit next: the first of those with the smallest distance. */
    static method VisitNext(vs: Vertexes, ghost s: nat, ghost l: Labels) returns (u: nat)
      requires Registered(vs) && Agrees(vs, l) && Shape(GraphOf(vs), s, l)
      requires exists v :: v in GraphOf(vs).present && !l.done[v]
      ensures u in GraphOf(vs).present && !l.done[u]
      ensures forall v | v in GraphOf(vs).present && !l.done[v] ::
                l.distance[u] <= l.distance[v] && (v < u ==> l.distance[u] < l.distance[v])
    {
      var next, min := NO_ONE, INFINITY + 1;
      for i := 0 to |vs|
        invariant next == NO_ONE ==> min == INFINITY + 1
        invariant next != NO_ONE ==>
                    0 <= next < i && vs[next] != null && !l.done[next] && min == l.distance[next]
        invariant forall v | 0 <= v < i && vs[v] != null && !l.done[v] ::
                    min <= l.distance[v] && (v < next ==> min < l.distance[v])
        invariant next == NO_ONE ==> forall v | 0 <= v < i && vs[v] != null :: l.done[v]
      {
        if vs[i] != null && !vs[i].done && vs[i].distance < min {
          next, min := i, vs[i].distance;
        }
      }
      u := next;
    }

    /** Relaxes the edge from u to k. */
    static method Relax(vs: Vertexes, u: nat, k: nat, ghost l: Labels)
      requires Registered(vs) && Agrees(vs, l)
      requires u < |vs| && vs[u] != null && k < |vs| && vs[k] != null
      modifies Routers(vs)`distance, Routers(vs)`predecessor
      ensures Agrees(vs, Relaxed(l, u, k))
    {
      hide ValidGraph;
      var weight := vs[u].distance + 1;
      if vs[k].distance > weight {
        vs[k].distance, vs[k].predecessor := weight, u;
      }
    }

    /** Relaxes the edges of u, the vertex being visited, and marks it done. */
    static method Visit(vs: Vertexes, u: nat, ghost s: nat, ghost l0: Labels) returns (ghost l: Labels)
      requires Registered(vs) && Agrees(vs, l0) && Visiting(GraphOf(vs), s, l0, u, 0)
      modifies Routers(vs)`distance, Routers(vs)`done, Routers(vs)`predecessor
      ensures Agrees(vs, l) && Dijkstra(GraphOf(vs), s, l, NO_ONE)
      ensures l.done == l0.done[u := true]
    {
      ghost var g := GraphOf(vs);
      hide ValidGraph, Dijkstra;
      assert u < |vs| && vs[u] != null;
      l := l0;
      for k := 0 to |vs|
        invariant Agrees(vs, l) && Visiting(g, s, l, u, k)
        invariant l.done == l0.done
      {
        hide Agrees;
        if k in vs[u].links {
          LinkedIsVertex(vs, u, k);
          RelaxKeeps(g, s, l, u, k);
          Relax(vs, u, k, l);
          l := Relaxed(l, u, k);
        } else {
          SkipKeeps(g, s, l, u, k);
        }
      }
      VisitEnds(g, s, l, u);
      vs[u].done := true;
      l := l.(done := l.done[u := true]);
    }

    /** Walks predecessors back from v to the neighbour of this router on the way. */
    method FirstHop(vs: Vertexes, v: nat, ghost l: Labels) returns (h: nat)
      requires Registered(vs) && id < |vs| && vs[id] == this
      requires Agrees(vs, l) && AllDone(GraphOf(vs), id, l)
      requires v < |vs| && vs[v] != null && v != id && l.distance[v] < INFINITY
      ensures GoodHop(GraphOf(vs), id, v, h)
    {
      ghost var g := GraphOf(vs);
      h := v;
      assert Walk(g, v, v, 0);
      StepBack(g, id, l, v, v);
      while vs[h].predecessor != id
        invariant h < |vs| && vs[h] != null && h != id && OnPath(g, id, l, v, h)
        decreases l.distance[h]
      {
        StepBack(g, id, l, v, h);
        h := vs[h].predecessor;
      }
      FirstHopIsGood(g, id, l, v, h);
    }

    /** The first hop to every other vertex. */
    method FillTable(vs: Vertexes, ghost l: Labels) returns (table: seq<int>)
      requires Registered(vs) && id < |vs| && vs[id] == this
      requires Agrees(vs, l) && AllDone(GraphOf(vs), id, l)
      requires forall v | 0 <= v < |vs| && vs[v] != null :: l.distance[v] < INFINITY
      ensures TableOf(GraphOf(vs), id, table)
    {
      hide ValidGraph, AllDone, GoodHop;
      table := [];
      for v := 0 to |vs|
        invariant |table| == v
        invariant forall j | 0 <= j < v :: Entry(GraphOf(vs), id, j, table[j])
      {
        var h: int := NO_ONE;
        if vs[v] != null && vs[v].id != id { h := FirstHop(vs, v, l); }
        table := table + [h];
      }
    }

    /** One turn of the main loop: finds the next vertex and visits it. */
    static method Turn(vs: Vertexes, ghost s: nat, ghost l0: Labels) returns (ghost l: Labels)
      requires Registered(vs) && Agrees(vs, l0) && Dijkstra(GraphOf(vs), s, l0, NO_ONE)
      requires exists v :: v in GraphOf(vs).present && !l0.done[v]
      modifies Routers(vs)`distance, Routers(vs)`done, Routers(vs)`predecessor
      ensures Agrees(vs, l) && Dijkstra(GraphOf(vs), s, l, NO_ONE)
      ensures |Finished(GraphOf(vs), l)| == |Finished(GraphOf(vs), l0)| + 1
    {
      hide Agrees, ValidGraph;
      var u := VisitNext(vs, s, l0);
      VisitStarts(GraphOf(vs), s, l0, u);
      hide Dijkstra;
      l := Visit(vs, u, s, l0);
      OneMoreFinished(GraphOf(vs), l0, u, l);
    }

    /** The main loop: as many turns as there are vertexes. */
    method Explore(vs: Vertexes) returns (ghost l: Labels)
      requires Registered(vs) && id < |vs| && vs[id] == this
      modifies Routers(vs)`distance, Routers(vs)`done, Routers(vs)`predecessor
      ensures Agrees(vs, l) && AllDone(GraphOf(vs), id, l)
    {
      hide ValidGraph, Agrees, Dijkstra, Finished, Numbered;
      ghost var g := GraphOf(vs);
      l := Prepare(vs);
      NoneNumbered(g);
      for i := 0 to |vs|
        invariant Agrees(vs, l) && Dijkstra(g, id, l, NO_ONE)
        invariant |Finished(g, l)| == |Numbered(g, i)|
      {
        OneMoreNumbered(g, i);
        AllLabelled(g, id, l);
        if vs[i] != null {
          SomeoneLeft(g, l, i);
          l := Turn(vs, id, l);
        }
      }
      AllLabelled(g, id, l);
      EveryoneFinished(g, l, |vs|);
    }

    /** Dijkstra's algorithm from this router, then the table of first hops. */
    method CreateTable(vs: Vertexes)
      requires Registered(vs) && id < |vs| && vs[id] == this
      requires Connected(GraphOf(vs)) && |GraphOf(vs).present| <= INFINITY
      modifies Routers(vs)`distance, Routers(vs)`done, Routers(vs)`predecessor, this`routingTable
      ensures forall v | 0 <= v < |vs| && vs[v] != null ::
                0 <= vs[v].distance && Dist(GraphOf(vs), id, v, vs[v].distance)
      ensures TableOf(GraphOf(vs), id, routingTable)
    {
      hide ValidGraph, Dijkstra, TableOf, Connected, Dist;
      ghost var l := Explore(vs);
      forall v | 0 <= v < |vs| && vs[v] != null
        ensures l.distance[v] < INFINITY && 0 <= l.distance[v] && Dist(GraphOf(vs), id, v, l.distance[v])
      {
        LabelsInReach(GraphOf(vs), id, l, v);
      }
      routingTable := FillTable(vs, l);
    }
  }

  ghost predicate Built(g: Graph, tables: seq<seq<int>>)
  {
    |tables| == g.size && forall i | i in g.present :: i < g.size && TableOf(g, i, tables[i])
  }

  function TablesOf(vs: Vertexes): seq<seq<int>>
    reads Routers(vs)
  {
    seq(|vs|, i requires 0 <= i < |vs| reads Routers(vs) => if vs[i] == null then [] else vs[i].routingTable)
  }

  /** Every router builds its table in turn; the labels of one run are the stale fields of the next. */
  method BuildAll(vs: Vertexes)
    requires Registered(vs) && Connected(GraphOf(vs)) && |GraphOf(vs).present| <= INFINITY
    modifies Routers(vs)
    ensures Built(GraphOf(vs), TablesOf(vs))
  {
    hide ValidGraph, Connected, TableOf;
    for i := 0 to |vs|
      invariant forall j | 0 <= j < i && vs[j] != null :: TableOf(GraphOf(vs), j, vs[j].routingTable)
    {
      if vs[i] != null { vs[i].CreateTable(vs); }
    }
  }
}
