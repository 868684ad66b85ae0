/** NSRouter::recv, NSRouter::run and NSQueue of hupsim.pl: packets forwarded through bounded queues. */
module Forwarding {
  import opened Graphs
  import opened Routing

  // ---------------------------------------------------------------------------------------------
  // Following the tables from router to router.
  // ---------------------------------------------------------------------------------------------

  lemma {:induction false} HopIsCloser(g: Graph, tables: seq<seq<int>>, x: nat, dest: nat, d: nat)
    requires ValidGraph(g) && Built(g, tables) && x in g.present && dest in g.present
    requires x != dest && Dist(g, x, dest, d)
    ensures x < |tables| && dest < |tables[x]|
    ensures tables[x][dest] >= 0 && Edge(g, x, tables[x][dest]) && tables[x][dest] in g.present
    ensures d > 0 && Dist(g, tables[x][dest], dest, d - 1)
  {
    hide Walk, Dist;
    assert TableOf(g, x, tables[x]);
    assert Entry(g, x, dest, tables[x][dest]);
    var h := tables[x][dest];
    var d0: nat :| Dist(g, x, dest, d0 + 1) && Dist(g, h, dest, d0);
    DistIsUnique(g, x, dest, d, d0 + 1);
  }

  /** The router that holds the packet after n hops. */
  function After(tables: seq<seq<int>>, x: int, dest: nat, n: nat): int
    decreases n
  {
    if n == 0 || x == dest || !(0 <= x < |tables|) || dest >= |tables[x]| then x
    else After(tables, tables[x][dest], dest, n - 1)
  }

  /** Each hop lowers the distance to the destination by exactly one. */
  lemma {:induction false} PathDescends(g: Graph, tables: seq<seq<int>>, x: nat, dest: nat, d: nat, n: nat)
    requires ValidGraph(g) && Built(g, tables) && x in g.present && dest in g.present
    requires Dist(g, x, dest, d) && n <= d
    ensures After(tables, x, dest, n) >= 0 && After(tables, x, dest, n) in g.present
    ensures Dist(g, After(tables, x, dest, n), dest, d - n)
    decreases n
  {
    if n > 0 {
      if x == dest {
        AtHome(g, dest, d);
      } else {
        HopIsCloser(g, tables, x, dest, d);
        hide Dist, ValidGraph, Built;
        PathDescends(g, tables, tables[x][dest], dest, d - 1, n - 1);
      }
    }
  }

  lemma {:induction false} AtHome(g: Graph, i: nat, d: nat)
    requires i in g.present && Dist(g, i, i, d)
    ensures d == 0
  {
    assert Walk(g, i, i, 0);
  }

  lemma {:induction false} NowhereElse(g: Graph, i: nat, j: nat)
    requires Dist(g, i, j, 0)
    ensures i == j
  {
  }

  /** The destination is reached after exactly the distance in hops, and no router comes up twice. */
  lemma {:induction false} ForwardingIsLoopFree(g: Graph, tables: seq<seq<int>>, x: nat, dest: nat, d: nat)
    requires ValidGraph(g) && Built(g, tables) && x in g.present && dest in g.present && Dist(g, x, dest, d)
    ensures forall n: nat | n <= d :: After(tables, x, dest, n) == dest <==> n == d
    ensures forall m: nat, n: nat | m < n <= d :: After(tables, x, dest, m) != After(tables, x, dest, n)
  {
    hide Dist, ValidGraph, Built, After;
    forall n: nat | n <= d
      ensures After(tables, x, dest, n) == dest <==> n == d
    {
      PathDescends(g, tables, x, dest, d, n);
      if n == d { NowhereElse(g, After(tables, x, dest, n), dest); }
      if After(tables, x, dest, n) == dest { AtHome(g, dest, d - n); }
    }
    forall m: nat, n: nat | m < n <= d
      ensures After(tables, x, dest, m) != After(tables, x, dest, n)
    {
      PathDescends(g, tables, x, dest, d, m);
      PathDescends(g, tables, x, dest, d, n);
      if After(tables, x, dest, m) == After(tables, x, dest, n) {
        DistIsUnique(g, After(tables, x, dest, m), dest, d - m, d - n);
      }
    }
  }

  // ---------------------------------------------------------------------------------------------
  // Packets and queues.
  // ---------------------------------------------------------------------------------------------

  const QUEUEMAX := 10

  const LOCALHOST := 0x7F00_0001

  const HEADER := 16

  /** A packet with its 16-byte header; node is the router it is inserted at. */
  datatype Packet = Packet(node: nat, sourceIp: nat, destIp: nat, sourcePort: nat, destPort: nat, payload: seq<nat>)
  {
    function Length(): nat { HEADER + |payload| }
    function Address(): (nat, nat) { (if destIp == 0 then LOCALHOST else destIp, destPort) }
  }

  /** A packet under way, with the number of links it has crossed. */
  datatype Flight = Flight(packet: Packet, hops: nat)

  datatype Queue = Queue(items: seq<Flight>, size: int, max: nat, dropped: nat)

  function NewQueue(max: nat): Queue
  {
    Queue([], 0, if max == 0 then QUEUEMAX else max, 0)
  }

  function Offer(q: Queue, f: Flight): Queue
  {
    if |q.items| >= q.max then q.(dropped := q.dropped + 1)
    else q.(items := q.items + [f], size := q.size + f.packet.Length())
  }

  function Shift(q: Queue): Queue
    requires q.items != []
  {
    q.(items := q.items[1..], size := q.size - q.items[0].packet.Length())
  }

  function TotalLength(fs: seq<Flight>): nat
  {
    if fs == [] then 0 else TotalLength(fs[..|fs| - 1]) + fs[|fs| - 1].packet.Length()
  }

  lemma {:induction false} TotalOfFirst(fs: seq<Flight>)
    requires fs != []
    ensures TotalLength(fs) == fs[0].packet.Length() + TotalLength(fs[1..])
  {
    if |fs| > 1 {
      TotalOfFirst(fs[..|fs| - 1]);
      assert fs[..|fs| - 1][1..] == fs[1..][..|fs[1..]| - 1];
    }
  }

  /** Never longer than max; size is the sum of the packet lengths. */
  predicate Sound(q: Queue)
  {
    q.max > 0 && |q.items| <= q.max && q.size == TotalLength(q.items)
  }

  lemma {:induction false} OfferIsSound(q: Queue, f: Flight)
    requires Sound(q)
    ensures Sound(Offer(q, f))
  {
    if |q.items| < q.max {
      assert (q.items + [f])[..|q.items|] == q.items;
    }
  }

  lemma {:induction false} ShiftIsSound(q: Queue)
    requires Sound(q) && q.items != []
    ensures Sound(Shift(q))
  {
    TotalOfFirst(q.items);
  }

  datatype Action = Put(flight: Flight) | Take

  /** What a queue does over a history of calls: its state, what it admitted and what was taken from it. */
  datatype Record = Record(queue: Queue, admitted: seq<Flight>, taken: seq<Flight>, refused: nat)

  function Perform(r: Record, a: Action): Record
  {
    match a
    case Put(f) =>
      if |r.queue.items| >= r.queue.max then r.(queue := Offer(r.queue, f), refused := r.refused + 1)
      else r.(queue := Offer(r.queue, f), admitted := r.admitted + [f])
    case Take =>
      if r.queue.items == [] then r
      else r.(queue := Shift(r.queue), taken := r.taken + [r.queue.items[0]])
  }

  function PerformAll(r: Record, actions: seq<Action>): Record
    decreases actions
  {
    if actions == [] then r else PerformAll(Perform(r, actions[0]), actions[1..])
  }

  /** First in, first out over every history: what was taken and then what waits is what was admitted. */
  lemma {:induction false} QueueIsFifo(r: Record, actions: seq<Action>)
    requires Sound(r.queue) && r.admitted == r.taken + r.queue.items && r.queue.dropped == r.refused
    ensures var e := PerformAll(r, actions);
            && Sound(e.queue) && e.queue.max == r.queue.max && e.queue.dropped == e.refused
            && e.admitted == e.taken + e.queue.items
    decreases actions
  {
    if actions != [] {
      if actions[0].Put? {
        OfferIsSound(r.queue, actions[0].flight);
      } else if r.queue.items != [] {
        ShiftIsSound(r.queue);
        assert r.queue.items == [r.queue.items[0]] + r.queue.items[1..];
      }
      var r' := Perform(r, actions[0]);
      assert r'.admitted == r'.taken + r'.queue.items;
      QueueIsFifo(r', actions[1..]);
    }
  }

  function Puts(fs: seq<Flight>): seq<Action> { seq(|fs|, i requires 0 <= i < |fs| => Put(fs[i])) }

  lemma {:induction false} FillsToMax(r: Record, fs: seq<Flight>)
    requires |r.queue.items| <= r.queue.max
    ensures var e, room := PerformAll(r, Puts(fs)), r.queue.max - |r.queue.items|;
            && e.admitted == r.admitted + (if |fs| <= room then fs else fs[..room])
            && e.refused == r.refused + (if |fs| <= room then 0 else |fs| - room)
    decreases fs
  {
    if fs != [] {
      assert Puts(fs)[0] == Put(fs[0]) && Puts(fs)[1..] == Puts(fs[1..]);
      FillsToMax(Perform(r, Put(fs[0])), fs[1..]);
      if |r.queue.items| == r.queue.max { assert fs[1..][..0] == fs[..0]; }
    }
  }

  /** The configured maximum, 10 if it is 0, is the number of packets that a new queue admits before it drops. */
  lemma {:induction false} NewQueueAdmitsMax(max: nat, fs: seq<Flight>)
    ensures var e := PerformAll(Record(NewQueue(max), [], [], 0), Puts(fs));
            && (max > 0 ==> e.admitted == if |fs| <= max then fs else fs[..max])
            && (max == 0 ==> e.admitted == if |fs| <= 10 then fs else fs[..10])
            && e.refused == |fs| - |e.admitted|
  {
    FillsToMax(Record(NewQueue(max), [], [], 0), fs);
  }

  // ---------------------------------------------------------------------------------------------
  // The network.
  // ---------------------------------------------------------------------------------------------

  /** The queue of a router towards one of its neighbours. */
  type Link = (nat, nat)

  datatype Config = Config(g: Graph, tables: seq<seq<int>>, nodes: map<(nat, nat), nat>)

  /** Accepted, delivered and lost are a log: every packet with a known destination that was inserted, and its end. */
  datatype Net = Net(queues: map<Link, Queue>, accepted: seq<Packet>, delivered: seq<(Flight, nat)>, lost: seq<Flight>)

  datatype Event = Insert(packet: Packet) | Forward(link: Link)

  ghost predicate Wired(c: Config, links: set<Link>)
  {
    && ValidGraph(c.g) && Built(c.g, c.tables)
    && (forall a | a in c.nodes :: c.nodes[a] in c.g.present)
    && (forall i: nat, j: nat :: (i, j) in links <==> Edge(c.g, i, j))
  }

  predicate Known(c: Config, p: Packet) { p.Address() in c.nodes }

  function Destination(c: Config, p: Packet): nat
    requires Known(c, p)
  {
    c.nodes[p.Address()]
  }

  /** The queue a packet waiting at a router is put into. */
  function NextLink(c: Config, at: nat, f: Flight): Link
    requires Known(c, f.packet) && at < |c.tables| && Destination(c, f.packet) < |c.tables[at]|
    requires c.tables[at][Destination(c, f.packet)] >= 0
  {
    (at, c.tables[at][Destination(c, f.packet)])
  }

  lemma {:induction false} NextLinkExists(c: Config, links: set<Link>, at: nat, f: Flight)
    requires Wired(c, links) && at in c.g.present && Known(c, f.packet) && Destination(c, f.packet) != at
    ensures at < |c.tables| && Destination(c, f.packet) < |c.tables[at]|
    ensures c.tables[at][Destination(c, f.packet)] >= 0 && NextLink(c, at, f) in links
  {
    hide Dist;
    assert TableOf(c.g, at, c.tables[at]);
    assert Entry(c.g, at, Destination(c, f.packet), c.tables[at][Destination(c, f.packet)]);
  }

  ghost function Receive(c: Config, net: Net, at: nat, f: Flight): (r: Net)
    requires Wired(c, net.queues.Keys) && at in c.g.present
    ensures r.queues.Keys == net.queues.Keys
  {
    if !Known(c, f.packet) then net
    else if Destination(c, f.packet) == at then net.(delivered := net.delivered + [(f, at)])
    else
      NextLinkExists(c, net.queues.Keys, at, f);
      Enqueue(net, NextLink(c, at, f), f)
  }

  function Enqueue(net: Net, link: Link, f: Flight): (r: Net)
    requires link in net.queues
    ensures r.queues.Keys == net.queues.Keys
  {
    var q := net.queues[link];
    Net(net.queues[link := Offer(q, f)], net.accepted, net.delivered,
        if |q.items| >= q.max then net.lost + [f] else net.lost)
  }

  function Dequeue(net: Net, link: Link): (r: Net)
    requires link in net.queues && net.queues[link].items != []
    ensures r.queues.Keys == net.queues.Keys
  {
    net.(queues := net.queues[link := Shift(net.queues[link])])
  }

  function Accept(c: Config, net: Net, p: Packet): Net
  {
    if Known(c, p) then net.(accepted := net.accepted + [p]) else net
  }

  /** The flight at the head of a link, once it has crossed it. */
  function Crossing(net: Net, link: Link): Flight
    requires link in net.queues && net.queues[link].items != []
  {
    var f := net.queues[link].items[0];
    f.(hops := f.hops + 1)
  }

  lemma {:induction false} LinkedIsPresent(c: Config, links: set<Link>, link: Link)
    requires Wired(c, links) && link in links
    ensures link.0 in c.g.present && link.1 in c.g.present && Edge(c.g, link.0, link.1)
  {
    assert link == (link.0, link.1);
  }

  ghost function Step(c: Config, net: Net, e: Event): (r: Net)
    requires Wired(c, net.queues.Keys)
    ensures r.queues.Keys == net.queues.Keys
  {
    match e
    case Insert(p) =>
      if p.node in c.g.present then Receive(c, Accept(c, net, p), p.node, Flight(p, 0)) else net
    case Forward(link) =>
      if link in net.queues && net.queues[link].items != [] then
        LinkedIsPresent(c, net.queues.Keys, link);
        Receive(c, Dequeue(net, link), link.1, Crossing(net, link))
      else net
  }

  ghost function Run(c: Config, net: Net, events: seq<Event>): (r: Net)
    requires Wired(c, net.queues.Keys)
    ensures r.queues.Keys == net.queues.Keys
    decreases events
  {
    if events == [] then net else Run(c, Step(c, net, events[0]), events[1..])
  }

  // ---------------------------------------------------------------------------------------------
  // Every packet is exactly one of delivered, lost or waiting.
  // ---------------------------------------------------------------------------------------------

  function Packets(fs: seq<Flight>): seq<Packet> { seq(|fs|, i requires 0 <= i < |fs| => fs[i].packet) }

  function Landed(ds: seq<(Flight, nat)>): seq<Packet> { seq(|ds|, i requires 0 <= i < |ds| => ds[i].0.packet) }

  ghost function Waiting(queues: map<Link, Queue>, links: set<Link>): multiset<Packet>
    requires links <= queues.Keys
    decreases links
  {
    if links == {} then multiset{}
    else
      var l :| l in links;
      multiset(Packets(queues[l].items)) + Waiting(queues, links - {l})
  }

  /** Where all the packets are. */
  ghost function Account(net: Net): multiset<Packet>
  {
    multiset(Landed(net.delivered)) + multiset(Packets(net.lost)) + Waiting(net.queues, net.queues.Keys)
  }

  ghost predicate Conserved(net: Net)
  {
    multiset(net.accepted) == Account(net)
  }

  /** The order in which links are counted does not matter. */
  lemma {:induction false} WaitingSplit(queues: map<Link, Queue>, links: set<Link>, l: Link)
    requires links <= queues.Keys && l in links
    ensures Waiting(queues, links) == multiset(Packets(queues[l].items)) + Waiting(queues, links - {l})
    decreases links
  {
    var k :| k in links && Waiting(queues, links) == multiset(Packets(queues[k].items)) + Waiting(queues, links - {k});
    if k != l {
      WaitingSplit(queues, links - {k}, l);
      WaitingSplit(queues, links - {l}, k);
      assert links - {k} - {l} == links - {l} - {k};
    }
  }

  lemma {:induction false} WaitingElsewhere(queues: map<Link, Queue>, links: set<Link>, l: Link, q: Queue)
    requires links <= queues.Keys && l !in links
    ensures Waiting(queues[l := q], links) == Waiting(queues, links)
    decreases links
  {
    if links != {} {
      var k :| k in links;
      WaitingSplit(queues, links, k);
      WaitingSplit(queues[l := q], links, k);
      WaitingElsewhere(queues, links - {k}, l, q);
    }
  }

  /** Replacing one queue changes what waits by exactly that queue. */
  lemma {:induction false} WaitingAfter(queues: map<Link, Queue>, l: Link, q: Queue) returns (others: multiset<Packet>)
    requires l in queues
    ensures Waiting(queues, queues.Keys) == multiset(Packets(queues[l].items)) + others
    ensures queues[l := q].Keys == queues.Keys
    ensures Waiting(queues[l := q], queues[l := q].Keys) == multiset(Packets(q.items)) + others
  {
    var keys := queues.Keys;
    assert queues[l := q].Keys == keys;
    WaitingSplit(queues, keys, l);
    WaitingSplit(queues[l := q], keys, l);
    WaitingElsewhere(queues, keys - {l}, l, q);
    others := Waiting(queues, keys - {l});
  }

  lemma {:induction false} PacketsAppend(fs: seq<Flight>, f: Flight)
    ensures multiset(Packets(fs + [f])) == multiset(Packets(fs)) + multiset{f.packet}
  {
    assert Packets(fs + [f]) == Packets(fs) + [f.packet];
  }

  lemma {:induction false} PacketsFirst(fs: seq<Flight>)
    requires fs != []
    ensures multiset(Packets(fs)) == multiset{fs[0].packet} + multiset(Packets(fs[1..]))
  {
    assert Packets(fs) == [fs[0].packet] + Packets(fs[1..]);
  }

  lemma {:induction false} LandedAppend(ds: seq<(Flight, nat)>, d: (Flight, nat))
    ensures multiset(Landed(ds + [d])) == multiset(Landed(ds)) + multiset{d.0.packet}
  {
    assert Landed(ds + [d]) == Landed(ds) + [d.0.packet];
  }

  lemma {:induction false} EnqueueAccounts(net: Net, link: Link, f: Flight)
    requires link in net.queues
    ensures Account(Enqueue(net, link, f)) == Account(net) + multiset{f.packet}
  {
    var q := net.queues[link];
    var others := WaitingAfter(net.queues, link, Offer(q, f));
    hide Waiting, Packets, Landed;
    if |q.items| >= q.max {
      PacketsAppend(net.lost, f);
    } else {
      PacketsAppend(q.items, f);
    }
  }

  lemma {:induction false} DequeueAccounts(net: Net, link: Link)
    requires link in net.queues && net.queues[link].items != []
    ensures Account(net) == Account(Dequeue(net, link)) + multiset{Crossing(net, link).packet}
  {
    var q := net.queues[link];
    var others := WaitingAfter(net.queues, link, Shift(q));
    hide Waiting, Packets, Landed;
    PacketsFirst(q.items);
  }

  lemma {:induction false} ReceiveAccounts(c: Config, net: Net, at: nat, f: Flight)
    requires Wired(c, net.queues.Keys) && at in c.g.present && Known(c, f.packet)
    ensures Account(Receive(c, net, at, f)) == Account(net) + multiset{f.packet}
    ensures Receive(c, net, at, f).accepted == net.accepted
  {
    hide Wired;
    if Destination(c, f.packet) == at {
      LandedAppend(net.delivered, (f, at));
    } else {
      NextLinkExists(c, net.queues.Keys, at, f);
      EnqueueAccounts(net, NextLink(c, at, f), f);
    }
  }

  // ---------------------------------------------------------------------------------------------
  // Where a flight is.
  // ---------------------------------------------------------------------------------------------

  /** The flight has come its hops closer to its destination: the hops made and the hops left add up to D. */
  ghost predicate OnCourse(c: Config, f: Flight, at: nat, d: nat)
  {
    && Known(c, f.packet) && f.packet.node in c.g.present && at in c.g.present
    && f.hops <= d
    && Dist(c.g, f.packet.node, Destination(c, f.packet), d)
    && Dist(c.g, at, Destination(c, f.packet), d - f.hops)
  }

  ghost predicate Underway(c: Config, f: Flight, at: nat) { exists d: nat :: OnCourse(c, f, at, d) }

  /** A flight on a link is there because the table of the router before it says so. */
  ghost predicate OnLink(c: Config, link: Link, f: Flight)
  {
    && Underway(c, f, link.0)
    && Known(c, f.packet) && Destination(c, f.packet) != link.0
    && link.0 < |c.tables| && Destination(c, f.packet) < |c.tables[link.0]|
    && c.tables[link.0][Destination(c, f.packet)] == link.1
  }

  ghost predicate QueueOnCourse(c: Config, link: Link, q: Queue)
  {
    Sound(q) && forall f | f in q.items :: OnLink(c, link, f)
  }

  /** Delivered where it was bound, after exactly the distance from where it was inserted. */
  ghost predicate Arrived(c: Config, d: (Flight, nat))
  {
    && Known(c, d.0.packet) && d.1 == Destination(c, d.0.packet)
    && Dist(c.g, d.0.packet.node, d.1, d.0.hops)
  }

  /** The node file names this router for the address and port in the header, where the address 0.0.0.0 stands
      for 127.0.0.1. */
  ghost predicate BoundFor(c: Config, p: Packet, router: nat)
  {
    && (p.destIp != 0 ==> (p.destIp, p.destPort) in c.nodes && c.nodes[(p.destIp, p.destPort)] == router)
    && (p.destIp == 0 ==> (0x7F00_0001, p.destPort) in c.nodes && c.nodes[(0x7F00_0001, p.destPort)] == router)
  }

  lemma {:induction false} ArrivedIsBoundFor(c: Config, d: (Flight, nat))
    requires Arrived(c, d)
    ensures BoundFor(c, d.0.packet, d.1)
  {
  }

  /** Dropped at a full queue on the way, before its distance was covered. */
  ghost predicate LostOnTheWay(c: Config, f: Flight)
  {
    && Known(c, f.packet)
    && exists d: nat :: f.hops < d && Dist(c.g, f.packet.node, Destination(c, f.packet), d)
  }

  ghost predicate AllOnCourse(c: Config, net: Net)
  {
    && (forall l | l in net.queues :: QueueOnCourse(c, l, net.queues[l]))
    && (forall d | d in net.delivered :: Arrived(c, d))
    && (forall f | f in net.lost :: LostOnTheWay(c, f))
  }

  ghost predicate Inv(c: Config, net: Net)
  {
    Wired(c, net.queues.Keys) && AllOnCourse(c, net) && Conserved(net)
  }

  lemma {:induction false} StartIsUnderway(c: Config, links: set<Link>, p: Packet)
    requires Wired(c, links) && p.node in c.g.present && Known(c, p)
    ensures Underway(c, Flight(p, 0), p.node)
  {
    var dest := Destination(c, p);
    if dest == p.node {
      assert Walk(c.g, dest, dest, 0);
      assert OnCourse(c, Flight(p, 0), p.node, 0);
    } else {
      assert TableOf(c.g, p.node, c.tables[p.node]);
      assert Entry(c.g, p.node, dest, c.tables[p.node][dest]);
      hide Dist;
      var d: nat :| Dist(c.g, p.node, dest, d + 1);
      assert OnCourse(c, Flight(p, 0), p.node, d + 1);
    }
  }

  lemma {:induction false} CrossingIsUnderway(c: Config, links: set<Link>, link: Link, f: Flight)
    requires Wired(c, links) && OnLink(c, link, f)
    ensures Underway(c, Flight(f.packet, f.hops + 1), link.1)
  {
    hide Dist, ValidGraph, Built;
    var d: nat :| OnCourse(c, f, link.0, d);
    HopIsCloser(c.g, c.tables, link.0, Destination(c, f.packet), d - f.hops);
    assert OnCourse(c, Flight(f.packet, f.hops + 1), link.1, d);
  }

  lemma {:induction false} HomeIsArrived(c: Config, f: Flight, at: nat)
    requires Underway(c, f, at) && at == Destination(c, f.packet)
    ensures Arrived(c, (f, at))
  {
    hide Dist;
    var d: nat :| OnCourse(c, f, at, d);
    AtHome(c.g, at, d - f.hops);
  }

  lemma {:induction false} DroppedIsLost(c: Config, f: Flight, at: nat)
    requires Underway(c, f, at) && at != Destination(c, f.packet)
    ensures LostOnTheWay(c, f)
  {
    hide Dist;
    var d: nat :| OnCourse(c, f, at, d);
    if d == f.hops { NowhereElse(c.g, at, Destination(c, f.packet)); }
  }

  lemma {:induction false} OfferOnCourse(c: Config, link: Link, q: Queue, f: Flight)
    requires QueueOnCourse(c, link, q) && OnLink(c, link, f)
    ensures QueueOnCourse(c, link, Offer(q, f))
  {
    hide OnLink;
    OfferIsSound(q, f);
  }

  lemma {:induction false} ShiftOnCourse(c: Config, link: Link, q: Queue)
    requires QueueOnCourse(c, link, q) && q.items != []
    ensures QueueOnCourse(c, link, Shift(q)) && OnLink(c, link, q.items[0])
  {
    hide OnLink;
    ShiftIsSound(q);
  }

  lemma {:induction false} EnqueueOnCourse(c: Config, net: Net, link: Link, f: Flight)
    requires AllOnCourse(c, net) && link in net.queues && OnLink(c, link, f) && LostOnTheWay(c, f)
    ensures AllOnCourse(c, Enqueue(net, link, f))
  {
    OfferOnCourse(c, link, net.queues[link], f);
    hide QueueOnCourse, OnLink, Arrived, LostOnTheWay, Offer;
  }

  lemma {:induction false} ReceiveOnCourse(c: Config, net: Net, at: nat, f: Flight)
    requires Wired(c, net.queues.Keys) && AllOnCourse(c, net) && Underway(c, f, at) && at in c.g.present
    ensures AllOnCourse(c, Receive(c, net, at, f))
  {
    hide Wired, QueueOnCourse, Arrived, LostOnTheWay, Underway, Enqueue;
    if Known(c, f.packet) {
      if Destination(c, f.packet) == at {
        HomeIsArrived(c, f, at);
      } else {
        NextLinkExists(c, net.queues.Keys, at, f);
        DroppedIsLost(c, f, at);
        EnqueueOnCourse(c, net, NextLink(c, at, f), f);
      }
    }
  }

  lemma {:induction false} DequeueOnCourse(c: Config, net: Net, link: Link)
    requires AllOnCourse(c, net) && link in net.queues && net.queues[link].items != []
    ensures AllOnCourse(c, Dequeue(net, link)) && OnLink(c, link, net.queues[link].items[0])
  {
    ShiftOnCourse(c, link, net.queues[link]);
    hide QueueOnCourse, OnLink, Arrived, LostOnTheWay;
  }

  lemma {:induction false} InsertKeepsInv(c: Config, net: Net, p: Packet)
    requires Inv(c, net)
    ensures Inv(c, Step(c, net, Insert(p)))
  {
    if p.node in c.g.present && Known(c, p) {
      var net0 := Accept(c, net, p);
      assert Account(net0) == Account(net);
      StartIsUnderway(c, net.queues.Keys, p);
      ReceiveOnCourse(c, net0, p.node, Flight(p, 0));
      ReceiveAccounts(c, net0, p.node, Flight(p, 0));
      hide Wired, AllOnCourse, Account, Receive;
    }
  }

  lemma {:induction false} ForwardKeepsInv(c: Config, net: Net, link: Link)
    requires Inv(c, net)
    ensures Inv(c, Step(c, net, Forward(link)))
  {
    if link in net.queues && net.queues[link].items != [] {
      LinkedIsPresent(c, net.queues.Keys, link);
      DequeueOnCourse(c, net, link);
      DequeueAccounts(net, link);
      var f := Crossing(net, link);
      CrossingIsUnderway(c, net.queues.Keys, link, net.queues[link].items[0]);
      hide Wired, AllOnCourse, OnLink, Account, Receive;
      ReceiveOnCourse(c, Dequeue(net, link), link.1, f);
      ReceiveAccounts(c, Dequeue(net, link), link.1, f);
    }
  }

  /** In every run of insertions and crossings, in any order. */
  lemma {:induction false} RunKeepsInv(c: Config, net: Net, events: seq<Event>)
    requires Inv(c, net)
    ensures Inv(c, Run(c, net, events))
    decreases events
  {
    if events != [] {
      match events[0] {
        case Insert(p) => InsertKeepsInv(c, net, p);
        case Forward(link) => ForwardKeepsInv(c, net, link);
      }
      hide Inv, Step;
      RunKeepsInv(c, Step(c, net, events[0]), events[1..]);
    }
  }

  ghost predicate Fresh(c: Config, net: Net)
  {
    && Wired(c, net.queues.Keys) && net.accepted == [] && net.delivered == [] && net.lost == []
    && forall l | l in net.queues :: exists max: nat :: net.queues[l] == NewQueue(max)
  }

  lemma {:induction false} NothingWaits(queues: map<Link, Queue>, links: set<Link>)
    requires links <= queues.Keys && forall l | l in links :: queues[l].items == []
    ensures Waiting(queues, links) == multiset{}
    decreases links
  {
    if links != {} {
      var l :| l in links;
      WaitingSplit(queues, links, l);
      NothingWaits(queues, links - {l});
    }
  }

  lemma {:induction false} FreshInv(c: Config, net: Net)
    requires Fresh(c, net)
    ensures Inv(c, net)
  {
    NothingWaits(net.queues, net.queues.Keys);
  }

  /** Conservation, queue bounds, and every delivery after exactly the distance in hops, in all runs. */
  lemma {:induction false} NetworkIsSound(c: Config, net: Net, events: seq<Event>)
    requires Fresh(c, net)
    ensures var e := Run(c, net, events);
            && multiset(e.accepted) ==
               multiset(Landed(e.delivered)) + multiset(Packets(e.lost)) + Waiting(e.queues, e.queues.Keys)
            && (forall l | l in e.queues :: Sound(e.queues[l]))
            && (forall d | d in e.delivered :: Arrived(c, d) && BoundFor(c, d.0.packet, d.1))
            && (forall f | f in e.lost :: LostOnTheWay(c, f))
  {
    FreshInv(c, net);
    RunKeepsInv(c, net, events);
    forall d | d in Run(c, net, events).delivered
      ensures BoundFor(c, d.0.packet, d.1)
    {
      ArrivedIsBoundFor(c, d);
    }
    hide BoundFor;
    hide Wired, Fresh, Run, Arrived, LostOnTheWay, Waiting, Sound, OnLink;
  }

  // ---------------------------------------------------------------------------------------------
  // The network drains.
  // ---------------------------------------------------------------------------------------------

  /** The links a flight may still cross. */
  function Ahead(bound: nat, f: Flight): nat { if f.hops < bound then bound - f.hops else 0 }

  function QueueEffort(bound: nat, fs: seq<Flight>): nat
  {
    if fs == [] then 0 else Ahead(bound, fs[0]) + QueueEffort(bound, fs[1..])
  }

  ghost function Effort(bound: nat, queues: map<Link, Queue>, links: set<Link>): nat
    requires links <= queues.Keys
    decreases links
  {
    if links == {} then 0
    else
      var l :| l in links;
      QueueEffort(bound, queues[l].items) + Effort(bound, queues, links - {l})
  }

  lemma {:induction false} EffortSplit(bound: nat, queues: map<Link, Queue>, links: set<Link>, l: Link)
    requires links <= queues.Keys && l in links
    ensures Effort(bound, queues, links) == QueueEffort(bound, queues[l].items) + Effort(bound, queues, links - {l})
    decreases links
  {
    var k :| k in links
      && Effort(bound, queues, links) == QueueEffort(bound, queues[k].items) + Effort(bound, queues, links - {k});
    if k != l {
      EffortSplit(bound, queues, links - {k}, l);
      EffortSplit(bound, queues, links - {l}, k);
      assert links - {k} - {l} == links - {l} - {k};
    }
  }

  lemma {:induction false} EffortElsewhere(bound: nat, queues: map<Link, Queue>, links: set<Link>, l: Link, q: Queue)
    requires links <= queues.Keys && l !in links
    ensures Effort(bound, queues[l := q], links) == Effort(bound, queues, links)
    decreases links
  {
    if links != {} {
      var k :| k in links;
      EffortSplit(bound, queues, links, k);
      EffortSplit(bound, queues[l := q], links, k);
      EffortElsewhere(bound, queues, links - {k}, l, q);
    }
  }

  ghost function NetEffort(bound: nat, net: Net): nat { Effort(bound, net.queues, net.queues.Keys) }

  lemma {:induction false} EffortAfter(bound: nat, queues: map<Link, Queue>, l: Link, q: Queue)
    requires l in queues
    ensures queues[l := q].Keys == queues.Keys
    ensures Effort(bound, queues[l := q], queues.Keys) - Effort(bound, queues, queues.Keys)
         == QueueEffort(bound, q.items) - QueueEffort(bound, queues[l].items)
  {
    assert queues[l := q].Keys == queues.Keys;
    EffortSplit(bound, queues, queues.Keys, l);
    EffortSplit(bound, queues[l := q], queues.Keys, l);
    EffortElsewhere(bound, queues, queues.Keys - {l}, l, q);
  }

  lemma {:induction false} EffortAppend(bound: nat, fs: seq<Flight>, f: Flight)
    ensures QueueEffort(bound, fs + [f]) == QueueEffort(bound, fs) + Ahead(bound, f)
    decreases fs
  {
    if fs != [] {
      assert (fs + [f])[1..] == fs[1..] + [f];
      EffortAppend(bound, fs[1..], f);
    }
  }

  lemma {:induction false} ReceiveEffort(bound: nat, c: Config, net: Net, at: nat, f: Flight)
    requires Wired(c, net.queues.Keys) && at in c.g.present
    ensures NetEffort(bound, Receive(c, net, at, f)) <= NetEffort(bound, net) + Ahead(bound, f)
  {
    hide Wired;
    if Known(c, f.packet) && Destination(c, f.packet) != at {
      NextLinkExists(c, net.queues.Keys, at, f);
      var link := NextLink(c, at, f);
      var q := net.queues[link];
      EffortAfter(bound, net.queues, link, Offer(q, f));
      EffortAppend(bound, q.items, f);
    }
  }

  /** The number of routers bounds the hops of a flight. */
  lemma {:induction false} HopsAreFew(c: Config, links: set<Link>, link: Link, f: Flight)
    requires Wired(c, links) && OnLink(c, link, f)
    ensures f.hops < |c.g.present|
  {
    hide Dist, ValidGraph, Built;
    var d: nat :| OnCourse(c, f, link.0, d);
    DistBelowSize(c.g, f.packet.node, Destination(c, f.packet), d);
  }

  /** Every crossing uses up some of a bounded effort. */
  lemma {:induction false} CrossingLowersEffort(c: Config, net: Net, link: Link)
    requires Inv(c, net) && link in net.queues && net.queues[link].items != []
    ensures NetEffort(|c.g.present|, Step(c, net, Forward(link))) < NetEffort(|c.g.present|, net)
  {
    LinkedIsPresent(c, net.queues.Keys, link);
    DequeueOnCourse(c, net, link);
    HopsAreFew(c, net.queues.Keys, link, net.queues[link].items[0]);
    hide Inv, Wired, OnLink, AllOnCourse, Effort, Receive;
    var bound := |c.g.present|;
    ReceiveEffort(bound, c, Dequeue(net, link), link.1, Crossing(net, link));
    EffortAfter(bound, net.queues, link, Shift(net.queues[link]));
  }

  /** How often a queue had a packet to forward. */
  ghost function Crossings(c: Config, net: Net, events: seq<Event>): nat
    requires Wired(c, net.queues.Keys)
    decreases events
  {
    if events == [] then 0
    else
      var e := events[0];
      (if e.Forward? && e.link in net.queues && net.queues[e.link].items != [] then 1 else 0)
      + Crossings(c, Step(c, net, e), events[1..])
  }

  /** With no more insertions there are only so many crossings, however the queues are picked. */
  lemma {:induction false} NetworkDrains(c: Config, net: Net, events: seq<Event>)
    requires Inv(c, net) && forall e | e in events :: e.Forward?
    ensures Crossings(c, net, events) + NetEffort(|c.g.present|, Run(c, net, events)) <= NetEffort(|c.g.present|, net)
    decreases events
  {
    if events != [] {
      var link := events[0].link;
      ForwardKeepsInv(c, net, link);
      if link in net.queues && net.queues[link].items != [] {
        CrossingLowersEffort(c, net, link);
      }
      assert forall e | e in events[1..] :: e in events;
      hide Inv, NetEffort;
      NetworkDrains(c, Step(c, net, events[0]), events[1..]);
    }
  }
}
