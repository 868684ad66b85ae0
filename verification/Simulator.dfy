/** The queues and routers of hupsim.pl as objects, tied step by step to the network of Forwarding. */
module Simulator {
  import opened Graphs
  import opened Forwarding
  import Routing

  class NSQueue {
    const max: nat
    var queue: seq<Flight>
    var size: int
    var dropped: nat

    constructor (max: nat)
      ensures Value() == NewQueue(max)
    {
      this.max := if max == 0 then QUEUEMAX else max;
      queue, size, dropped := [], 0, 0;
    }

    function Value(): Queue
      reads this
    {
      Queue(queue, size, max, dropped)
    }

    method EnQ(f: Flight)
      modifies this
      ensures Value() == Offer(old(Value()), f)
    {
      if |queue| >= max {
        dropped := dropped + 1;
      } else {
        queue := queue + [f];
        size := size + f.packet.Length();
      }
    }

    method TakeFirst() returns (f: Flight)
      requires queue != []
      modifies this
      ensures f == old(queue)[0] && Value() == Shift(old(Value()))
    {
      f := queue[0];
      queue := queue[1..];
      size := size - f.packet.Length();
    }
  }

  /** All routers; routes holds the queue of each router towards each of its neighbours. */
  class Routers {
    const config: Config
    const routes: map<Link, NSQueue>
    var sent: seq<(Flight, nat)>
    ghost var accepted: seq<Packet>
    ghost var lost: seq<Flight>

    ghost predicate Valid()
    {
      && Wired(config, routes.Keys)
      && forall l, m | l in routes && m in routes && l != m :: routes[l] != routes[m]
    }

    constructor (config: Config, routes: map<Link, NSQueue>)
      requires Wired(config, routes.Keys)
      requires forall l, m | l in routes && m in routes && l != m :: routes[l] != routes[m]
      requires forall l | l in routes :: exists max: nat :: routes[l].Value() == NewQueue(max)
      ensures Valid() && this.config == config && this.routes == routes
      ensures Fresh(config, State())
    {
      this.config, this.routes := config, routes;
      sent, accepted, lost := [], [], [];
    }

    ghost function State(): (net: Net)
      reads this, routes.Values
      ensures net.queues.Keys == routes.Keys
    {
      Net(map l | l in routes :: routes[l].Value(), accepted, sent, lost)
    }

    method EnQ(link: Link, f: Flight)
      requires Valid() && link in routes
      modifies this`lost, routes[link]
      ensures State() == Enqueue(old(State()), link, f)
    {
      hide Wired, Offer;
      ghost var q := routes[link].Value();
      routes[link].EnQ(f);
      lost := if |q.items| >= q.max then lost + [f] else lost;
    }

    method TakeFirst(link: Link) returns (f: Flight)
      requires Valid() && link in routes && routes[link].queue != []
      modifies routes[link]
      ensures State() == Dequeue(old(State()), link)
      ensures f == old(State()).queues[link].items[0]
    {
      hide Wired, Shift;
      f := routes[link].TakeFirst();
    }

    /** A packet at a router: sent to its node, put into the queue of its route, or ignored. */
    method Recv(at: nat, f: Flight)
      requires Valid() && at in config.g.present
      modifies this`sent, this`lost, routes.Values
      ensures State() == Receive(config, old(State()), at, f)
    {
      hide Wired, Enqueue;
      if f.packet.Address() in config.nodes {
        var dest := config.nodes[f.packet.Address()];
        if dest == at {
          sent := sent + [(f, at)];
        } else {
          NextLinkExists(config, routes.Keys, at, f);
          EnQ((at, config.tables[at][dest]), f);
        }
      }
    }

    /** A packet from the socket enters at the router its header names, if there is one. */
    method Insert(p: Packet)
      requires Valid()
      modifies this`sent, this`lost, this`accepted, routes.Values
      ensures State() == Step(config, old(State()), Event.Insert(p))
    {
      hide Wired, Receive;
      if p.node in config.g.present {
        if p.Address() in config.nodes { accepted := accepted + [p]; }
        assert State() == Accept(config, old(State()), p);
        Recv(p.node, Flight(p, 0));
      }
    }

    /** The head of one queue crosses its link. */
    method Cross(link: Link)
      requires Valid() && link in routes && routes[link].queue != []
      modifies this`sent, this`lost, routes.Values
      ensures State() == Step(config, old(State()), Forward(link))
    {
      hide Wired, Receive, Dequeue;
      LinkedIsPresent(config, routes.Keys, link);
      var f := TakeFirst(link);
      Recv(link.1, f.(hops := f.hops + 1));
    }

    /** One queue forwards its packets until none is left or the next is not due. */
    method DrainQueue(link: Link, due: nat)
      requires Valid() && link in routes
      modifies this`sent, this`lost, routes.Values
      ensures State() == Drain(config, old(State()), link, due)
    {
      hide Wired, Step;
      var left := due;
      while left > 0 && routes[link].queue != []
        invariant Drain(config, State(), link, left) == Drain(config, old(State()), link, due)
      {
        Cross(link);
        left := left - 1;
      }
    }

    /** One router forwards what has come due: at most due[j] packets of its queue towards j. */
    method RunRouter(at: nat, due: seq<nat>)
      requires Valid() && |due| == config.g.size
      modifies this`sent, this`lost, routes.Values
      ensures State() == DrainAll(config, old(State()), at, due, |due|)
    {
      hide Wired, Drain;
      for j := 0 to |due|
        invariant State() == DrainAll(config, old(State()), at, due, j)
      {
        if (at, j) in routes { DrainQueue((at, j), due[j]); }
      }
    }
  }

  /** The links of the routers numbered below i. */
  ghost predicate RoutesBelow(vs: Routing.Vertexes, i: nat, j: nat, routes: map<Link, NSQueue>)
  {
    forall a: nat, b: nat :: (a, b) in routes <==>
      a < |vs| && b in Routing.LinksOf(vs[a]) && (a < i || (a == i && b < j))
  }

  ghost predicate Separate(routes: map<Link, NSQueue>)
  {
    forall l, m | l in routes && m in routes && l != m :: routes[l] != routes[m]
  }

  lemma {:induction false} RowDone(vs: Routing.Vertexes, i: nat, routes: map<Link, NSQueue>)
    requires Routing.Registered(vs) && i < |vs| && RoutesBelow(vs, i, |vs|, routes)
    ensures RoutesBelow(vs, i + 1, 0, routes)
  {
    forall b: nat | b in Routing.LinksOf(vs[i])
      ensures b < |vs|
    {
      Routing.LinkedIsVertex(vs, i, b);
    }
  }

  /** One queue for every direction of every line of the topology, each with its own maximum. */
  method MakeRoutes(vs: Routing.Vertexes, queueMax: Link -> nat) returns (routes: map<Link, NSQueue>)
    requires Routing.Registered(vs)
    ensures RoutesBelow(vs, |vs|, 0, routes) && Separate(routes)
    ensures forall l | l in routes :: fresh(routes[l]) && routes[l].Value() == NewQueue(queueMax(l))
  {
    routes := map[];
    for i := 0 to |vs|
      invariant RoutesBelow(vs, i, 0, routes) && Separate(routes)
      invariant forall l | l in routes :: fresh(routes[l]) && routes[l].Value() == NewQueue(queueMax(l))
    {
      for j := 0 to |vs|
        invariant RoutesBelow(vs, i, j, routes) && Separate(routes)
        invariant forall l | l in routes :: fresh(routes[l]) && routes[l].Value() == NewQueue(queueMax(l))
      {
        if j in Routing.LinksOf(vs[i]) {
          var q := new NSQueue(queueMax((i, j)));
          routes := routes[(i, j) := q];
        }
      }
      RowDone(vs, i, routes);
    }
  }

  /** The whole simulator: all routing tables over a connected topology, and empty queues. */
  method Start(vs: Routing.Vertexes, nodes: map<(nat, nat), nat>, queueMax: Link -> nat) returns (r: Routers)
    requires Routing.Registered(vs) && Connected(Routing.GraphOf(vs))
    requires |Routing.GraphOf(vs).present| <= Routing.INFINITY
    requires forall a | a in nodes :: nodes[a] in Routing.GraphOf(vs).present
    modifies Routing.Routers(vs)
    ensures r.Valid() && r.config == Config(Routing.GraphOf(vs), Routing.TablesOf(vs), nodes)
    ensures Fresh(r.config, r.State())
    ensures forall l | l in r.routes :: r.routes[l].max == NewQueue(queueMax(l)).max
  {
    Routing.BuildAll(vs);
    var config := Config(Routing.GraphOf(vs), Routing.TablesOf(vs), nodes);
    var routes := MakeRoutes(vs, queueMax);
    LinksAreEdges(vs, routes);
    r := new Routers(config, routes);
  }

  lemma {:induction false} LinksAreEdges(vs: Routing.Vertexes, routes: map<Link, NSQueue>)
    requires Routing.Registered(vs) && RoutesBelow(vs, |vs|, 0, routes)
    ensures forall i: nat, j: nat :: (i, j) in routes <==> Edge(Routing.GraphOf(vs), i, j)
  {
  }

  ghost function Drain(c: Config, net: Net, link: Link, due: nat): (r: Net)
    requires Wired(c, net.queues.Keys) && link in net.queues
    ensures r.queues.Keys == net.queues.Keys
    decreases due
  {
    if due == 0 || net.queues[link].items == [] then net
    else Drain(c, Step(c, net, Forward(link)), link, due - 1)
  }

  ghost function DrainAll(c: Config, net: Net, at: nat, due: seq<nat>, j: nat): (r: Net)
    requires Wired(c, net.queues.Keys) && j <= |due|
    ensures r.queues.Keys == net.queues.Keys
    decreases j
  {
    if j == 0 then net
    else
      var n := DrainAll(c, net, at, due, j - 1);
      if (at, j - 1) in n.queues then Drain(c, n, (at, j - 1), due[j - 1]) else n
  }

  /** No router is its own next hop, so what crosses a link never comes back to a queue of the same router. */
  lemma {:induction false} NextHopIsElsewhere(c: Config, links: set<Link>, link: Link, f: Flight)
    requires Wired(c, links) && OnLink(c, link, f)
    ensures link.1 != link.0
  {
    hide Dist, ValidGraph, Routing.Built;
    var d: nat :| OnCourse(c, f, link.0, d);
    HopIsCloser(c.g, c.tables, link.0, Destination(c, f.packet), d - f.hops);
    if link.1 == link.0 { DistIsUnique(c.g, link.0, Destination(c, f.packet), d - f.hops, d - f.hops - 1); }
  }

  /** A packet received at another router leaves the queues of this one alone. */
  lemma {:induction false} ReceiveElsewhere(c: Config, net: Net, at: nat, f: Flight, link: Link)
    requires Wired(c, net.queues.Keys) && at in c.g.present && link in net.queues && link.0 != at
    ensures Receive(c, net, at, f).queues[link] == net.queues[link]
  {
    hide Wired, Offer;
    if Known(c, f.packet) && Destination(c, f.packet) != at {
      NextLinkExists(c, net.queues.Keys, at, f);
    }
  }

  /** A crossing takes the head of its queue and nothing from the other queues of the router. */
  lemma {:induction false} CrossingTakesHead(c: Config, net: Net, link: Link, other: Link)
    requires Inv(c, net) && link in net.queues && net.queues[link].items != []
    requires other in net.queues && other.0 == link.0
    ensures var t := Step(c, net, Forward(link));
            t.queues[other].items == if other == link then net.queues[link].items[1..] else net.queues[other].items
  {
    DequeueOnCourse(c, net, link);
    NextHopIsElsewhere(c, net.queues.Keys, link, net.queues[link].items[0]);
    LinkedIsPresent(c, net.queues.Keys, link);
    hide Inv, Wired, OnLink, Receive;
    ReceiveElsewhere(c, Dequeue(net, link), link.1, Crossing(net, link), other);
  }

  function Least(a: nat, b: nat): nat { if a < b then a else b }

  /** Draining takes the first due packets of the queue, or all if there are fewer, and leaves the other queues. */
  lemma {:induction false} DrainTakesDue(c: Config, net: Net, link: Link, due: nat, other: Link)
    requires Inv(c, net) && Wired(c, net.queues.Keys) && link in net.queues && other in net.queues && other.0 == link.0
    ensures var t := Drain(c, net, link, due);
            && Inv(c, t)
            && t.queues[other].items ==
               if other == link then net.queues[link].items[Least(due, |net.queues[link].items|)..] else net.queues[other].items
    decreases due
  {
    hide Inv, Wired, Step;
    if due > 0 && net.queues[link].items != [] {
      CrossingTakesHead(c, net, link, other);
      ForwardKeepsInv(c, net, link);
      CrossingTakesHead(c, net, link, link);
      var t := Step(c, net, Forward(link));
      DrainTakesDue(c, t, link, due - 1, other);
      LaterItems(net.queues[link].items, due);
    }
  }

  lemma {:induction false} LaterItems(items: seq<Flight>, due: nat)
    requires items != [] && due > 0
    ensures items[1..][Least(due - 1, |items| - 1)..] == items[Least(due, |items|)..]
  {
  }

  /** One turn of a router: every queue has given up exactly its due packets, from the front. */
  lemma {:induction false} TurnTakesDue(c: Config, net: Net, at: nat, due: seq<nat>, j: nat, k: nat)
    requires Inv(c, net) && Wired(c, net.queues.Keys) && j <= |due| && k < |due| && (at, k) in net.queues
    ensures var t := DrainAll(c, net, at, due, j);
            && Inv(c, t)
            && t.queues[(at, k)].items == net.queues[(at, k)].items[if k < j then Least(due[k], |net.queues[(at, k)].items|) else 0..]
    decreases j
  {
    hide Inv, Wired, Drain;
    if j > 0 {
      TurnTakesDue(c, net, at, due, j - 1, k);
      var n := DrainAll(c, net, at, due, j - 1);
      if (at, j - 1) in n.queues {
        DrainTakesDue(c, n, (at, j - 1), due[j - 1], (at, k));
      }
    }
  }

  /** m crossings of one link. */
  function Crosses(link: Link, m: nat): seq<Event> { seq(m, i => Forward(link)) }

  /** The crossings of a turn: queue by queue in order, each as often as it has due packets. */
  function TurnEvents(net: Net, at: nat, due: seq<nat>, j: nat): seq<Event>
    requires j <= |due|
    decreases j
  {
    if j == 0 then []
    else
      TurnEvents(net, at, due, j - 1) +
      if (at, j - 1) in net.queues
      then Crosses((at, j - 1), Least(due[j - 1], |net.queues[(at, j - 1)].items|)) else []
  }

  lemma {:induction false} DrainIsCrosses(c: Config, net: Net, link: Link, due: nat)
    requires Inv(c, net) && Wired(c, net.queues.Keys) && link in net.queues
    ensures Drain(c, net, link, due) == Run(c, net, Crosses(link, Least(due, |net.queues[link].items|)))
    decreases due
  {
    hide Inv, Wired, Step;
    var m := Least(due, |net.queues[link].items|);
    if m > 0 {
      CrossingTakesHead(c, net, link, link);
      ForwardKeepsInv(c, net, link);
      DrainIsCrosses(c, Step(c, net, Forward(link)), link, due - 1);
      assert Crosses(link, m)[0] == Forward(link) && Crosses(link, m)[1..] == Crosses(link, m - 1);
    }
  }

  lemma {:induction false} RunConcat(c: Config, net: Net, xs: seq<Event>, ys: seq<Event>)
    requires Wired(c, net.queues.Keys)
    ensures Run(c, net, xs + ys) == Run(c, Run(c, net, xs), ys)
    decreases xs
  {
    hide Wired, Step;
    if xs == [] {
      assert xs + ys == ys;
    } else {
      assert (xs + ys)[1..] == xs[1..] + ys;
      RunConcat(c, Step(c, net, xs[0]), xs[1..], ys);
    }
  }

  /** What a router does in one turn is this run of the network, so all that holds in every run holds of it. */
  lemma {:induction false} RouterTurnIsRun(c: Config, net: Net, at: nat, due: seq<nat>, j: nat)
    requires Inv(c, net) && Wired(c, net.queues.Keys) && j <= |due|
    ensures DrainAll(c, net, at, due, j) == Run(c, net, TurnEvents(net, at, due, j))
    decreases j
  {
    hide Inv, Wired, Drain, Crosses;
    if j > 0 {
      RouterTurnIsRun(c, net, at, due, j - 1);
      var n := DrainAll(c, net, at, due, j - 1);
      if (at, j - 1) in n.queues {
        TurnTakesDue(c, net, at, due, j - 1, j - 1);
        DrainIsCrosses(c, n, (at, j - 1), due[j - 1]);
        RunConcat(c, net, TurnEvents(net, at, due, j - 1),
                  Crosses((at, j - 1), Least(due[j - 1], |net.queues[(at, j - 1)].items|)));
      } else {
        assert TurnEvents(net, at, due, j) == TurnEvents(net, at, due, j - 1);
      }
    }
  }
}
