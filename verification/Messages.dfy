/** What the download scheduler says on the network, and what a sweep of timeouts does to every connection. */
module Messages {
  import opened Discovery
  import opened Download
  import opened Ownership
  import opened Scheduler
  import Transfer

  function ReplyMessages(reply: Transfer.Reply): seq<Message>
  {
    match reply
    case Silence => []
    case AckReply(n) => [Ack(n)]
  }

  /** The GET for the chunk that a peer's connection is downloading. */
  function GetOf(st: State, peer: nat): seq<Message>
    requires Heads(st)
  {
    var c := FindConn(st.conns, peer, 0);
    if c < 0 then [] else [Message.Get(st.chunks[st.conns[c].chunks[0]].hash)]
  }

  lemma {:induction false} OtherPeer(conns: seq<Connection>, peer: nat, d: nat)
    requires d <= |conns| && forall c | d <= c < |conns| :: conns[c].provider != peer
    ensures FindConn(conns, peer, d) == -1
    decreases |conns| - d
  {
    if d < |conns| { OtherPeer(conns, peer, d + 1); }
  }

  lemma {:induction false} SamePlace(conns: seq<Connection>, conns': seq<Connection>, peer: nat, d: nat)
    requires |conns'| == |conns| && d <= |conns|
    requires forall c | 0 <= c < |conns| :: conns'[c].provider == conns[c].provider
    ensures FindConn(conns', peer, d) == FindConn(conns, peer, d)
    decreases |conns| - d
  {
    if d < |conns| { SamePlace(conns, conns', peer, d + 1); }
  }

  /** A connection that is dropped is not found any more: there was only one with its peer. */
  lemma {:induction false} Dropped(conns: seq<Connection>, peer: nat, c: nat)
    requires OnePerPeer(conns) && c < |conns| && conns[c].provider == peer
    ensures FindConn(conns[..c] + conns[c + 1..], peer, 0) == -1
  {
    OtherPeer(conns[..c] + conns[c + 1..], peer, 0);
  }

  // ---------------------------------------------------------------------------------------------
  // DATA and IHAVE.
  // ---------------------------------------------------------------------------------------------

  /** The head of a peer's connection, or -1. */
  function HeadFor(st: State, peer: nat): int
    requires Heads(st)
  {
    var c := FindConn(st.conns, peer, 0);
    if c < 0 then -1 else st.conns[c].chunks[0]
  }

  /** The head after one more block: the same until the chunk is full, then the next of the list, if any. */
  function NextHead(st: State, peer: nat): int
    requires Heads(st)
  {
    var c := FindConn(st.conns, peer, 0);
    if c < 0 then -1
    else
      var list := st.conns[c].chunks;
      if |st.chunks[list[0]].data| + 1024 != CHUNK_SIZE then list[0] else if |list| > 1 then list[1] else -1
  }

  /** After a step of the connection with a peer: it asks if and only if it has moved on to another chunk. */
  ghost predicate AsksForNext(st: State, st': State, peer: nat, gets: seq<Message>)
    requires Heads(st)
  {
    && Heads(st')
    && gets == (if HeadFor(st', peer) >= 0 && HeadFor(st', peer) != HeadFor(st, peer) then GetOf(st', peer) else [])
  }

  lemma {:induction false} BlockAsks(st: State, peer: nat, payload: Block, writes: bool)
    requires Heads(st) && FindConn(st.conns, peer, 0) >= 0
    requires |st.chunks[HeadFor(st, peer)].data| + 1024 != CHUNK_SIZE
    ensures var (st', gets) := Accept(st, FindConn(st.conns, peer, 0), payload, writes);
            AsksForNext(st, st', peer, gets) && HeadFor(st', peer) == HeadFor(st, peer)
  {
    var c := FindConn(st.conns, peer, 0);
    SamePlace(st.conns, st.conns[c := st.conns[c].(receivedData := true)], peer, 0);
  }

  lemma {:induction false} NextAsks(st: State, peer: nat, payload: Block, writes: bool)
    requires Heads(st) && FindConn(st.conns, peer, 0) >= 0
    requires |st.chunks[HeadFor(st, peer)].data| + 1024 == CHUNK_SIZE
    requires var list := st.conns[FindConn(st.conns, peer, 0)].chunks; |list| > 1 && list[1] != list[0]
    ensures var c := FindConn(st.conns, peer, 0);
            var (st', gets) := Accept(st, c, payload, writes);
            AsksForNext(st, st', peer, gets) && HeadFor(st', peer) == st.conns[c].chunks[1]
  {
    hide HashOf;
    var c := FindConn(st.conns, peer, 0);
    var conn := st.conns[c].(receivedData := true, chunks := st.conns[c].chunks[1..]);
    SamePlace(st.conns, st.conns[c := conn], peer, 0);
    assert conn.chunks[0] == st.conns[c].chunks[1];
  }

  lemma {:induction false} LastAsks(st: State, peer: nat, payload: Block, writes: bool)
    requires Heads(st) && FindConn(st.conns, peer, 0) >= 0 && OnePerPeer(st.conns)
    requires |st.chunks[HeadFor(st, peer)].data| + 1024 == CHUNK_SIZE
    requires |st.conns[FindConn(st.conns, peer, 0)].chunks| == 1
    ensures var (st', gets) := Accept(st, FindConn(st.conns, peer, 0), payload, writes);
            AsksForNext(st, st', peer, gets) && HeadFor(st', peer) == -1
  {
    hide HashOf;
    Dropped(st.conns, peer, FindConn(st.conns, peer, 0));
  }

  lemma {:induction false} AcceptAsks(max: nat, st: State, peer: nat, payload: Block, writes: bool)
    requires Inv(max, st) && Heads(st) && FindConn(st.conns, peer, 0) >= 0
    ensures var (st', gets) := Accept(st, FindConn(st.conns, peer, 0), payload, writes);
            AsksForNext(st, st', peer, gets) && HeadFor(st', peer) == NextHead(st, peer)
  {
    var c := FindConn(st.conns, peer, 0);
    var list := st.conns[c].chunks;
    ListFacts(max, st, c);
    TailApart(st.chunks, list, Others(st.conns, c));
    assert OnePerPeer(st.conns);
    hide Inv, ListOk, Owned, Others, Accept, OnePerPeer, FindConn, AsksForNext;
    if |st.chunks[HeadFor(st, peer)].data| + 1024 != CHUNK_SIZE {
      BlockAsks(st, peer, payload, writes);
    } else if |list| > 1 {
      NextAsks(st, peer, payload, writes);
    } else {
      LastAsks(st, peer, payload, writes);
    }
  }

  /** Every DATA packet, the last block of a chunk included: first the reply of the single-session receiver,
      then, if and only if the connection has moved on to another chunk, the GET for it. */
  lemma {:induction false} DataMessages(max: nat, st: State, peer: nat, seqNum: int, payload: Block, writes: bool)
    requires Inv(max, st) && Heads(st) && FindConn(st.conns, peer, 0) >= 0
    ensures var ch := st.chunks[HeadFor(st, peer)];
            var (r, reply) := Transfer.Receive(Transfer.Receiver(ch.seqNum, ch.data), Transfer.Packet(seqNum, payload));
            var (st', out) := OnData(st, peer, seqNum, payload, writes);
            && ReplyMessages(reply) <= out && AsksForNext(st, st', peer, out[|ReplyMessages(reply)|..])
            && HeadFor(st', peer) == (if r.seqNum == ch.seqNum then HeadFor(st, peer) else NextHead(st, peer))
            && (r.seqNum == ch.seqNum ==> st' == st)
  {
    var ch := st.chunks[HeadFor(st, peer)];
    AcceptAsks(max, st, peer, payload, writes);
    assert ListOk(st.chunks, st.conns[FindConn(st.conns, peer, 0)].chunks);
    assert CounterOk(ch);
    hide Inv, Accept, FindConn, ListOk;
  }

  /** A DATA packet touches only the chunks of its sender's list and that connection, which is marked as having
      received data if it stays. */
  lemma {:induction false} DataTouchesItsListOnly(max: nat, st: State, peer: nat, payload: Block, writes: bool)
    requires Inv(max, st) && Heads(st) && FindConn(st.conns, peer, 0) >= 0
    ensures var c := FindConn(st.conns, peer, 0);
            var t := Accept(st, c, payload, writes).0;
            && t.active == st.active && SameOutside(st.chunks, t.chunks, st.conns[c].chunks)
            && (t.conns == st.conns[..c] + st.conns[c + 1..]
                || exists list :: t.conns == st.conns[c := Connection(peer, true, list)])
  {
    var c := FindConn(st.conns, peer, 0);
    var list := st.conns[c].chunks;
    hide Inv, HashOf;
    assert list[0] in list;
    if |list| > 1 { assert list[1] in list; }
    assert st.conns[c].(receivedData := true) == Connection(peer, true, list);
    assert st.conns[c].(receivedData := true, chunks := list[1..]) == Connection(peer, true, list[1..]);
  }

  lemma {:induction false} DataFromStranger(st: State, peer: nat, seqNum: int, payload: Block, writes: bool)
    requires Heads(st) && forall c | 0 <= c < |st.conns| :: st.conns[c].provider != peer
    ensures OnData(st, peer, seqNum, payload, writes) == (st, [])
  {
    OtherPeer(st.conns, peer, 0);
  }

  lemma {:induction false} ConnectAsks(st: State, peer: nat, hs: seq<Hash>)
    requires Heads(st) && FindConn(st.conns, peer, 0) < 0 && Heads(Connect(st, peer, hs).0)
    ensures Connect(st, peer, hs).1 == GetOf(Connect(st, peer, hs).0, peer)
  {
    hide AddAll, Heads, InRange;
    AddAllInRange(st.chunks, [], hs);
    var (chunks, list) := AddAll(st.chunks, [], hs);
    if list != [] {
      var conns := [Connection(peer, false, list)] + st.conns;
      assert FindConn(conns, peer, 0) == 0;
      HeadInRange(chunks, list);
    }
  }

  lemma {:induction false} HeadInRange(chunks: seq<Chunk>, list: seq<nat>)
    requires InRange(chunks, list) && list != []
    ensures list[0] < |chunks|
  {
  }

  lemma {:induction false} JoinIsSilent(st: State, max: nat, peer: nat, hs: seq<Hash>)
    requires FindConn(st.conns, peer, 0) >= 0 || !st.active || |st.conns| >= max
    ensures var (st', out) := OnIhave(st, max, peer, hs);
            out == [] && FindConn(st'.conns, peer, 0) == FindConn(st.conns, peer, 0)
  {
    hide AddAll;
    var c := FindConn(st.conns, peer, 0);
    if st.active && c >= 0 {
      var list := AddAll(st.chunks, st.conns[c].chunks, hs).1;
      SamePlace(st.conns, st.conns[c := st.conns[c].(chunks := list)], peer, 0);
    }
  }

  /** An IHAVE is answered by a GET if and only if it has made a connection, for the first chunk on its list. */
  lemma {:induction false} IhaveMessages(max: nat, st: State, peer: nat, hs: seq<Hash>)
    requires Inv(max, st) && Heads(st)
    ensures var (st', out) := OnIhave(st, max, peer, hs);
            Heads(st') && out == if HeadFor(st, peer) < 0 then GetOf(st', peer) else []
  {
    hide Inv, AddAll, FindConn, Connect, Heads;
    IhaveKeeps(max, st, peer, hs);
    InvHeads(max, OnIhave(st, max, peer, hs).0);
    if FindConn(st.conns, peer, 0) >= 0 || !st.active || |st.conns| >= max {
      JoinIsSilent(st, max, peer, hs);
      hide OnIhave;
    } else {
      ConnectAsks(st, peer, hs);
    }
    HeadForSign(st, peer);
  }

  lemma {:induction false} HeadForSign(st: State, peer: nat)
    requires Heads(st)
    ensures HeadFor(st, peer) < 0 <==> FindConn(st.conns, peer, 0) < 0
  {
  }

  // ---------------------------------------------------------------------------------------------
  // A sweep of timeouts.
  // ---------------------------------------------------------------------------------------------

  /** The connections whose peers are not taken for crashed. */
  function Alive(conns: seq<Connection>, clocks: seq<Clock>): seq<Connection>
    requires |clocks| == |conns|
    decreases conns
  {
    if conns == [] then []
    else (if clocks[0].crashed then [] else [conns[0]]) + Alive(conns[1..], clocks[1..])
  }

  /** A chunk on the list of a peer that is taken for crashed. */
  ghost predicate Bereft(conns: seq<Connection>, clocks: seq<Clock>, i: nat)
    requires |clocks| == |conns|
  {
    exists c :: 0 <= c < |conns| && clocks[c].crashed && i in conns[c].chunks
  }

  predicate HeadsIn(chunks: seq<Chunk>, conns: seq<Connection>)
  {
    forall c | 0 <= c < |conns| :: conns[c].chunks != [] && conns[c].chunks[0] < |chunks|
  }

  /** One GET per live connection that has waited too long for its first DATA packet. */
  function Repeats(chunks: seq<Chunk>, conns: seq<Connection>, clocks: seq<Clock>): seq<Message>
    requires |clocks| == |conns| && HeadsIn(chunks, conns)
    decreases conns
  {
    if conns == [] then []
    else
      (if !clocks[0].crashed && !conns[0].receivedData && clocks[0].getElapsed
       then [Message.Get(chunks[conns[0].chunks[0]].hash)] else [])
      + Repeats(chunks, conns[1..], clocks[1..])
  }

  lemma {:induction false} RepeatsSame(before: seq<Chunk>, after: seq<Chunk>, conns: seq<Connection>, clocks: seq<Clock>)
    requires |clocks| == |conns| && HeadsIn(before, conns) && SameHashes(before, after)
    ensures HeadsIn(after, conns) && Repeats(after, conns, clocks) == Repeats(before, conns, clocks)
    decreases conns
  {
    if conns != [] { RepeatsSame(before, after, conns[1..], clocks[1..]); }
  }

  /** What the chunks are after the sweep: those of crashed peers are without a provider, with nothing received. */
  ghost predicate GivenBack(before: seq<Chunk>, after: seq<Chunk>, conns: seq<Connection>, clocks: seq<Clock>)
    requires |clocks| == |conns|
  {
    |after| == |before| && forall i | 0 <= i < |before| ::
      after[i] == if Bereft(conns, clocks, i) then Chunk(before[i].hash, NOT_FOUND, 0, []) else before[i]
  }

  lemma {:induction false} HeadsAreIn(st: State, c: nat)
    requires Heads(st) && c <= |st.conns|
    ensures HeadsIn(st.chunks, st.conns[c..])
  {
    var rest := st.conns[c..];
    forall d | 0 <= d < |rest|
      ensures rest[d].chunks != [] && rest[d].chunks[0] < |st.chunks|
    {
      assert rest[d] == st.conns[c + d];
    }
  }

  lemma {:induction false} CancelGivesBack(max: nat, st: State, c: nat)
    requires Inv(max, st) && Heads(st) && c < |st.conns|
    ensures var t := Cancel(st, c);
            && SameHashes(st.chunks, t.chunks)
            && forall i | 0 <= i < |st.chunks| ::
                 t.chunks[i] == if i in st.conns[c].chunks then Chunk(st.chunks[i].hash, NOT_FOUND, 0, []) else st.chunks[i]
  {
    ListFacts(max, st, c);
    hide Inv;
    ReleaseAll(st.chunks, st.conns[c].chunks);
  }

  lemma {:induction false} BereftFirst(conns: seq<Connection>, clocks: seq<Clock>, i: nat)
    requires |clocks| == |conns| > 0
    ensures Bereft(conns, clocks, i) <==>
              (clocks[0].crashed && i in conns[0].chunks) || Bereft(conns[1..], clocks[1..], i)
  {
    if Bereft(conns[1..], clocks[1..], i) {
      var c :| 0 <= c < |conns[1..]| && clocks[1..][c].crashed && i in conns[1..][c].chunks;
      assert clocks[c + 1].crashed && i in conns[c + 1].chunks;
    }
    if Bereft(conns, clocks, i) {
      var c :| 0 <= c < |conns| && clocks[c].crashed && i in conns[c].chunks;
      if c > 0 { assert clocks[1..][c - 1].crashed && i in conns[1..][c - 1].chunks; }
    }
  }

  /** What the sweep of the connections from c on leaves and says. */
  ghost predicate Swept(st: State, c: nat, clocks: seq<Clock>, t: State, out: seq<Message>)
    requires Heads(st) && c <= |st.conns| && |clocks| == |st.conns| - c
  {
    HeadsAreIn(st, c);
    && t.active == st.active && t.saved == st.saved
    && t.conns == st.conns[..c] + Alive(st.conns[c..], clocks)
    && GivenBack(st.chunks, t.chunks, st.conns[c..], clocks)
    && out == Repeats(st.chunks, st.conns[c..], clocks)
  }

  lemma {:induction false} GivenBackFirst(
    before: seq<Chunk>, between: seq<Chunk>, after: seq<Chunk>, conns: seq<Connection>, clocks: seq<Clock>)
    requires |clocks| == |conns| > 0 && clocks[0].crashed && SameHashes(before, between)
    requires forall i | 0 <= i < |before| ::
               between[i] == if i in conns[0].chunks then Chunk(before[i].hash, NOT_FOUND, 0, []) else before[i]
    requires GivenBack(between, after, conns[1..], clocks[1..])
    ensures GivenBack(before, after, conns, clocks)
  {
    hide Bereft;
    forall i | 0 <= i < |before|
      ensures after[i] == if Bereft(conns, clocks, i) then Chunk(before[i].hash, NOT_FOUND, 0, []) else before[i]
    {
      BereftFirst(conns, clocks, i);
    }
  }

  lemma {:induction false} SweptCrash(max: nat, st: State, c: nat, clocks: seq<Clock>, t: State, out: seq<Message>)
    requires Inv(max, st) && Heads(st) && c < |st.conns| && |clocks| == |st.conns| - c && clocks[0].crashed
    requires Heads(Cancel(st, c)) && |Cancel(st, c).conns| == |st.conns| - 1
    requires Swept(Cancel(st, c), c, clocks[1..], t, out)
    ensures Swept(st, c, clocks, t, out)
  {
    hide Inv, GivenBack, SameHashes;
    var u := Cancel(st, c);
    CancelGivesBack(max, st, c);
    assert u.active == st.active && u.saved == st.saved;
    assert u.conns[..c] == st.conns[..c] && u.conns[c..] == st.conns[c..][1..] && st.conns[c..][0] == st.conns[c];
    hide Heads, Cancel;
    HeadsAreIn(st, c);
    RepeatsSame(st.chunks, u.chunks, st.conns[c..][1..], clocks[1..]);
    GivenBackFirst(st.chunks, u.chunks, t.chunks, st.conns[c..], clocks);
  }

  lemma {:induction false} SweptOn(st: State, c: nat, clocks: seq<Clock>, t: State, out: seq<Message>)
    requires Heads(st) && c < |st.conns| && |clocks| == |st.conns| - c && !clocks[0].crashed
    requires Swept(st, c + 1, clocks[1..], t, out)
    ensures var gets := if !st.conns[c].receivedData && clocks[0].getElapsed
                        then [Message.Get(st.chunks[st.conns[c].chunks[0]].hash)] else [];
            Swept(st, c, clocks, t, gets + out)
  {
    assert st.conns[c..][1..] == st.conns[c + 1..] && st.conns[c..][0] == st.conns[c];
    assert st.conns[..c + 1] == st.conns[..c] + [st.conns[c]];
    HeadsAreIn(st, c);
    forall i: nat
      ensures Bereft(st.conns[c..], clocks, i) <==> Bereft(st.conns[c + 1..], clocks[1..], i)
    {
      BereftFirst(st.conns[c..], clocks, i);
    }
    hide Bereft;
  }

  lemma {:induction false} SweepFrom(max: nat, st: State, c: nat, clocks: seq<Clock>)
    requires Inv(max, st) && Heads(st) && c <= |st.conns| && |clocks| == |st.conns| - c
    ensures Swept(st, c, clocks, OnTimeouts(st, c, clocks).0, OnTimeouts(st, c, clocks).1)
    decreases clocks
  {
    hide Inv, Swept;
    if clocks == [] {
      SweptNothing(st, c);
    } else if clocks[0].crashed {
      CancelKeeps(max, st, c);
      InvHeads(max, Cancel(st, c));
      SweepFrom(max, Cancel(st, c), c, clocks[1..]);
      SweptCrash(max, st, c, clocks, OnTimeouts(st, c, clocks).0, OnTimeouts(st, c, clocks).1);
    } else {
      ResendKeeps(max, st, c);
      SweepFrom(max, st, c + 1, clocks[1..]);
      var (t, out) := OnTimeouts(st, c + 1, clocks[1..]);
      assert [] + out == out;
      SweptOn(st, c, clocks, t, out);
    }
  }

  lemma {:induction false} SweptNothing(st: State, c: nat)
    requires Heads(st) && c == |st.conns|
    ensures Swept(st, c, [], st, [])
  {
    assert st.conns[..c] == st.conns && st.conns[c..] == [];
  }

  /** One sweep: exactly the connections of crashed peers are gone, in order and otherwise unchanged; exactly
      their chunks are given back; and exactly the live connections whose GET is overdue repeat it. */
  lemma {:induction false} SweepIsExact(max: nat, st: State, clocks: seq<Clock>)
    requires Inv(max, st) && |clocks| == |st.conns|
    ensures Heads(st) && HeadsIn(st.chunks, st.conns)
    ensures var (t, out) := OnTimeouts(st, 0, clocks);
            && t.active == st.active && t.saved == st.saved
            && t.conns == Alive(st.conns, clocks)
            && GivenBack(st.chunks, t.chunks, st.conns, clocks)
            && out == Repeats(st.chunks, st.conns, clocks)
  {
    InvHeads(max, st);
    HeadsAreIn(st, 0);
    SweepFrom(max, st, 0, clocks);
    assert st.conns[0..] == st.conns && st.conns[..0] == [];
  }
}
