/** The receiving side of peer.c as an object whose methods update the job and the connections in place. */
module Peer {
  import opened Discovery
  import opened Download
  import opened Ownership
  import Scheduler
  import Blocks
  import Fips180
  import Sha1

  // ---------------------------------------------------------------------------------------------
  // The three steps that follow an expected DATA packet.
  // ---------------------------------------------------------------------------------------------

  /** save_data_packet. */
  function SaveData(st: State, c: nat, payload: Block): State
    requires Heads(st) && c < |st.conns|
  {
    var head := st.conns[c].chunks[0];
    var ch := st.chunks[head];
    st.(chunks := st.chunks[head := ch.(seqNum := ch.seqNum + 1, data := ch.data + payload)],
        conns := st.conns[c := st.conns[c].(receivedData := true)])
  }

  /** save_chunk. */
  function SaveChunk(st: State, c: nat, writes: bool): State
    requires Heads(st) && c < |st.conns|
  {
    var head := st.conns[c].chunks[0];
    var ch := st.chunks[head];
    if |ch.data| != CHUNK_SIZE then st
    else
      var kept := Kept(ch, ch.data, writes);
      st.(chunks := st.chunks[head := Chunk(ch.hash, if kept then FINISHED else NOT_FOUND, 0, [])],
          saved := if kept then st.saved + [Saved(head, ch.data)] else st.saved)
  }

  /** reset_receiver_connection. */
  function Reset(st: State, c: nat): (State, seq<Message>)
    requires Heads(st) && c < |st.conns|
  {
    var conn := st.conns[c];
    if st.chunks[conn.chunks[0]].status.DOWNLOADING? then (st, [])
    else if |conn.chunks| == 1 then (st.(conns := st.conns[..c] + st.conns[c + 1..]), [])
    else
      var next := conn.chunks[1];
      (st.(chunks := SetStatus(st.chunks, next, DOWNLOADING), conns := st.conns[c := conn.(chunks := conn.chunks[1..])]),
       [Get(st.chunks[next].hash)])
  }

  lemma {:induction false} SaveDataHeads(st: State, c: nat, payload: Block)
    requires Heads(st) && c < |st.conns|
    ensures Heads(SaveData(st, c, payload))
  {
  }

  lemma {:induction false} SaveChunkHeads(st: State, c: nat, writes: bool)
    requires Heads(st) && c < |st.conns|
    ensures Heads(SaveChunk(st, c, writes))
  {
  }

  /** Together they are what the scheduler does with the packet. */
  lemma {:induction false} ThreeStepsAccept(st: State, c: nat, payload: Block, writes: bool)
    requires Heads(st) && c < |st.conns| && st.chunks[st.conns[c].chunks[0]].status.DOWNLOADING?
    ensures Heads(SaveData(st, c, payload)) && Heads(SaveChunk(SaveData(st, c, payload), c, writes))
    ensures |SaveData(st, c, payload).conns| == |SaveChunk(SaveData(st, c, payload), c, writes).conns| == |st.conns|
    ensures Reset(SaveChunk(SaveData(st, c, payload), c, writes), c) == Accept(st, c, payload, writes)
  {
    SaveDataHeads(st, c, payload);
    SaveChunkHeads(SaveData(st, c, payload), c, writes);
    hide HashOf;
    var head := st.conns[c].chunks[0];
    var ch := st.chunks[head];
    var conns := SaveData(st, c, payload).conns;
    assert conns[..c] + conns[c + 1..] == st.conns[..c] + st.conns[c + 1..];
    var rest := Connection(st.conns[c].provider, true, st.conns[c].chunks[1..]);
    assert conns[c := rest] == st.conns[c := rest];
    if |ch.data + payload| == CHUNK_SIZE {
      var saved := SaveChunk(SaveData(st, c, payload), c, writes);
      var status := if Kept(ch, ch.data + payload, writes) then FINISHED else NOT_FOUND;
      assert saved.chunks == st.chunks[head := Chunk(ch.hash, status, 0, [])];
      assert st.conns[c].chunks[1..] == [] <==> |st.conns[c].chunks| == 1;
    }
  }

  lemma {:induction false} HeadIsDownloading(max: nat, st: State, c: nat)
    requires Inv(max, st) && Heads(st) && c < |st.conns|
    ensures st.chunks[st.conns[c].chunks[0]].status.DOWNLOADING?
  {
    hide Owned, CountersOk, SavesOk;
    assert ListOk(st.chunks, st.conns[c].chunks);
  }

  class Downloader {
    const maxConnections: nat
    var active: bool
    var chunks: seq<Chunk>
    var connections: seq<Connection>
    var outputFile: seq<Saved>

    constructor (maxConnections: nat)
      ensures this.maxConnections == maxConnections && Now() == IDLE && Inv(maxConnections, Now())
    {
      this.maxConnections := maxConnections;
      active, chunks, connections, outputFile := false, [], [], [];
      new;
      IdleInv(maxConnections);
    }

    function Now(): State
      reads this
    {
      State(active, chunks, connections, outputFile)
    }

    method SearchConnection(peer: nat) returns (c: int)
      ensures c == FindConn(connections, peer, 0)
    {
      c := 0;
      while c < |connections| && connections[c].provider != peer
        invariant 0 <= c <= |connections| && FindConn(connections, peer, c) == FindConn(connections, peer, 0)
      {
        c := c + 1;
      }
      if c == |connections| { c := -1; }
    }

    /** Claims the chunks that an IHAVE packet lists and that lack a provider, for one list. */
    method AddIhave(packet: Packet, list: seq<nat>) returns (list': seq<nat>)
      modifies this`chunks
      ensures (chunks, list') == AddAll(old(chunks), list, Hashes(packet))
    {
      ghost var hs := Hashes(packet);
      ghost var goal := AddAll(chunks, list, hs);
      hide HashAt, Hashes;
      list' := list;
      var n := Count(packet.payload);
      assert |hs| == n && forall k | 0 <= k < n :: hs[k] == HashAt(packet.payload, k) by { HashesAre(packet); }
      assert hs[0..] == hs;
      for i := 0 to n
        invariant AddAll(chunks, list', hs[i..]) == goal
      {
        var h := HashAt(packet.payload, i);
        assert hs[i..][0] == h && hs[i..][1..] == hs[i + 1..];
        var k := SearchChunk(chunks, h);
        if k >= 0 && chunks[k].status.NOT_FOUND? {
          chunks := chunks[k := chunks[k].(status := PENDING)];
          list' := list' + [k];
        }
      }
    }

    method OnIhave(peer: nat, packet: Packet) returns (out: seq<Message>)
      requires Inv(maxConnections, Now())
      modifies this`chunks, this`connections
      ensures (Now(), out) == Download.OnIhave(old(Now()), maxConnections, peer, Hashes(packet))
      ensures Inv(maxConnections, Now())
    {
      hide AddAll, Hashes, FindConn, Inv;
      Scheduler.IhaveKeeps(maxConnections, Now(), peer, Hashes(packet));
      out := [];
      if !active { return; }
      var c := SearchConnection(peer);
      if c >= 0 {
        var list := AddIhave(packet, connections[c].chunks);
        connections := connections[c := connections[c].(chunks := list)];
      } else if |connections| < maxConnections {
        AddAllInRange(chunks, [], Hashes(packet));
        var list := AddIhave(packet, []);
        if list != [] {
          connections := [Connection(peer, false, list)] + connections;
          out := StartConnection(0);
        }
      }
    }

    /** Asks for the chunk at the head of a list. */
    method StartConnection(c: nat) returns (out: seq<Message>)
      requires c < |connections| && connections[c].chunks != [] && InRange(chunks, connections[c].chunks)
      modifies this`chunks
      ensures chunks == SetStatus(old(chunks), connections[c].chunks[0], DOWNLOADING)
      ensures out == [Get(old(chunks)[connections[c].chunks[0]].hash)]
    {
      var head := connections[c].chunks[0];
      out := [Get(chunks[head].hash)];
      chunks := chunks[head := chunks[head].(status := DOWNLOADING)];
    }

    method SaveDataPacket(c: nat, payload: Block)
      requires c < |connections| && Heads(Now())
      modifies this`chunks, this`connections
      ensures Now() == SaveData(old(Now()), c, payload)
    {
      connections := connections[c := connections[c].(receivedData := true)];
      var head := connections[c].chunks[0];
      var ch := chunks[head];
      chunks := chunks[head := ch.(seqNum := ch.seqNum + 1, data := ch.data + payload)];
    }

    /** A full buffer is hashed; it is kept when the hash is the wanted one and can be written to the file. */
    method SaveWholeChunk(c: nat, writes: bool)
      requires c < |connections| && Heads(Now())
      modifies this`chunks, this`outputFile
      ensures Now() == SaveChunk(old(Now()), c, writes)
    {
      var head := connections[c].chunks[0];
      var ch := chunks[head];
      if |ch.data| == CHUNK_SIZE {
        var target := new Byte[20];
        Sha1.ShaHash(ch.data, target);
        assert target[..] == HashOf(ch.data);
        hide HashOf;
        var status := NOT_FOUND;
        if target[..] == ch.hash && writes {
          status := FINISHED;
          outputFile := outputFile + [Saved(head, ch.data)];
        }
        chunks := chunks[head := Chunk(ch.hash, status, 0, [])];
      }
    }

    /** Moves to the next chunk of the list, or drops the connection after the last. */
    method ResetConnection(c: nat) returns (out: seq<Message>)
      requires c < |connections| && Heads(Now())
      modifies this`chunks, this`connections
      ensures (Now(), out) == Reset(old(Now()), c)
    {
      out := [];
      var conn := connections[c];
      if chunks[conn.chunks[0]].status.DOWNLOADING? { return; }
      connections := connections[c := conn.(chunks := conn.chunks[1..])];
      if connections[c].chunks != [] {
        out := StartConnection(c);
      } else {
        connections := connections[..c] + connections[c + 1..];
      }
    }

    method OnData(peer: nat, seqNum: int, payload: Block, writes: bool) returns (out: seq<Message>)
      requires Inv(maxConnections, Now())
      modifies this
      ensures Heads(old(Now())) && (Now(), out) == Download.OnData(old(Now()), peer, seqNum, payload, writes)
      ensures Inv(maxConnections, Now())
    {
      hide Inv, Accept, SaveData, SaveChunk, Reset;
      InvHeads(maxConnections, Now());
      DataKeeps(maxConnections, Now(), peer, seqNum, payload, writes);
      out := [];
      var c := SearchConnection(peer);
      if c < 0 { return; }
      HeadIsDownloading(maxConnections, Now(), c);
      var existing := chunks[connections[c].chunks[0]].seqNum;
      if seqNum < 0 || seqNum < existing + 1 { return; }
      if seqNum > existing + 1 { return [Ack(existing)]; }
      ThreeStepsAccept(Now(), c, payload, writes);
      SaveDataPacket(c, payload);
      SaveWholeChunk(c, writes);
      var gets := ResetConnection(c);
      out := [Ack(1 + existing)] + gets;
    }

    /** Gives the chunks of a list back, and drops the connection. */
    method CancelConnection(c: nat)
      requires c < |connections| && Heads(Now())
      modifies this`chunks, this`connections
      ensures Now() == Cancel(old(Now()), c)
    {
      var list := connections[c].chunks;
      ghost var goal := Release(chunks, list);
      var k := 0;
      assert list[0..] == list;
      while k < |list|
        invariant 0 <= k <= |list| && connections == old(connections)
        invariant InRange(chunks, list[k..]) && Release(chunks, list[k..]) == goal
      {
        var i := list[k];
        assert list[k..][0] == i && list[k..][1..] == list[k + 1..];
        ghost var next := chunks[i := Released(chunks[i])];
        assert InRange(next, list[k + 1..]);
        if !chunks[i].status.FINISHED? {
          chunks := chunks[i := Chunk(chunks[i].hash, NOT_FOUND, 0, [])];
        }
        assert chunks == next;
        k := k + 1;
      }
      connections := connections[..c] + connections[c + 1..];
    }

    /** receivers_timeout: one clock reading per connection, in the order of the list. */
    method OnTimeouts(clocks: seq<Clock>) returns (out: seq<Message>)
      requires Inv(maxConnections, Now()) && |clocks| == |connections|
      modifies this`chunks, this`connections
      ensures Heads(old(Now())) && (Now(), out) == Download.OnTimeouts(old(Now()), 0, clocks)
      ensures Inv(maxConnections, Now())
    {
      hide Inv, Cancel, Resend;
      InvHeads(maxConnections, Now());
      TimeoutsKeep(maxConnections, Now(), 0, clocks);
      ghost var goal := Download.OnTimeouts(Now(), 0, clocks);
      out := [];
      var c: nat, k: nat := 0, 0;
      assert clocks[0..] == clocks && out + goal.1 == goal.1;
      while k < |clocks|
        invariant k <= |clocks| && Inv(maxConnections, Now()) && Heads(Now())
        invariant c + (|clocks| - k) == |connections|
        invariant goal == (Download.OnTimeouts(Now(), c, clocks[k..]).0,
                           out + Download.OnTimeouts(Now(), c, clocks[k..]).1)
      {
        var clock := clocks[k];
        assert clocks[k..][0] == clock && clocks[k..][1..] == clocks[k + 1..];
        if clock.crashed {
          CancelKeeps(maxConnections, Now(), c);
          InvHeads(maxConnections, Cancel(Now(), c));
          CancelShrinks(Now(), c);
          CancelConnection(c);
        } else {
          if !connections[c].receivedData && clock.getElapsed {
            ResendKeeps(maxConnections, Now(), c);
            var get := ResendGet(c);
            ghost var more := Download.OnTimeouts(Now(), c + 1, clocks[k + 1..]).1;
            assert out + (get + more) == (out + get) + more;
            out := out + get;
          }
          c := c + 1;
        }
        k := k + 1;
      }
      assert out + [] == out;
    }

    method ResendGet(c: nat) returns (out: seq<Message>)
      requires Heads(Now()) && c < |connections|
      modifies this`chunks
      ensures (Now(), out) == Resend(old(Now()), c)
    {
      out := StartConnection(c);
    }

    /** Declares the job got when nothing is left to do. */
    method FinishJob() returns (got: bool)
      requires Inv(maxConnections, Now())
      modifies this`active
      ensures Now() == OnFinish(old(Now())) && Inv(maxConnections, Now())
      ensures got <==> old(active) && Scheduler.AllFinished(chunks)
    {
      hide Inv;
      Scheduler.FinishKeeps(maxConnections, Now());
      if active { Scheduler.FinishIsSound(maxConnections, Now()); }
      got := false;
      if !active { return; }
      if |connections| != 0 { return; }
      var n := GetNotFoundChunkNumber(chunks);
      if n != 0 { return; }
      active, got := false, true;
    }

    /** A user GET with the hashes of a chunk file. */
    method StartJob(hashes: seq<Hash>)
      requires connections == []
      modifies this
      ensures Now() == OnGet(old(Now()), hashes) && Inv(maxConnections, Now())
    {
      active, outputFile := true, [];
      chunks := seq(|hashes|, i requires 0 <= i < |hashes| => Chunk(hashes[i], NOT_FOUND, 0, []));
    }
  }

  lemma {:induction false} CancelShrinks(st: State, c: nat)
    requires Heads(st) && c < |st.conns|
    ensures |Cancel(st, c).conns| == |st.conns| - 1
  {
  }

  lemma {:induction false} HashesAre(packet: Packet)
    ensures |Hashes(packet)| == Count(packet.payload)
    ensures forall k | 0 <= k < Count(packet.payload) :: Hashes(packet)[k] == HashAt(packet.payload, k)
  {
  }
}
