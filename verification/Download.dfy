/**
 The download scheduler: the IHAVE and DATA cases of process_inbound_udp and finish_job in peer.c, the
 receiver connections of connection.c and their timeouts in control.c.
 */
module Download {
  import opened Discovery
  import Control
  import Fips180
  import Transfer

  type Block = p: seq<Byte> | |p| == 1024 witness seq(1024, _ => 0)

  const BLOCKS := Control.CHUNK_DATA_NUM

  const CHUNK_SIZE := Transfer.CHUNK_SIZE

  /** The chunks this peer is to send, as indices into the job; the first one is being downloaded. */
  datatype Connection = Connection(provider: nat, receivedData: bool, chunks: seq<nat>)

  /** One successful write of a chunk to the output file. */
  datatype Saved = Saved(index: nat, data: seq<Byte>)

  datatype State = State(active: bool, chunks: seq<Chunk>, conns: seq<Connection>, saved: seq<Saved>)

  datatype Message = Ack(n: int) | Get(hash: Hash)

  const IDLE := State(false, [], [], [])

  function Busy(s: Status): bool { s.PENDING? || s.DOWNLOADING? }

  // ---------------------------------------------------------------------------------------------
  // The handlers.
  // ---------------------------------------------------------------------------------------------

  /** The first connection from c on with this peer, or -1. */
  function FindConn(conns: seq<Connection>, peer: nat, c: nat): (r: int)
    requires c <= |conns|
    ensures r == -1 || (c <= r < |conns| && conns[r].provider == peer)
    ensures r == -1 ==> forall d | c <= d < |conns| :: conns[d].provider != peer
    decreases |conns| - c
  {
    if c == |conns| then -1 else if conns[c].provider == peer then c else FindConn(conns, peer, c + 1)
  }

  function SetStatus(chunks: seq<Chunk>, i: nat, s: Status): seq<Chunk>
    requires i < |chunks|
  {
    chunks[i := chunks[i].(status := s)]
  }

  /** One hash of an IHAVE packet: the chunk joins the list if it has no provider yet. */
  function AddOne(chunks: seq<Chunk>, list: seq<nat>, h: Hash): (seq<Chunk>, seq<nat>)
  {
    var i := First(chunks, h);
    if i >= 0 && chunks[i].status.NOT_FOUND? then (SetStatus(chunks, i, PENDING), list + [i]) else (chunks, list)
  }

  function AddAll(chunks: seq<Chunk>, list: seq<nat>, hs: seq<Hash>): (seq<Chunk>, seq<nat>)
    decreases hs
  {
    if hs == [] then (chunks, list)
    else
      var (chunks', list') := AddOne(chunks, list, hs[0]);
      AddAll(chunks', list', hs[1..])
  }

  predicate InRange(chunks: seq<Chunk>, list: seq<nat>) { forall k | 0 <= k < |list| :: list[k] < |chunks| }

  lemma {:induction false} AddAllInRange(chunks: seq<Chunk>, list: seq<nat>, hs: seq<Hash>)
    requires InRange(chunks, list)
    ensures InRange(AddAll(chunks, list, hs).0, AddAll(chunks, list, hs).1)
    decreases hs
  {
    if hs != [] {
      var r := AddOne(chunks, list, hs[0]);
      AddAllInRange(r.0, r.1, hs[1..]);
    }
  }

  function OnIhave(st: State, max: nat, peer: nat, hs: seq<Hash>): (State, seq<Message>)
  {
    if !st.active then (st, [])
    else
      var c := FindConn(st.conns, peer, 0);
      if c >= 0 then
        var (chunks, list) := AddAll(st.chunks, st.conns[c].chunks, hs);
        (st.(chunks := chunks, conns := st.conns[c := st.conns[c].(chunks := list)]), [])
      else if |st.conns| >= max then (st, [])
      else Connect(st, peer, hs)
  }

  /** A new connection, unless every hash already has a provider; its first chunk is asked for at once. */
  function Connect(st: State, peer: nat, hs: seq<Hash>): (State, seq<Message>)
  {
    AddAllInRange(st.chunks, [], hs);
    var (chunks, list) := AddAll(st.chunks, [], hs);
    if list == [] then (st.(chunks := chunks), [])
    else
      (st.(chunks := SetStatus(chunks, list[0], DOWNLOADING), conns := [Connection(peer, false, list)] + st.conns),
       [Get(chunks[list[0]].hash)])
  }

  function HashOf(data: seq<Byte>): seq<Byte>
    requires |data| == CHUNK_SIZE
  {
    Fips180.Sha1(data)
  }

  /** Whether a full buffer is kept: its hash is the wanted one and the write to the output file succeeds. */
  predicate Kept(ch: Chunk, data: seq<Byte>, writes: bool)
    requires |data| == CHUNK_SIZE
  {
    HashOf(data) == ch.hash && writes
  }

  predicate Heads(st: State)
  {
    forall c | 0 <= c < |st.conns| :: st.conns[c].chunks != [] && InRange(st.chunks, st.conns[c].chunks)
  }

  /** A DATA packet; writes tells whether a write to the output file would succeed. */
  function OnData(st: State, peer: nat, seqNum: int, payload: Block, writes: bool): (State, seq<Message>)
    requires Heads(st)
  {
    var c := FindConn(st.conns, peer, 0);
    if c < 0 then (st, [])
    else
      var ch := st.chunks[st.conns[c].chunks[0]];
      if seqNum < 0 then (st, [])
      else if seqNum < ch.seqNum + 1 then (st, [])
      else if seqNum > ch.seqNum + 1 then (st, [Ack(ch.seqNum)])
      else
        var (st', gets) := Accept(st, c, payload, writes);
        (st', [Ack(1 + ch.seqNum)] + gets)
  }

  /** The expected packet: stored, and when it fills the buffer the connection moves to its next chunk. */
  function Accept(st: State, c: nat, payload: Block, writes: bool): (State, seq<Message>)
    requires Heads(st) && c < |st.conns|
  {
    var conn := st.conns[c].(receivedData := true);
    var head := conn.chunks[0];
    var ch := st.chunks[head];
    var data := ch.data + payload;
    if |data| != CHUNK_SIZE then
      (st.(chunks := st.chunks[head := ch.(seqNum := ch.seqNum + 1, data := data)], conns := st.conns[c := conn]), [])
    else
      var kept := Kept(ch, data, writes);
      var chunks := st.chunks[head := Chunk(ch.hash, if kept then FINISHED else NOT_FOUND, 0, [])];
      var saved := if kept then st.saved + [Saved(head, data)] else st.saved;
      var rest := conn.chunks[1..];
      if rest == [] then
        (st.(chunks := chunks, saved := saved, conns := st.conns[..c] + st.conns[c + 1..]), [])
      else
        (st.(chunks := SetStatus(chunks, rest[0], DOWNLOADING), saved := saved,
             conns := st.conns[c := conn.(chunks := rest)]),
         [Get(chunks[rest[0]].hash)])
  }

  /** Short of its last block, the chunk being downloaded is the receiver of Transfer. */
  lemma {:induction false} DataIsReceive(st: State, peer: nat, seqNum: int, payload: Block, writes: bool, i: nat)
    requires Heads(st) && FindConn(st.conns, peer, 0) >= 0
    requires i == st.conns[FindConn(st.conns, peer, 0)].chunks[0] && |st.chunks[i].data| + 1024 != CHUNK_SIZE
    ensures var (r, reply) := Transfer.Receive(Transfer.Receiver(st.chunks[i].seqNum, st.chunks[i].data),
                                               Transfer.Packet(seqNum, payload));
            var (st', out) := OnData(st, peer, seqNum, payload, writes);
            && |st'.chunks| == |st.chunks| && st'.chunks[i].seqNum == r.seqNum && st'.chunks[i].data == r.data
            && out == if reply.Silence? then [] else [Ack(reply.n)]
  {
  }

  function Released(ch: Chunk): Chunk
  {
    if ch.status.FINISHED? then ch else Chunk(ch.hash, NOT_FOUND, 0, [])
  }

  /** cancel_receiver_connection on the chunks of a list. */
  function Release(chunks: seq<Chunk>, list: seq<nat>): (r: seq<Chunk>)
    requires InRange(chunks, list)
    ensures |r| == |chunks|
    decreases list
  {
    if list == [] then chunks
    else
      var i := list[0];
      assert InRange(chunks[i := Released(chunks[i])], list[1..]);
      Release(chunks[i := Released(chunks[i])], list[1..])
  }

  function Cancel(st: State, c: nat): State
    requires Heads(st) && c < |st.conns|
  {
    st.(chunks := Release(st.chunks, st.conns[c].chunks), conns := st.conns[..c] + st.conns[c + 1..])
  }

  /** start_connection again. */
  function Resend(st: State, c: nat): (State, seq<Message>)
    requires Heads(st) && c < |st.conns|
  {
    var head := st.conns[c].chunks[0];
    (st.(chunks := SetStatus(st.chunks, head, DOWNLOADING)), [Get(st.chunks[head].hash)])
  }

  /** What the clocks of one connection say: the peer is taken for crashed, or the GET for lost. */
  datatype Clock = Clock(crashed: bool, getElapsed: bool)

  /** receivers_timeout from connection c on. */
  function OnTimeouts(st: State, c: nat, clocks: seq<Clock>): (State, seq<Message>)
    requires Heads(st)
    decreases clocks
  {
    if clocks == [] || c >= |st.conns| then (st, [])
    else if clocks[0].crashed then OnTimeouts(Cancel(st, c), c, clocks[1..])
    else if !st.conns[c].receivedData && clocks[0].getElapsed then
      var (st1, gets) := Resend(st, c);
      var (st2, more) := OnTimeouts(st1, c + 1, clocks[1..]);
      (st2, gets + more)
    else OnTimeouts(st, c + 1, clocks[1..])
  }

  /** finish_job: the job is declared got. */
  function OnFinish(st: State): State
  {
    if st.active && |st.conns| == 0 && |NotFound(st.chunks, 0)| == 0 then st.(active := false) else st
  }

  function FreshChunks(hashes: seq<Hash>): seq<Chunk>
  {
    seq(|hashes|, i requires 0 <= i < |hashes| => Chunk(hashes[i], NOT_FOUND, 0, []))
  }

  /** A user GET; one that arrives while connections are live is not modelled. */
  function OnGet(st: State, hashes: seq<Hash>): State
  {
    if st.conns == [] then State(true, FreshChunks(hashes), [], []) else st
  }
}
