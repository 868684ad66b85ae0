/** The ownership invariant of the download scheduler, over every handler and every run. */
module Ownership {
  import opened Discovery
  import opened Download

  // ---------------------------------------------------------------------------------------------
  // The invariant.
  // ---------------------------------------------------------------------------------------------

  /** The entries of all lists of all connections. */
  ghost function Held(conns: seq<Connection>): multiset<nat>
  {
    if conns == [] then multiset{} else multiset(conns[0].chunks) + Held(conns[1..])
  }

  /** Every pending or downloading chunk is held exactly once, and nothing else is held. */
  ghost predicate Owned(chunks: seq<Chunk>, held: multiset<nat>)
  {
    forall i: nat :: held[i] == if i < |chunks| && Busy(chunks[i].status) then 1 else 0
  }

  /** A live list: not empty, its head downloading, the rest pending. */
  ghost predicate ListOk(chunks: seq<Chunk>, list: seq<nat>)
  {
    && list != []
    && forall k | 0 <= k < |list| ::
         list[k] < |chunks| && chunks[list[k]].status == if k == 0 then DOWNLOADING else PENDING
  }

  ghost predicate ListsOk(chunks: seq<Chunk>, conns: seq<Connection>)
  {
    forall c | 0 <= c < |conns| :: ListOk(chunks, conns[c].chunks)
  }

  /** Only a downloading chunk has received anything: whole blocks, and not yet all of them. */
  ghost predicate CounterOk(ch: Chunk)
  {
    if ch.status.DOWNLOADING? then 0 <= ch.seqNum < BLOCKS && |ch.data| == 1024 * ch.seqNum
    else ch.seqNum == 0 && ch.data == []
  }

  ghost predicate CountersOk(chunks: seq<Chunk>) { forall i | 0 <= i < |chunks| :: CounterOk(chunks[i]) }

  ghost predicate OnePerPeer(conns: seq<Connection>)
  {
    forall c, d | 0 <= c < d < |conns| :: conns[c].provider != conns[d].provider
  }

  ghost predicate GoodSave(chunks: seq<Chunk>, s: Saved)
  {
    s.index < |chunks| && |s.data| == CHUNK_SIZE && HashOf(s.data) == chunks[s.index].hash
  }

  function Indices(saved: seq<Saved>): seq<nat> { seq(|saved|, i requires 0 <= i < |saved| => saved[i].index) }

  ghost predicate EachOnce(chunks: seq<Chunk>, written: multiset<nat>)
  {
    forall i: nat :: written[i] == if i < |chunks| && chunks[i].status.FINISHED? then 1 else 0
  }

  /** The finished chunks are those written to the output file, each once and with its own hash. */
  ghost predicate SavesOk(chunks: seq<Chunk>, saved: seq<Saved>)
  {
    EachOnce(chunks, multiset(Indices(saved))) && forall s | s in saved :: GoodSave(chunks, s)
  }

  ghost predicate Inv(max: nat, st: State)
  {
    && (!st.active ==> st.conns == [])
    && ListsOk(st.chunks, st.conns)
    && Owned(st.chunks, Held(st.conns))
    && CountersOk(st.chunks)
    && OnePerPeer(st.conns) && |st.conns| <= max
    && SavesOk(st.chunks, st.saved)
  }

  lemma {:induction false} InvHeads(max: nat, st: State)
    requires Inv(max, st)
    ensures Heads(st)
  {
    forall c | 0 <= c < |st.conns|
      ensures st.conns[c].chunks != [] && InRange(st.chunks, st.conns[c].chunks)
    {
      assert ListOk(st.chunks, st.conns[c].chunks);
    }
  }

  lemma {:induction false} IdleInv(max: nat)
    ensures Inv(max, IDLE)
  {
  }

  // ---------------------------------------------------------------------------------------------
  // Held lists.
  // ---------------------------------------------------------------------------------------------

  lemma {:induction false} HeldAppend(conns: seq<Connection>, more: seq<Connection>)
    ensures Held(conns + more) == Held(conns) + Held(more)
    decreases conns
  {
    if conns == [] {
      assert conns + more == more;
    } else {
      assert (conns + more)[1..] == conns[1..] + more;
      HeldAppend(conns[1..], more);
    }
  }

  /** What all connections but c hold. */
  ghost function Others(conns: seq<Connection>, c: nat): multiset<nat>
    requires c < |conns|
  {
    Held(conns[..c] + conns[c + 1..])
  }

  lemma {:induction false} HeldSplit(conns: seq<Connection>, c: nat)
    requires c < |conns|
    ensures Held(conns) == multiset(conns[c].chunks) + Others(conns, c)
  {
    assert conns == conns[..c] + ([conns[c]] + conns[c + 1..]);
    HeldAppend(conns[..c], [conns[c]] + conns[c + 1..]);
    HeldAppend([conns[c]], conns[c + 1..]);
    HeldAppend(conns[..c], conns[c + 1..]);
    assert Held([conns[c]]) == multiset(conns[c].chunks) + Held([]);
  }

  lemma {:induction false} HeldUpdate(conns: seq<Connection>, c: nat, conn: Connection)
    requires c < |conns|
    ensures Held(conns[c := conn]) == multiset(conn.chunks) + Others(conns, c)
  {
    var after := conns[c := conn];
    HeldSplit(after, c);
    assert after[..c] == conns[..c] && after[c + 1..] == conns[c + 1..];
  }

  lemma {:induction false} HeldFirst(conn: Connection, conns: seq<Connection>)
    ensures Held([conn] + conns) == multiset(conn.chunks) + Held(conns)
  {
    assert ([conn] + conns)[1..] == conns;
  }

  lemma {:induction false} HoldsList(conns: seq<Connection>, d: nat, i: nat)
    requires d < |conns| && i in conns[d].chunks
    ensures Held(conns)[i] >= 1
  {
    HeldSplit(conns, d);
  }

  /** No chunk is in two lists. */
  lemma {:induction false} Apart(chunks: seq<Chunk>, conns: seq<Connection>, c: nat, d: nat, i: nat)
    requires Owned(chunks, Held(conns)) && c < |conns| && d < |conns| && c != d
    requires i in conns[c].chunks
    ensures i !in conns[d].chunks
  {
    HeldSplit(conns, c);
    AtMostOnce(chunks, Held(conns), i);
    assert Others(conns, c)[i] == 0;
    var rest := conns[..c] + conns[c + 1..];
    var d' := if d < c then d else d - 1;
    assert rest[d'] == conns[d];
    if i in rest[d'].chunks {
      HoldsList(rest, d', i);
    }
  }

  lemma {:induction false} AtMostOnce(chunks: seq<Chunk>, held: multiset<nat>, i: nat)
    requires Owned(chunks, held)
    ensures held[i] <= 1
  {
  }

  lemma {:induction false} TwiceInList(list: seq<nat>, j: nat, k: nat)
    requires j < k < |list| && list[j] == list[k]
    ensures multiset(list)[list[k]] >= 2
  {
    assert list == list[..k] + list[k..];
    assert list[j] == list[..k][j] && list[k] == list[k..][0];
    assert multiset(list[..k])[list[k]] >= 1 && multiset(list[k..])[list[k]] >= 1;
  }

  /** No chunk is twice in one list. */
  lemma {:induction false} OnceInList(chunks: seq<Chunk>, list: seq<nat>, others: multiset<nat>, j: nat, k: nat)
    requires Owned(chunks, multiset(list) + others) && j < k < |list|
    ensures list[j] != list[k]
  {
    if list[j] == list[k] {
      TwiceInList(list, j, k);
      AtMostOnce(chunks, multiset(list) + others, list[k]);
    }
  }

  /** Only chunks of this list have changed. */
  ghost predicate SameOutside(before: seq<Chunk>, after: seq<Chunk>, list: seq<nat>)
  {
    |after| == |before| && forall i | 0 <= i < |before| && i !in list :: after[i] == before[i]
  }

  lemma {:induction false} OthersKept(before: seq<Chunk>, after: seq<Chunk>, conns: seq<Connection>, c: nat, d: nat)
    requires c < |conns| && d < |conns| && c != d && SameOutside(before, after, conns[c].chunks)
    requires Owned(before, Held(conns)) && ListOk(before, conns[d].chunks)
    ensures ListOk(after, conns[d].chunks)
  {
    var list := conns[d].chunks;
    forall k | 0 <= k < |list|
      ensures list[k] < |after| && after[list[k]] == before[list[k]]
    {
      Apart(before, conns, d, c, list[k]);
    }
  }

  lemma {:induction false} ListsUpdate(before: seq<Chunk>, after: seq<Chunk>, conns: seq<Connection>, c: nat, conn: Connection)
    requires Owned(before, Held(conns)) && ListsOk(before, conns) && c < |conns|
    requires SameOutside(before, after, conns[c].chunks) && ListOk(after, conn.chunks)
    ensures ListsOk(after, conns[c := conn])
  {
    var updated := conns[c := conn];
    forall d | 0 <= d < |updated|
      ensures ListOk(after, updated[d].chunks)
    {
      if d != c { OthersKept(before, after, conns, c, d); }
    }
  }

  lemma {:induction false} ListsRemove(before: seq<Chunk>, after: seq<Chunk>, conns: seq<Connection>, c: nat)
    requires Owned(before, Held(conns)) && ListsOk(before, conns) && c < |conns|
    requires SameOutside(before, after, conns[c].chunks)
    ensures ListsOk(after, conns[..c] + conns[c + 1..])
  {
    var rest := conns[..c] + conns[c + 1..];
    forall d | 0 <= d < |rest|
      ensures ListOk(after, rest[d].chunks)
    {
      OthersKept(before, after, conns, c, if d < c then d else d + 1);
    }
  }

  // ---------------------------------------------------------------------------------------------
  // IHAVE.
  // ---------------------------------------------------------------------------------------------

  /** All that has changed is that some chunks without a provider are now pending. */
  ghost predicate Claims(before: seq<Chunk>, after: seq<Chunk>)
  {
    |after| == |before| && forall i | 0 <= i < |before| :: Claimed(before[i], after[i])
  }

  ghost predicate Claimed(before: Chunk, after: Chunk)
  {
    after == before || (before.status.NOT_FOUND? && after == before.(status := PENDING))
  }

  /** What a list has gained: chunks that had no provider and are now pending. */
  ghost predicate Gained(before: seq<Chunk>, after: seq<Chunk>, list: seq<nat>, list': seq<nat>)
  {
    && |list| <= |list'| && list == list'[..|list|]
    && forall k | |list| <= k < |list'| ::
         list'[k] < |before| == |after| && before[list'[k]].status.NOT_FOUND? && after[list'[k]].status.PENDING?
  }

  lemma {:induction false} AddOneOk(chunks: seq<Chunk>, list: seq<nat>, h: Hash, others: multiset<nat>)
    requires Owned(chunks, multiset(list) + others)
    ensures var (chunks', list') := AddOne(chunks, list, h);
            Owned(chunks', multiset(list') + others) && Claims(chunks, chunks') && Gained(chunks, chunks', list, list')
  {
    var i := First(chunks, h);
    if i >= 0 && chunks[i].status.NOT_FOUND? {
      assert multiset(list + [i]) + others == multiset(list) + others + multiset{i};
    }
  }

  lemma {:induction false} AddAllOk(chunks: seq<Chunk>, list: seq<nat>, hs: seq<Hash>, others: multiset<nat>)
    requires Owned(chunks, multiset(list) + others)
    ensures var (chunks', list') := AddAll(chunks, list, hs);
            Owned(chunks', multiset(list') + others) && Claims(chunks, chunks') && Gained(chunks, chunks', list, list')
    decreases hs
  {
    if hs != [] {
      var (chunks1, list1) := AddOne(chunks, list, hs[0]);
      AddOneOk(chunks, list, hs[0], others);
      AddAllOk(chunks1, list1, hs[1..], others);
      var (chunks2, list2) := AddAll(chunks1, list1, hs[1..]);
      hide Owned, AddOne, AddAll;
      ClaimsGained(chunks, chunks1, chunks2, list, list1, list2);
    }
  }

  lemma {:induction false} ClaimsGained(
    c0: seq<Chunk>, c1: seq<Chunk>, c2: seq<Chunk>, l0: seq<nat>, l1: seq<nat>, l2: seq<nat>)
    requires Claims(c0, c1) && Gained(c0, c1, l0, l1) && Claims(c1, c2) && Gained(c1, c2, l1, l2)
    ensures Claims(c0, c2) && Gained(c0, c2, l0, l2)
  {
    forall k | |l0| <= k < |l2|
      ensures l2[k] < |c0| && c0[l2[k]].status.NOT_FOUND? && c2[l2[k]].status.PENDING?
    {
      if k < |l1| { assert l2[k] == l1[k]; }
      assert Claimed(c0[l2[k]], c1[l2[k]]) && Claimed(c1[l2[k]], c2[l2[k]]);
    }
    forall i | 0 <= i < |c0|
      ensures Claimed(c0[i], c2[i])
    {
      assert Claimed(c0[i], c1[i]) && Claimed(c1[i], c2[i]);
    }
  }

  lemma {:induction false} ClaimsKeepList(before: seq<Chunk>, after: seq<Chunk>, list: seq<nat>)
    requires Claims(before, after) && ListOk(before, list)
    ensures ListOk(after, list)
  {
    forall k | 0 <= k < |list|
      ensures list[k] < |after| && after[list[k]] == before[list[k]]
    {
      assert Claimed(before[list[k]], after[list[k]]);
    }
  }

  lemma {:induction false} ClaimsKeepLists(before: seq<Chunk>, after: seq<Chunk>, conns: seq<Connection>)
    requires Claims(before, after) && ListsOk(before, conns)
    ensures ListsOk(after, conns)
  {
    forall c | 0 <= c < |conns|
      ensures ListOk(after, conns[c].chunks)
    {
      ClaimsKeepList(before, after, conns[c].chunks);
    }
  }

  lemma {:induction false} ClaimsKeepRest(before: seq<Chunk>, after: seq<Chunk>, saved: seq<Saved>)
    requires Claims(before, after) && CountersOk(before) && SavesOk(before, saved)
    ensures CountersOk(after) && SavesOk(after, saved)
  {
    forall i | 0 <= i < |after|
      ensures CounterOk(after[i]) && after[i].hash == before[i].hash
      ensures after[i].status.FINISHED? <==> before[i].status.FINISHED?
    {
      assert Claimed(before[i], after[i]);
    }
  }

  /** A live list that has gained pending chunks is live. */
  lemma {:induction false} GainedListOk(before: seq<Chunk>, after: seq<Chunk>, list: seq<nat>, list': seq<nat>)
    requires ListOk(after, list) && Gained(before, after, list, list')
    ensures ListOk(after, list')
  {
    forall k | 0 <= k < |list|
      ensures list'[k] == list[k]
    {
    }
  }

  lemma {:induction false} ListsReplace(
    chunks: seq<Chunk>, conns: seq<Connection>, c: nat, list: seq<nat>)
    requires ListsOk(chunks, conns) && c < |conns| && ListOk(chunks, list) && OnePerPeer(conns)
    ensures ListsOk(chunks, conns[c := conns[c].(chunks := list)])
    ensures OnePerPeer(conns[c := conns[c].(chunks := list)])
  {
  }

  lemma {:induction false} IhaveOnConnectionKeeps(max: nat, st: State, peer: nat, hs: seq<Hash>)
    requires Inv(max, st) && st.active && FindConn(st.conns, peer, 0) >= 0
    ensures Inv(max, OnIhave(st, max, peer, hs).0)
  {
    var c := FindConn(st.conns, peer, 0);
    var list := st.conns[c].chunks;
    HeldSplit(st.conns, c);
    AddAllOk(st.chunks, list, hs, Others(st.conns, c));
    var (chunks, list') := AddAll(st.chunks, list, hs);
    HeldUpdate(st.conns, c, st.conns[c].(chunks := list'));
    ClaimsKeepLists(st.chunks, chunks, st.conns);
    ClaimsKeepRest(st.chunks, chunks, st.saved);
    assert ListOk(chunks, list);
    GainedListOk(st.chunks, chunks, list, list');
    ListsReplace(chunks, st.conns, c, list');
    hide ListsOk, ListOk, Claims, Gained, Owned, Held, Others, SavesOk, CountersOk, AddAll, OnePerPeer, FindConn;
  }

  lemma {:induction false} ConnectKeeps(max: nat, st: State, peer: nat, hs: seq<Hash>)
    requires Inv(max, st) && st.active && FindConn(st.conns, peer, 0) < 0 && |st.conns| < max
    ensures Inv(max, Connect(st, peer, hs).0)
  {
    AddAllInRange(st.chunks, [], hs);
    assert multiset([]) + Held(st.conns) == Held(st.conns);
    AddAllOk(st.chunks, [], hs, Held(st.conns));
    var (chunks, list) := AddAll(st.chunks, [], hs);
    ClaimsKeepLists(st.chunks, chunks, st.conns);
    ClaimsKeepRest(st.chunks, chunks, st.saved);
    if list == [] {
      assert multiset(list) + Held(st.conns) == Held(st.conns);
    } else {
      var conn := Connection(peer, false, list);
      HeldFirst(conn, st.conns);
      hide AddAll;
      StartNew(st.chunks, chunks, st.conns, conn, st.saved);
      hide ListsOk, Owned, CountersOk, SavesOk;
    }
  }

  lemma {:induction false} StartNew(before: seq<Chunk>, chunks: seq<Chunk>, conns: seq<Connection>, conn: Connection, saved: seq<Saved>)
    requires ListsOk(before, conns) && ListsOk(chunks, conns) && CountersOk(chunks) && SavesOk(chunks, saved)
    requires Gained(before, chunks, [], conn.chunks) && conn.chunks != []
    requires Owned(chunks, multiset(conn.chunks) + Held(conns))
    ensures var after := SetStatus(chunks, conn.chunks[0], DOWNLOADING);
            && ListsOk(after, [conn] + conns) && CountersOk(after) && SavesOk(after, saved)
            && Owned(after, multiset(conn.chunks) + Held(conns))
  {
    var list := conn.chunks;
    var after := SetStatus(chunks, list[0], DOWNLOADING);
    forall k | 0 < k < |list|
      ensures list[k] != list[0]
    {
      OnceInList(chunks, list, Held(conns), 0, k);
    }
    forall c, k | 0 <= c < |conns| && 0 <= k < |conns[c].chunks|
      ensures conns[c].chunks[k] != list[0]
    {
      assert ListOk(before, conns[c].chunks);
    }
    assert ListOk(after, list);
    forall c | 0 <= c < |conns|
      ensures ListOk(after, conns[c].chunks)
    {
      assert ListOk(chunks, conns[c].chunks);
    }
    StatusKeepsSaves(chunks, list[0], DOWNLOADING, saved);
  }

  /** Saves do not mind a change of status between other states than finished. */
  lemma {:induction false} StatusKeepsSaves(chunks: seq<Chunk>, i: nat, s: Status, saved: seq<Saved>)
    requires SavesOk(chunks, saved) && i < |chunks| && !chunks[i].status.FINISHED? && !s.FINISHED?
    ensures SavesOk(SetStatus(chunks, i, s), saved)
  {
  }

  // ---------------------------------------------------------------------------------------------
  // DATA.
  // ---------------------------------------------------------------------------------------------

  /** A block that does not fill the buffer. */
  lemma {:induction false} BlockOnChunk(chunks: seq<Chunk>, head: nat, payload: Block)
    requires CountersOk(chunks) && head < |chunks| && chunks[head].status.DOWNLOADING?
    requires |chunks[head].data| + 1024 != CHUNK_SIZE
    ensures var ch := chunks[head];
            var after := chunks[head := ch.(seqNum := ch.seqNum + 1, data := ch.data + payload)];
            SameStatuses(chunks, after) && CountersOk(after)
  {
    assert CounterOk(chunks[head]);
  }

  lemma {:induction false} BlockKeeps(max: nat, st: State, c: nat, payload: Block, writes: bool)
    requires Inv(max, st) && c < |st.conns| && Heads(st)
    requires |st.chunks[st.conns[c].chunks[0]].data| + 1024 != CHUNK_SIZE
    ensures Inv(max, Accept(st, c, payload, writes).0)
  {
    hide SameStatuses, Owned, SavesOk, CountersOk, Held, Others;
    var conn := st.conns[c].(receivedData := true);
    var head := conn.chunks[0];
    var ch := st.chunks[head];
    assert ListOk(st.chunks, conn.chunks);
    BlockOnChunk(st.chunks, head, payload);
    var after := st.chunks[head := ch.(seqNum := ch.seqNum + 1, data := ch.data + payload)];
    hide ListOk;
    SameStatusesKeep(st.chunks, after, Held(st.conns), st.conns, st.saved);
    HeldSplit(st.conns, c);
    HeldUpdate(st.conns, c, conn);
  }

  ghost predicate SameStatuses(before: seq<Chunk>, after: seq<Chunk>)
  {
    |after| == |before| && forall i | 0 <= i < |before| ::
      after[i].status == before[i].status && after[i].hash == before[i].hash
  }

  lemma {:induction false} SameStatusesKeep(
    before: seq<Chunk>, after: seq<Chunk>, held: multiset<nat>, conns: seq<Connection>, saved: seq<Saved>)
    requires SameStatuses(before, after)
    requires Owned(before, held) && ListsOk(before, conns) && SavesOk(before, saved)
    ensures Owned(after, held) && ListsOk(after, conns) && SavesOk(after, saved)
  {
    forall c | 0 <= c < |conns|
      ensures ListOk(after, conns[c].chunks)
    {
      assert ListOk(before, conns[c].chunks);
    }
  }

  /** What the chunks are when the head of a list has left it: finished, or without a provider again. */
  function Settled(chunks: seq<Chunk>, list: seq<nat>, kept: bool): seq<Chunk>
    requires list != [] && InRange(chunks, list)
  {
    var head := list[0];
    var settled := chunks[head := Chunk(chunks[head].hash, if kept then FINISHED else NOT_FOUND, 0, [])];
    if |list| == 1 then settled else SetStatus(settled, list[1], DOWNLOADING)
  }

  lemma {:induction false} TailApart(chunks: seq<Chunk>, list: seq<nat>, others: multiset<nat>)
    requires Owned(chunks, multiset(list) + others) && list != []
    ensures forall k | 0 < k < |list| :: list[k] != list[0]
    ensures forall k | 1 < k < |list| :: list[k] != list[1]
  {
    forall k | 0 < k < |list|
      ensures list[k] != list[0] && (k > 1 ==> list[k] != list[1])
    {
      OnceInList(chunks, list, others, 0, k);
      if k > 1 { OnceInList(chunks, list, others, 1, k); }
    }
  }

  lemma {:induction false} SettledList(chunks: seq<Chunk>, list: seq<nat>, kept: bool, others: multiset<nat>)
    requires ListOk(chunks, list) && InRange(chunks, list) && Owned(chunks, multiset(list) + others)
    ensures |list| > 1 ==> ListOk(Settled(chunks, list, kept), list[1..])
    ensures SameOutside(chunks, Settled(chunks, list, kept), list)
  {
    TailApart(chunks, list, others);
    hide Owned;
  }

  lemma {:induction false} SettledOwned(chunks: seq<Chunk>, list: seq<nat>, kept: bool, others: multiset<nat>)
    requires ListOk(chunks, list) && InRange(chunks, list) && Owned(chunks, multiset(list) + others)
    ensures Owned(Settled(chunks, list, kept), multiset(list[1..]) + others)
  {
    var head := list[0];
    var after := Settled(chunks, list, kept);
    TailApart(chunks, list, others);
    assert list == [head] + list[1..];
    assert multiset(list) + others == multiset{head} + (multiset(list[1..]) + others);
    forall i: nat
      ensures (multiset(list[1..]) + others)[i] == if i < |after| && Busy(after[i].status) then 1 else 0
    {
      assert (multiset(list[1..]) + others)[i] == (multiset(list) + others)[i] - if i == head then 1 else 0;
    }
  }

  lemma {:induction false} SettledCounters(chunks: seq<Chunk>, list: seq<nat>, kept: bool)
    requires CountersOk(chunks) && ListOk(chunks, list) && InRange(chunks, list)
    ensures CountersOk(Settled(chunks, list, kept))
  {
    if |list| > 1 && list[1] != list[0] { assert CounterOk(chunks[list[1]]); }
  }

  lemma {:induction false} SettledSaves(chunks: seq<Chunk>, list: seq<nat>, data: seq<Byte>, kept: bool, saved: seq<Saved>)
    requires SavesOk(chunks, saved) && ListOk(chunks, list) && InRange(chunks, list)
    requires |list| > 1 ==> list[1] != list[0]
    requires kept ==> |data| == CHUNK_SIZE && HashOf(data) == chunks[list[0]].hash
    ensures SavesOk(Settled(chunks, list, kept), if kept then saved + [Saved(list[0], data)] else saved)
  {
    var head := list[0];
    var settled := chunks[head := Chunk(chunks[head].hash, if kept then FINISHED else NOT_FOUND, 0, [])];
    var saved' := if kept then saved + [Saved(head, data)] else saved;
    if kept { OneMoreSave(chunks, settled, head, data, saved); } else { NoMoreSave(chunks, settled, head, saved); }
    if |list| > 1 {
      assert settled[list[1]] == chunks[list[1]];
      hide SavesOk;
      StatusKeepsSaves(settled, list[1], DOWNLOADING, saved');
    }
  }

  lemma {:induction false} NoMoreSave(before: seq<Chunk>, after: seq<Chunk>, head: nat, saved: seq<Saved>)
    requires SavesOk(before, saved) && head < |before| && !before[head].status.FINISHED?
    requires after == before[head := Chunk(before[head].hash, NOT_FOUND, 0, [])]
    ensures SavesOk(after, saved)
  {
  }

  lemma {:induction false} OneMoreSave(
    before: seq<Chunk>, after: seq<Chunk>, head: nat, data: seq<Byte>, saved: seq<Saved>)
    requires SavesOk(before, saved) && head < |before| && !before[head].status.FINISHED?
    requires after == before[head := Chunk(before[head].hash, FINISHED, 0, [])]
    requires |data| == CHUNK_SIZE && HashOf(data) == before[head].hash
    ensures SavesOk(after, saved + [Saved(head, data)])
  {
    OneMoreIndex(saved, Saved(head, data));
    forall s | s in saved + [Saved(head, data)]
      ensures GoodSave(after, s)
    {
      if s in saved { assert GoodSave(before, s); }
    }
    assert EachOnce(after, multiset(Indices(saved)) + multiset{head});
  }

  lemma {:induction false} OneMoreIndex(saved: seq<Saved>, s: Saved)
    ensures multiset(Indices(saved + [s])) == multiset(Indices(saved)) + multiset{s.index}
  {
    assert Indices(saved + [s]) == Indices(saved) + [s.index];
  }

  /** The last block of the last chunk of a list: the connection is gone. */
  lemma {:induction false} LastOfListKeeps(max: nat, st: State, c: nat, data: seq<Byte>, kept: bool)
    requires Inv(max, st) && c < |st.conns| && Heads(st) && |st.conns[c].chunks| == 1
    requires kept ==> |data| == CHUNK_SIZE && HashOf(data) == st.chunks[st.conns[c].chunks[0]].hash
    ensures Inv(max, State(st.active, Settled(st.chunks, st.conns[c].chunks, kept), st.conns[..c] + st.conns[c + 1..],
                           if kept then st.saved + [Saved(st.conns[c].chunks[0], data)] else st.saved))
  {
    var list := st.conns[c].chunks;
    assert ListOk(st.chunks, list);
    HeldSplit(st.conns, c);
    SettledOwned(st.chunks, list, kept, Others(st.conns, c));
    SettledList(st.chunks, list, kept, Others(st.conns, c));
    SettledCounters(st.chunks, list, kept);
    SettledSaves(st.chunks, list, data, kept, st.saved);
    ListsRemove(st.chunks, Settled(st.chunks, list, kept), st.conns, c);
    hide ListsOk, ListOk, Owned, SavesOk, CountersOk, OnePerPeer, Settled, Heads;
    assert multiset(list[1..]) + Others(st.conns, c) == Others(st.conns, c);
    PeersRemove(st.conns, c);
  }

  /** The last block of another chunk: the next one of the list is being downloaded. */
  lemma {:induction false} NextOfListKeeps(max: nat, st: State, c: nat, data: seq<Byte>, kept: bool)
    requires Inv(max, st) && c < |st.conns| && Heads(st) && |st.conns[c].chunks| > 1
    requires kept ==> |data| == CHUNK_SIZE && HashOf(data) == st.chunks[st.conns[c].chunks[0]].hash
    ensures Inv(max, State(st.active, Settled(st.chunks, st.conns[c].chunks, kept),
                           st.conns[c := Connection(st.conns[c].provider, true, st.conns[c].chunks[1..])],
                           if kept then st.saved + [Saved(st.conns[c].chunks[0], data)] else st.saved))
  {
    hide Owned, SavesOk, CountersOk, Held, Others;
    var list := st.conns[c].chunks;
    var next := Connection(st.conns[c].provider, true, list[1..]);
    assert ListOk(st.chunks, list);
    HeldSplit(st.conns, c);
    SettledOwned(st.chunks, list, kept, Others(st.conns, c));
    SettledList(st.chunks, list, kept, Others(st.conns, c));
    SettledCounters(st.chunks, list, kept);
    OnceInList(st.chunks, list, Others(st.conns, c), 0, 1);
    SettledSaves(st.chunks, list, data, kept, st.saved);
    ListsUpdate(st.chunks, Settled(st.chunks, list, kept), st.conns, c, next);
    hide ListsOk, ListOk, Settled, Heads;
    HeldUpdate(st.conns, c, next);
  }

  lemma {:induction false} LastBlockKeeps(max: nat, st: State, c: nat, payload: Block, writes: bool)
    requires Inv(max, st) && c < |st.conns| && Heads(st)
    requires |st.chunks[st.conns[c].chunks[0]].data| + 1024 == CHUNK_SIZE
    ensures Inv(max, Accept(st, c, payload, writes).0)
  {
    hide Inv;
    var list := st.conns[c].chunks;
    var ch := st.chunks[list[0]];
    var data := ch.data + payload;
    if |list| == 1 {
      LastOfListKeeps(max, st, c, data, Kept(ch, data, writes));
    } else {
      NextOfListKeeps(max, st, c, data, Kept(ch, data, writes));
    }
  }

  lemma {:induction false} PeersRemove(conns: seq<Connection>, c: nat)
    requires OnePerPeer(conns) && c < |conns|
    ensures OnePerPeer(conns[..c] + conns[c + 1..])
  {
  }

  lemma {:induction false} DataKeeps(max: nat, st: State, peer: nat, seqNum: int, payload: Block, writes: bool)
    requires Inv(max, st) && Heads(st)
    ensures Inv(max, OnData(st, peer, seqNum, payload, writes).0)
  {
    hide Inv, Accept;
    var c := FindConn(st.conns, peer, 0);
    if c >= 0 {
      if |st.chunks[st.conns[c].chunks[0]].data| + 1024 == CHUNK_SIZE {
        LastBlockKeeps(max, st, c, payload, writes);
      } else {
        BlockKeeps(max, st, c, payload, writes);
      }
    }
  }

  // ---------------------------------------------------------------------------------------------
  // Timeouts.
  // ---------------------------------------------------------------------------------------------

  lemma {:induction false} ReleaseAll(chunks: seq<Chunk>, list: seq<nat>)
    requires InRange(chunks, list)
    ensures forall i | 0 <= i < |chunks| ::
              Release(chunks, list)[i] == if i in list then Released(chunks[i]) else chunks[i]
    decreases list
  {
    if list != [] {
      var i := list[0];
      assert InRange(chunks[i := Released(chunks[i])], list[1..]);
      ReleaseAll(chunks[i := Released(chunks[i])], list[1..]);
    }
  }

  lemma {:induction false} ReleaseOwned(chunks: seq<Chunk>, list: seq<nat>, others: multiset<nat>)
    requires ListOk(chunks, list) && InRange(chunks, list) && Owned(chunks, multiset(list) + others)
    ensures Owned(Release(chunks, list), others)
  {
    ReleaseAll(chunks, list);
    forall i: nat
      ensures (multiset(list) + others)[i] == multiset(list)[i] + others[i]
      ensures i in list <==> multiset(list)[i] > 0
    {
    }
  }

  lemma {:induction false} ReleaseKeepsRest(chunks: seq<Chunk>, list: seq<nat>, saved: seq<Saved>)
    requires ListOk(chunks, list) && InRange(chunks, list) && CountersOk(chunks) && SavesOk(chunks, saved)
    ensures SameOutside(chunks, Release(chunks, list), list)
    ensures CountersOk(Release(chunks, list)) && SavesOk(Release(chunks, list), saved)
  {
    ReleaseAll(chunks, list);
    var after := Release(chunks, list);
    forall i | 0 <= i < |chunks|
      ensures CounterOk(after[i]) && after[i].hash == chunks[i].hash
      ensures after[i].status.FINISHED? <==> chunks[i].status.FINISHED?
    {
      assert CounterOk(chunks[i]);
    }
  }

  lemma {:induction false} CancelKeeps(max: nat, st: State, c: nat)
    requires Inv(max, st) && Heads(st) && c < |st.conns|
    ensures Inv(max, Cancel(st, c))
  {
    var list := st.conns[c].chunks;
    assert ListOk(st.chunks, list);
    HeldSplit(st.conns, c);
    ReleaseOwned(st.chunks, list, Others(st.conns, c));
    ReleaseKeepsRest(st.chunks, list, st.saved);
    ListsRemove(st.chunks, Release(st.chunks, list), st.conns, c);
    PeersRemove(st.conns, c);
    hide ListsOk, ListOk, Owned, SavesOk, CountersOk, OnePerPeer;
  }

  /** Asking again for the chunk that is already being downloaded changes nothing but the clock. */
  lemma {:induction false} ResendKeeps(max: nat, st: State, c: nat)
    requires Inv(max, st) && Heads(st) && c < |st.conns|
    ensures Resend(st, c).0 == st
  {
    assert ListOk(st.chunks, st.conns[c].chunks);
  }

  lemma {:induction false} TimeoutsKeep(max: nat, st: State, c: nat, clocks: seq<Clock>)
    requires Inv(max, st) && Heads(st)
    ensures Inv(max, OnTimeouts(st, c, clocks).0)
    decreases clocks
  {
    if clocks != [] && c < |st.conns| {
      hide Inv, Heads;
      if clocks[0].crashed {
        CancelKeeps(max, st, c);
        InvHeads(max, Cancel(st, c));
        TimeoutsKeep(max, Cancel(st, c), c, clocks[1..]);
      } else {
        ResendKeeps(max, st, c);
        TimeoutsKeep(max, st, c + 1, clocks[1..]);
      }
    }
  }

  // ---------------------------------------------------------------------------------------------
  // A new job.
  // ---------------------------------------------------------------------------------------------

  lemma {:induction false} GetKeeps(max: nat, st: State, hashes: seq<Hash>)
    requires Inv(max, st)
    ensures Inv(max, OnGet(st, hashes))
  {
  }
}
