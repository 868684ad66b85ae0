/** Discovery from end to end: the WHOHAS packets of a job, the answers of one peer, and their effect. */
module Exchange {
  import opened Discovery
  import opened Options
  import opened Download
  import opened Ownership
  import opened Scheduler

  /** The chunks from i on that lack a provider and that a peer has. */
  function Wanted(chunks: seq<Chunk>, owned: seq<Chunk>, i: nat): (r: seq<nat>)
    requires i <= |chunks|
    ensures forall k | 0 <= k < |r| :: i <= r[k] < |chunks|
    decreases |chunks| - i
  {
    if i == |chunks| then []
    else if chunks[i].status.NOT_FOUND? && Owns(owned, chunks[i].hash) then [i] + Wanted(chunks, owned, i + 1)
    else Wanted(chunks, owned, i + 1)
  }

  /** Exactly those, in job order, each once. */
  lemma {:induction false} WantedIsExact(chunks: seq<Chunk>, owned: seq<Chunk>, i: nat)
    requires i <= |chunks|
    ensures forall x: nat :: x in Wanted(chunks, owned, i) <==>
              i <= x < |chunks| && chunks[x].status.NOT_FOUND? && Owns(owned, chunks[x].hash)
    ensures forall j, k | 0 <= j < k < |Wanted(chunks, owned, i)| ::
              Wanted(chunks, owned, i)[j] < Wanted(chunks, owned, i)[k]
    decreases |chunks| - i
  {
    if i < |chunks| { WantedIsExact(chunks, owned, i + 1); }
  }

  function HashesAt(chunks: seq<Chunk>, list: seq<nat>): seq<Hash>
    requires InRange(chunks, list)
  {
    seq(|list|, k requires 0 <= k < |list| => chunks[list[k]].hash)
  }

  lemma {:induction false} OwnedOnlyOne(h: Hash, owned: seq<Chunk>)
    ensures OwnedOnly([h], owned) == if Owns(owned, h) then [h] else []
  {
    assert [h][..0] == [];
  }

  lemma {:induction false} NothingListed(chunks: seq<Chunk>, owned: seq<Chunk>)
    ensures OwnedOnly([], owned) == [] && HashesAt(chunks, []) == []
  {
  }

  lemma {:induction false} HashesAtFirst(chunks: seq<Chunk>, i: nat, list: seq<nat>)
    requires i < |chunks| && InRange(chunks, list)
    ensures InRange(chunks, [i] + list) && HashesAt(chunks, [i] + list) == [chunks[i].hash] + HashesAt(chunks, list)
  {
  }

  lemma {:induction false} WantedHashes(chunks: seq<Chunk>, owned: seq<Chunk>, i: nat)
    requires i <= |chunks|
    ensures OwnedOnly(NotFound(chunks, i), owned) == HashesAt(chunks, Wanted(chunks, owned, i))
    decreases |chunks| - i
  {
    hide OwnedOnly, Owns, HashesAt;
    if i < |chunks| {
      WantedHashes(chunks, owned, i + 1);
      if chunks[i].status.NOT_FOUND? {
        OwnedOnlyConcat([chunks[i].hash], NotFound(chunks, i + 1), owned);
        OwnedOnlyOne(chunks[i].hash, owned);
        HashesAtFirst(chunks, i, Wanted(chunks, owned, i + 1));
      }
    } else {
      NothingListed(chunks, owned);
    }
  }

  /** Chunks that can all be claimed by one list: without a provider, not shadowed, each listed once. */
  ghost predicate Claimable(chunks: seq<Chunk>, list: seq<nat>)
  {
    && (forall k | 0 <= k < |list| ::
          list[k] < |chunks| && chunks[list[k]].status.NOT_FOUND? && !Shadowed(chunks, list[k]))
    && (forall j, k | 0 <= j < k < |list| :: list[j] != list[k])
  }

  function Pended(chunks: seq<Chunk>, list: seq<nat>): seq<Chunk>
  {
    seq(|chunks|, i requires 0 <= i < |chunks| => if i in list then chunks[i].(status := PENDING) else chunks[i])
  }

  lemma {:induction false} PendOne(chunks: seq<Chunk>, list: seq<nat>)
    requires Claimable(chunks, list) && list != []
    ensures var chunks1 := SetStatus(chunks, list[0], PENDING);
            && Claimable(chunks1, list[1..]) && Pended(chunks1, list[1..]) == Pended(chunks, list)
            && HashesAt(chunks, list)[1..] == HashesAt(chunks1, list[1..])
  {
    var chunks1 := SetStatus(chunks, list[0], PENDING);
    forall k | 0 <= k < |list[1..]|
      ensures !Shadowed(chunks1, list[1..][k])
    {
      FirstSame(chunks, chunks1, chunks[list[k + 1]].hash, 0);
    }
    hide FirstAt, First;
  }

  /** An IHAVE that lists claimable chunks puts all of them on the list. */
  lemma {:induction false} AddClaimable(chunks: seq<Chunk>, before: seq<nat>, list: seq<nat>)
    requires Claimable(chunks, list)
    ensures InRange(chunks, list)
    ensures AddAll(chunks, before, HashesAt(chunks, list)) == (Pended(chunks, list), before + list)
    decreases list
  {
    if list == [] {
      assert Pended(chunks, list) == chunks && before + list == before;
    } else {
      PendOne(chunks, list);
      assert First(chunks, chunks[list[0]].hash) == list[0];
      assert HashesAt(chunks, list)[0] == chunks[list[0]].hash;
      AddClaimable(SetStatus(chunks, list[0], PENDING), before + [list[0]], list[1..]);
      assert before + [list[0]] + list[1..] == before + list;
    }
  }

  function Marked(chunks: seq<Chunk>, list: seq<nat>): seq<Chunk>
    requires list != []
  {
    seq(|chunks|, i requires 0 <= i < |chunks| =>
      if i == list[0] then chunks[i].(status := DOWNLOADING)
      else if i in list then chunks[i].(status := PENDING)
      else chunks[i])
  }

  /** The state with one more connection, on which the listed chunks are; without one when there are none. */
  function With(st: State, peer: nat, list: seq<nat>): State
  {
    if list == [] then st
    else st.(chunks := Marked(st.chunks, list), conns := [Connection(peer, false, list)] + st.conns)
  }

  lemma {:induction false} FirstAnswer(st: State, max: nat, peer: nat, list: seq<nat>)
    requires st.active && FindConn(st.conns, peer, 0) < 0 && |st.conns| < max && Claimable(st.chunks, list)
    ensures InRange(st.chunks, list)
    ensures OnIhave(st, max, peer, HashesAt(st.chunks, list)).0 == With(st, peer, list)
  {
    AddClaimable(st.chunks, [], list);
    AddAllInRange(st.chunks, [], HashesAt(st.chunks, list));
    assert [] + list == list;
    hide AddAll, FindConn, Claimable;
    if list == [] {
      assert Pended(st.chunks, list) == st.chunks;
    } else {
      assert SetStatus(Pended(st.chunks, list), list[0], DOWNLOADING) == Marked(st.chunks, list);
    }
  }

  lemma {:induction false} MarkedClaimable(chunks: seq<Chunk>, list: seq<nat>, more: seq<nat>)
    requires list != [] && Claimable(chunks, list + more)
    ensures Claimable(Marked(chunks, list), more)
    ensures InRange(chunks, more) && HashesAt(Marked(chunks, list), more) == HashesAt(chunks, more)
  {
    var all := list + more;
    forall k | 0 <= k < |more|
      ensures more[k] < |chunks| && chunks[more[k]].status.NOT_FOUND? && more[k] !in list
      ensures !Shadowed(Marked(chunks, list), more[k])
    {
      assert all[|list| + k] == more[k];
      forall j | 0 <= j < |list|
        ensures list[j] != more[k]
      {
        assert all[j] == list[j];
      }
      FirstSame(chunks, Marked(chunks, list), chunks[more[k]].hash, 0);
    }
    forall j, k | 0 <= j < k < |more|
      ensures more[j] != more[k]
    {
      assert all[|list| + j] == more[j] && all[|list| + k] == more[k];
    }
  }

  lemma {:induction false} MarkedMore(chunks: seq<Chunk>, list: seq<nat>, more: seq<nat>)
    requires list != [] && forall k | 0 <= k < |more| :: more[k] != list[0]
    ensures Pended(Marked(chunks, list), more) == Marked(chunks, list + more)
  {
  }

  lemma {:induction false} NextAnswer(st: State, max: nat, peer: nat, list: seq<nat>, more: seq<nat>)
    requires st.active && list != [] && Claimable(st.chunks, list + more)
    ensures InRange(st.chunks, more)
    ensures OnIhave(With(st, peer, list), max, peer, HashesAt(st.chunks, more)).0 == With(st, peer, list + more)
  {
    MarkedClaimable(st.chunks, list, more);
    AddClaimable(Marked(st.chunks, list), list, more);
    forall k | 0 <= k < |more|
      ensures more[k] != list[0]
    {
      assert (list + more)[|list| + k] == more[k] && (list + more)[0] == list[0];
    }
    MarkedMore(st.chunks, list, more);
    var conns := [Connection(peer, false, list)] + st.conns;
    hide AddAll, Claimable, Marked, Pended;
    assert FindConn(conns, peer, 0) == 0;
    assert conns[0 := Connection(peer, false, list + more)] == [Connection(peer, false, list + more)] + st.conns;
  }

  /** One more answer from the peer: its chunks join those of the answers before it. */
  lemma {:induction false} OneAnswer(st: State, max: nat, peer: nat, list: seq<nat>, more: seq<nat>)
    requires st.active && FindConn(st.conns, peer, 0) < 0 && |st.conns| < max
    requires Claimable(st.chunks, list + more)
    ensures InRange(st.chunks, more)
    ensures OnIhave(With(st, peer, list), max, peer, HashesAt(st.chunks, more)).0 == With(st, peer, list + more)
  {
    if list == [] {
      assert list + more == more;
      FirstAnswer(st, max, peer, more);
    } else {
      NextAnswer(st, max, peer, list, more);
    }
  }

  /** The answers of one peer, received one after another. */
  function Deliver(st: State, max: nat, peer: nat, rs: seq<Option<Packet>>): State
    decreases rs
  {
    if rs == [] then st
    else
      var before := Deliver(st, max, peer, rs[..|rs| - 1]);
      if rs[|rs| - 1].Some? then OnIhave(before, max, peer, Hashes(rs[|rs| - 1].value)).0 else before
  }

  lemma {:induction false} NoHashes(chunks: seq<Chunk>, list: seq<nat>)
    requires InRange(chunks, list) && |HashesAt(chunks, list)| == 0
    ensures list == []
  {
  }

  lemma {:induction false} DeliverAll(st: State, max: nat, peer: nat, rs: seq<Option<Packet>>, list: seq<nat>)
    requires st.active && FindConn(st.conns, peer, 0) < 0 && |st.conns| < max
    requires Claimable(st.chunks, list) && AnsweredHashes(rs) == HashesAt(st.chunks, list)
    ensures Deliver(st, max, peer, rs) == With(st, peer, list)
    decreases rs
  {
    if rs == [] {
      NoHashes(st.chunks, list);
    } else {
      var n := |rs| - 1;
      var k := |AnsweredHashes(rs[..n])|;
      ClaimableSplit(st.chunks, list, k);
      assert AnsweredHashes(rs) == AnsweredHashes(rs[..n]) + HashesOf(rs[n]);
      hide Claimable, HashesAt, OnIhave, With, FindConn, Hashes;
      DeliverAll(st, max, peer, rs[..n], list[..k]);
      if rs[n].Some? {
        OneAnswer(st, max, peer, list[..k], list[k..]);
      } else {
        assert |HashesAt(st.chunks, list[k..])| == 0;
        NoHashes(st.chunks, list[k..]);
        assert list[..k] == list;
      }
    }
  }

  lemma {:induction false} ClaimableSplit(chunks: seq<Chunk>, list: seq<nat>, k: nat)
    requires Claimable(chunks, list) && k <= |list|
    ensures list[..k] + list[k..] == list && Claimable(chunks, list[..k])
    ensures InRange(chunks, list) && InRange(chunks, list[..k]) && InRange(chunks, list[k..])
    ensures HashesAt(chunks, list[..k]) == HashesAt(chunks, list)[..k]
    ensures HashesAt(chunks, list[k..]) == HashesAt(chunks, list)[k..]
  {
  }

  /** All WHOHAS packets of a job, the answers of one peer to them, and their reception: the peer's
      connection then lists exactly the chunks without a provider that the peer has, in job order. */
  lemma {:induction false} DiscoveryComposes(
    st: State, max: nat, peer: nat, owned: seq<Chunk>, ps: seq<Packet>, rs: seq<Option<Packet>>)
    requires st.active && FindConn(st.conns, peer, 0) < 0 && |st.conns| < max
    requires forall i | 0 <= i < |st.chunks| :: !Shadowed(st.chunks, i)
    requires |NotFound(st.chunks, 0)| <= MAX_HASHES * |ps| < |NotFound(st.chunks, 0)| + MAX_HASHES
    requires Carries(ps, NotFound(st.chunks, 0)) && Answers(ps, owned, rs)
    ensures Deliver(st, max, peer, rs) == With(st, peer, Wanted(st.chunks, owned, 0))
  {
    hide Carries, Answers, OwnedOnly, Wanted, Shadowed, Owns, FindConn, HashesAt;
    PackingIsExact(ps, NotFound(st.chunks, 0));
    AnswersGatherOwned(ps, owned, rs);
    WantedHashes(st.chunks, owned, 0);
    WantedClaimable(st.chunks, owned);
    hide Claimable;
    DeliverAll(st, max, peer, rs, Wanted(st.chunks, owned, 0));
  }

  lemma {:induction false} WantedClaimable(chunks: seq<Chunk>, owned: seq<Chunk>)
    requires forall i | 0 <= i < |chunks| :: !Shadowed(chunks, i)
    ensures Claimable(chunks, Wanted(chunks, owned, 0))
  {
    hide Wanted, Shadowed, Owns;
    var list := Wanted(chunks, owned, 0);
    WantedIsExact(chunks, owned, 0);
    forall k | 0 <= k < |list|
      ensures list[k] < |chunks| && chunks[list[k]].status.NOT_FOUND?
    {
      assert list[k] in list;
    }
  }

  // ---------------------------------------------------------------------------------------------
  // The same for a peer that already has a connection.
  // ---------------------------------------------------------------------------------------------

  /** The state with more chunks behind those that connection c already lists. */
  function Extended(st: State, c: nat, list: seq<nat>): State
    requires c < |st.conns|
  {
    st.(chunks := Pended(st.chunks, list),
        conns := st.conns[c := st.conns[c].(chunks := st.conns[c].chunks + list)])
  }

  lemma {:induction false} FindConnStays(conns: seq<Connection>, c: nat, list: seq<nat>, peer: nat, d: nat)
    requires c < |conns| && d <= |conns|
    ensures FindConn(conns[c := conns[c].(chunks := list)], peer, d) == FindConn(conns, peer, d)
    decreases |conns| - d
  {
    if d < |conns| { FindConnStays(conns, c, list, peer, d + 1); }
  }

  lemma {:induction false} PendedClaimable(chunks: seq<Chunk>, list: seq<nat>, more: seq<nat>)
    requires Claimable(chunks, list + more)
    ensures Claimable(Pended(chunks, list), more)
    ensures InRange(chunks, more) && HashesAt(Pended(chunks, list), more) == HashesAt(chunks, more)
  {
    if list == [] {
      assert Pended(chunks, list) == chunks && list + more == more;
    } else {
      MarkedClaimable(chunks, list, more);
      forall k | 0 <= k < |more|
        ensures more[k] !in list && !Shadowed(Pended(chunks, list), more[k])
      {
        assert Marked(chunks, list)[more[k]].status.NOT_FOUND?;
        assert (list + more)[|list| + k] == more[k];
        FirstSame(chunks, Pended(chunks, list), chunks[more[k]].hash, 0);
      }
    }
  }

  lemma {:induction false} OneMoreAnswer(st: State, max: nat, peer: nat, list: seq<nat>, more: seq<nat>)
    requires st.active && FindConn(st.conns, peer, 0) >= 0 && Claimable(st.chunks, list + more)
    ensures InRange(st.chunks, more)
    ensures var c := FindConn(st.conns, peer, 0);
            OnIhave(Extended(st, c, list), max, peer, HashesAt(st.chunks, more)).0 == Extended(st, c, list + more)
  {
    var c := FindConn(st.conns, peer, 0);
    var before := st.conns[c].chunks;
    FindConnStays(st.conns, c, before + list, peer, 0);
    PendedClaimable(st.chunks, list, more);
    AddClaimable(Pended(st.chunks, list), before + list, more);
    assert before + list + more == before + (list + more);
    assert Pended(Pended(st.chunks, list), more) == Pended(st.chunks, list + more);
    hide AddAll, Claimable, FindConn, Pended;
  }

  lemma {:induction false} DeliverMore(st: State, max: nat, peer: nat, rs: seq<Option<Packet>>, list: seq<nat>)
    requires st.active && FindConn(st.conns, peer, 0) >= 0
    requires Claimable(st.chunks, list) && AnsweredHashes(rs) == HashesAt(st.chunks, list)
    ensures Deliver(st, max, peer, rs) == Extended(st, FindConn(st.conns, peer, 0), list)
    decreases rs
  {
    var c := FindConn(st.conns, peer, 0);
    if rs == [] {
      NoHashes(st.chunks, list);
      assert Pended(st.chunks, []) == st.chunks && st.conns[c].chunks + [] == st.conns[c].chunks;
    } else {
      var n := |rs| - 1;
      var k := |AnsweredHashes(rs[..n])|;
      ClaimableSplit(st.chunks, list, k);
      assert AnsweredHashes(rs) == AnsweredHashes(rs[..n]) + HashesOf(rs[n]);
      hide Claimable, HashesAt, OnIhave, Extended, FindConn, Hashes;
      DeliverMore(st, max, peer, rs[..n], list[..k]);
      if rs[n].Some? {
        OneMoreAnswer(st, max, peer, list[..k], list[k..]);
      } else {
        assert |HashesAt(st.chunks, list[k..])| == 0;
        NoHashes(st.chunks, list[k..]);
        assert list[..k] == list;
      }
    }
  }

  /** A peer with a connection: the chunks it has are appended to the connection's list, in job order. */
  lemma {:induction false} DiscoveryExtends(
    st: State, max: nat, peer: nat, owned: seq<Chunk>, ps: seq<Packet>, rs: seq<Option<Packet>>)
    requires st.active && FindConn(st.conns, peer, 0) >= 0
    requires forall i | 0 <= i < |st.chunks| :: !Shadowed(st.chunks, i)
    requires |NotFound(st.chunks, 0)| <= MAX_HASHES * |ps| < |NotFound(st.chunks, 0)| + MAX_HASHES
    requires Carries(ps, NotFound(st.chunks, 0)) && Answers(ps, owned, rs)
    ensures Deliver(st, max, peer, rs)
         == Extended(st, FindConn(st.conns, peer, 0), Wanted(st.chunks, owned, 0))
  {
    hide Carries, Answers, OwnedOnly, Wanted, Shadowed, Owns, FindConn, HashesAt;
    PackingIsExact(ps, NotFound(st.chunks, 0));
    AnswersGatherOwned(ps, owned, rs);
    WantedHashes(st.chunks, owned, 0);
    WantedClaimable(st.chunks, owned);
    hide Claimable;
    DeliverMore(st, max, peer, rs, Wanted(st.chunks, owned, 0));
  }
}
