/** job.c: the WHOHAS packets of a job and the IHAVE packet that answers one. */
module Discovery {
  import opened Options
  import Words

  type Byte = Words.Byte

  const HASH_SIZE := 20

  const ALIGNMENT := 4

  const HEADER_SIZE := 16

  const MAX_PACKET := 1500

  const MAX_PAYLOAD := 1484

  const MAX_HASHES := 74

  const TYPE_WHOHAS := 0

  const TYPE_IHAVE := 1

  type Hash = h: seq<Byte> | |h| == HASH_SIZE witness seq(20, _ => 0)

  type Payload = p: seq<Byte> | |p| == MAX_PAYLOAD witness seq(1484, _ => 0)

  datatype Status = NOT_FOUND | DOWNLOADING | PENDING | FINISHED

  /** A chunk of a job with its receive counter and the received part of its buffer. */
  datatype Chunk = Chunk(hash: Hash, status: Status, seqNum: int, data: seq<Byte>)

  datatype Packet = Packet(kind: int, length: int, payload: Payload)

  // ---------------------------------------------------------------------------------------------
  // The hash list in a payload: a count byte, three bytes of alignment, the hashes.
  // ---------------------------------------------------------------------------------------------

  /** char is signed. */
  function SignedChar(b: Byte): int { if b < 128 then b as int else b as int - 256 }

  function Count(p: Payload): (n: nat)
    ensures n <= MAX_HASHES
  {
    var field := SignedChar(p[0]);
    if field > MAX_HASHES then MAX_HASHES else if field < 0 then 0 else field
  }

  /** A count above the maximum is cut off, and one that is negative as a signed byte lists nothing. */
  lemma {:induction false} CountOfAnyByte(p: Payload, n: nat)
    requires n < 256 && p[0] == n as Byte
    ensures Count(p) == if n <= 74 then n else if n < 128 then 74 else 0
  {
    ByteRoundTrip(n);
  }

  lemma {:induction false} ByteRoundTrip(n: nat)
    requires n < 256
    ensures (n as Byte) as int == n && ((n as Byte) < 128 <==> n < 128)
  {
  }

  function HashAt(p: Payload, i: nat): Hash
    requires i < MAX_HASHES
  {
    p[ALIGNMENT + HASH_SIZE * i..ALIGNMENT + HASH_SIZE * i + HASH_SIZE]
  }

  function Listed(p: Payload, n: nat): (r: seq<Hash>)
    requires n <= MAX_HASHES
    ensures |r| == n
  {
    seq(n, i requires 0 <= i < n => HashAt(p, i))
  }

  /** What a peer that receives the packet reads in it. */
  function Hashes(p: Packet): seq<Hash> { Listed(p.payload, Count(p.payload)) }

  lemma {:induction false} CountRoundTrip(n: nat)
    requires n <= MAX_HASHES
    ensures SignedChar(n as Byte) == n
  {
  }

  /** memcpy of hash i into the payload. */
  function Put(p: Payload, i: nat, h: Hash): Payload
    requires i < MAX_HASHES
  {
    p[..ALIGNMENT + HASH_SIZE * i] + h + p[ALIGNMENT + HASH_SIZE * i + HASH_SIZE..]
  }

  lemma {:induction false} PutExtends(p: Payload, i: nat, h: Hash)
    requires i < MAX_HASHES
    ensures Listed(Put(p, i, h), i + 1) == Listed(p, i) + [h]
    ensures Put(p, i, h)[0] == p[0]
  {
    var q := Put(p, i, h);
    assert HashAt(q, i) == h;
    forall k | 0 <= k < i
      ensures HashAt(q, k) == HashAt(p, k)
    {
    }
  }

  /** A well-formed packet: the length field fits the list, and the packet fits into the network's limit. */
  predicate WellFormed(p: Packet, kind: int)
  {
    && p.kind == kind && 1 <= |Hashes(p)|
    && p.length == HEADER_SIZE + ALIGNMENT + HASH_SIZE * |Hashes(p)| && p.length <= MAX_PACKET
  }

  method CopyHash(payload: array<Byte>, i: nat, h: Hash)
    requires payload.Length == MAX_PAYLOAD && i < MAX_HASHES
    modifies payload
    ensures payload[..] == Put(old(payload[..]), i, h)
  {
    var base := ALIGNMENT + HASH_SIZE * i;
    for k := 0 to HASH_SIZE
      invariant payload[base..base + k] == h[..k]
      invariant payload[..base] == old(payload[..base])
      invariant payload[base + HASH_SIZE..] == old(payload[base + HASH_SIZE..])
    {
      payload[base + k] := h[k];
    }
    assert payload[..] == payload[..base] + payload[base..base + HASH_SIZE] + payload[base + HASH_SIZE..];
  }

  // ---------------------------------------------------------------------------------------------
  // WHOHAS.
  // ---------------------------------------------------------------------------------------------

  /** The hashes of the chunks from i on that still lack a provider, in job order. */
  function NotFound(job: seq<Chunk>, i: nat): seq<Hash>
    requires i <= |job|
    decreases |job| - i
  {
    if i == |job| then []
    else if job[i].status.NOT_FOUND? then [job[i].hash] + NotFound(job, i + 1)
    else NotFound(job, i + 1)
  }

  method GetNotFoundChunkNumber(job: seq<Chunk>) returns (n: nat)
    ensures n == |NotFound(job, 0)|
  {
    n := 0;
    for i := 0 to |job|
      invariant n + |NotFound(job, i)| == |NotFound(job, 0)|
    {
      if job[i].status.NOT_FOUND? { n := n + 1; }
    }
  }

  /** The next chunk without a provider, from the shared cursor on; the cursor moves behind it. */
  method NextNotFound(job: seq<Chunk>, cursor: nat) returns (h: Hash, next: nat)
    requires cursor <= |job| && NotFound(job, cursor) != []
    ensures cursor < next <= |job|
    ensures NotFound(job, cursor) == [h] + NotFound(job, next)
  {
    next := cursor;
    while !job[next].status.NOT_FOUND?
      invariant cursor <= next < |job| && NotFound(job, next) == NotFound(job, cursor)
      decreases |job| - next
    {
      next := next + 1;
    }
    h := job[next].hash;
    next := next + 1;
  }

  /** The payload of one WHOHAS packet: the next n hashes. */
  method FillPayload(job: seq<Chunk>, n: nat, cursor: nat) returns (payload: array<Byte>, next: nat)
    requires cursor <= |job| && n <= |NotFound(job, cursor)| && n <= MAX_HASHES
    ensures fresh(payload) && payload.Length == MAX_PAYLOAD && next <= |job|
    ensures Count(payload[..]) == n && Listed(payload[..], n) == NotFound(job, cursor)[..n]
    ensures NotFound(job, next) == NotFound(job, cursor)[n..]
  {
    hide HashAt, Put, NotFound, Listed;
    payload := new Byte[MAX_PAYLOAD];
    CountRoundTrip(n);
    payload[0] := n as Byte;
    next := cursor;
    assert Listed(payload[..], 0) == [];
    for j := 0 to n
      invariant next <= |job| && NotFound(job, next) == NotFound(job, cursor)[j..]
      invariant SignedChar(payload[0]) == n && Listed(payload[..], j) == NotFound(job, cursor)[..j]
    {
      var h;
      h, next := NextNotFound(job, next);
      PutExtends(payload[..], j, h);
      CopyHash(payload, j, h);
    }
  }

  /** The part of a list that packet k carries. */
  function Share(all: seq<Hash>, k: nat): seq<Hash>
    requires MAX_HASHES * k <= |all|
  {
    all[MAX_HASHES * k..if MAX_HASHES * (k + 1) <= |all| then MAX_HASHES * (k + 1) else |all|]
  }

  ghost predicate Carries(ps: seq<Packet>, all: seq<Hash>)
    requires MAX_HASHES * |ps| < |all| + MAX_HASHES
  {
    forall k | 0 <= k < |ps| :: WellFormed(ps[k], TYPE_WHOHAS) && Hashes(ps[k]) == Share(all, k)
  }

  method AllWhohasPackets(job: seq<Chunk>) returns (ps: seq<Packet>)
    ensures |NotFound(job, 0)| <= MAX_HASHES * |ps| < |NotFound(job, 0)| + MAX_HASHES
    ensures Carries(ps, NotFound(job, 0))
  {
    hide NotFound, Listed;
    var n := GetNotFoundChunkNumber(job);
    var packetNumber := if n % MAX_HASHES == 0 then n / MAX_HASHES else n / MAX_HASHES + 1;
    ps := [];
    if n == 0 { return; }
    ghost var all := NotFound(job, 0);
    var packetCount: nat, cursor: nat := 0, 0;
    while packetCount < packetNumber
      invariant packetCount == |ps| <= packetNumber && cursor <= |job|
      invariant Carries(ps, all)
      invariant NotFound(job, cursor) ==
                if packetCount < packetNumber then all[MAX_HASHES * packetCount..] else []
    {
      var hashNum := if packetNumber - packetCount > 1 then MAX_HASHES else n - packetCount * MAX_HASHES;
      var payload;
      assert all[MAX_HASHES * packetCount..][..hashNum] == Share(all, packetCount);
      payload, cursor := FillPayload(job, hashNum, cursor);
      var p := Packet(TYPE_WHOHAS, HEADER_SIZE + ALIGNMENT + HASH_SIZE * hashNum, payload[..]);
      assert WellFormed(p, TYPE_WHOHAS) && Hashes(p) == Share(all, packetCount);
      ps := ps + [p];
      packetCount := packetCount + 1;
    }
  }

  /** What all packets list, one after another. */
  function Gathered(ps: seq<Packet>): seq<Hash>
  {
    if ps == [] then [] else Gathered(ps[..|ps| - 1]) + Hashes(ps[|ps| - 1])
  }

  lemma {:induction false} GatheredSoFar(ps: seq<Packet>, all: seq<Hash>, k: nat)
    requires |all| <= MAX_HASHES * |ps| < |all| + MAX_HASHES && Carries(ps, all) && k <= |ps|
    ensures Gathered(ps[..k]) == all[..if k < |ps| then MAX_HASHES * k else |all|]
  {
    if k > 0 {
      GatheredSoFar(ps, all, k - 1);
      assert ps[..k][..k - 1] == ps[..k - 1];
      assert Hashes(ps[k - 1]) == Share(all, k - 1);
    }
  }

  /** Nothing is lost, repeated or reordered: the lists together are the hashes that lack a provider. */
  lemma {:induction false} PackingIsExact(ps: seq<Packet>, all: seq<Hash>)
    requires |all| <= MAX_HASHES * |ps| < |all| + MAX_HASHES && Carries(ps, all)
    ensures Gathered(ps) == all
  {
    GatheredSoFar(ps, all, |ps|);
    assert ps[..|ps|] == ps;
  }

  // ---------------------------------------------------------------------------------------------
  // IHAVE.
  // ---------------------------------------------------------------------------------------------

  /** The first chunk from i on with this hash, or -1. */
  function FirstAt(chunks: seq<Chunk>, h: Hash, i: nat): (r: int)
    requires i <= |chunks|
    ensures r == -1 || (i <= r < |chunks| && chunks[r].hash == h)
    ensures r == -1 ==> forall k | i <= k < |chunks| :: chunks[k].hash != h
    ensures forall k | i <= k < r :: chunks[k].hash != h
    decreases |chunks| - i
  {
    if i == |chunks| then -1 else if chunks[i].hash == h then i else FirstAt(chunks, h, i + 1)
  }

  function First(chunks: seq<Chunk>, h: Hash): int { FirstAt(chunks, h, 0) }

  predicate Owns(owned: seq<Chunk>, h: Hash) { First(owned, h) >= 0 }

  /** get_chunk over the chunks of the job, seach_owned_chunk over those a peer has. */
  method SearchChunk(chunks: seq<Chunk>, h: Hash) returns (r: int)
    ensures r == First(chunks, h)
  {
    var i := 0;
    while i < |chunks| && chunks[i].hash != h
      invariant 0 <= i <= |chunks| && FirstAt(chunks, h, i) == First(chunks, h)
    {
      i := i + 1;
    }
    r := if i < |chunks| then i else -1;
  }

  /** The hashes of a list that a peer has, in the order of the list. */
  function OwnedOnly(hs: seq<Hash>, owned: seq<Chunk>): (r: seq<Hash>)
    ensures |r| <= |hs|
  {
    if hs == [] then []
    else
      var h := hs[|hs| - 1];
      OwnedOnly(hs[..|hs| - 1], owned) + if Owns(owned, h) then [h] else []
  }

  /** Copies the requested hashes that the peer has. */
  method CopyOwned(whohas: Packet, owned: seq<Chunk>, payload: array<Byte>) returns (n: nat)
    requires payload.Length == MAX_PAYLOAD
    modifies payload
    ensures n <= MAX_HASHES && Listed(payload[..], n) == OwnedOnly(Hashes(whohas), owned)
  {
    hide Put, First, HashAt;
    var field := SignedChar(whohas.payload[0]);
    var requested := if field > MAX_HASHES then MAX_HASHES else field;
    ghost var hs := Hashes(whohas);
    n := 0;
    var i: nat := 0;
    while i < requested
      invariant i <= |hs| && n <= i
      invariant Listed(payload[..], n) == OwnedOnly(hs[..i], owned)
      decreases requested - i
    {
      var h := HashAt(whohas.payload, i);
      assert h == hs[i] && hs[..i + 1][..i] == hs[..i];
      var at := SearchChunk(owned, h);
      if at >= 0 {
        PutExtends(payload[..], n, h);
        CopyHash(payload, n, h);
        n := n + 1;
      }
      i := i + 1;
    }
    assert hs[..i] == hs;
  }

  method IhavePacket(whohas: Packet, owned: seq<Chunk>) returns (r: Option<Packet>)
    ensures r.None? <==> OwnedOnly(Hashes(whohas), owned) == []
    ensures r.Some? ==> WellFormed(r.value, TYPE_IHAVE) && Hashes(r.value) == OwnedOnly(Hashes(whohas), owned)
  {
    hide Listed, OwnedOnly;
    var payload := new Byte[MAX_PAYLOAD];
    var n := CopyOwned(whohas, owned, payload);
    if n == 0 { return None; }
    CountRoundTrip(n);
    ghost var before: Payload := payload[..];
    payload[0] := n as Byte;
    CountByteKeepsList(before, payload[..], n);
    r := Some(Packet(TYPE_IHAVE, HEADER_SIZE + ALIGNMENT + HASH_SIZE * n, payload[..]));
  }

  lemma {:induction false} CountByteKeepsList(p: Payload, q: Payload, n: nat)
    requires n <= MAX_HASHES && q == p[0 := q[0]]
    ensures Listed(q, n) == Listed(p, n)
  {
    forall i | 0 <= i < n
      ensures HashAt(q, i) == HashAt(p, i)
    {
    }
  }

  lemma {:induction false} OwnedOnlyConcat(hs: seq<Hash>, more: seq<Hash>, owned: seq<Chunk>)
    ensures OwnedOnly(hs + more, owned) == OwnedOnly(hs, owned) + OwnedOnly(more, owned)
    decreases more
  {
    if more == [] {
      assert hs + more == hs;
    } else {
      var n := |more| - 1;
      assert (hs + more)[..|hs + more| - 1] == hs + more[..n];
      OwnedOnlyConcat(hs, more[..n], owned);
    }
  }

  /** What a peer answers to all packets: one IHAVE per packet that lists something it has. */
  ghost predicate Answers(ps: seq<Packet>, owned: seq<Chunk>, rs: seq<Option<Packet>>)
  {
    |rs| == |ps| && forall k | 0 <= k < |ps| ::
      && (rs[k].None? <==> OwnedOnly(Hashes(ps[k]), owned) == [])
      && (rs[k].Some? ==>
            WellFormed(rs[k].value, TYPE_IHAVE) && Hashes(rs[k].value) == OwnedOnly(Hashes(ps[k]), owned))
  }

  function HashesOf(r: Option<Packet>): seq<Hash> { if r.Some? then Hashes(r.value) else [] }

  function AnsweredHashes(rs: seq<Option<Packet>>): seq<Hash>
  {
    if rs == [] then [] else AnsweredHashes(rs[..|rs| - 1]) + HashesOf(rs[|rs| - 1])
  }

  lemma {:induction false} AnswersGatherOwned(ps: seq<Packet>, owned: seq<Chunk>, rs: seq<Option<Packet>>)
    requires Answers(ps, owned, rs)
    ensures AnsweredHashes(rs) == OwnedOnly(Gathered(ps), owned)
    decreases ps
  {
    if ps != [] {
      var n := |ps| - 1;
      AnswersGatherOwned(ps[..n], owned, rs[..n]);
      OwnedOnlyConcat(Gathered(ps[..n]), Hashes(ps[n]), owned);
    }
  }
}
