/** Runs of the download scheduler: what every event keeps, and what a finished job means. */
module Scheduler {
  import opened Discovery
  import opened Download
  import opened Ownership

  datatype Event =
    | Get(hashes: seq<Hash>)
    | Ihave(peer: nat, hashes: seq<Hash>)
    | Data(peer: nat, seqNum: int, payload: Block, writes: bool)
    | Timeouts(clocks: seq<Clock>)
    | Finish

  ghost function Step(max: nat, st: State, e: Event): State
    requires Inv(max, st)
  {
    InvHeads(max, st);
    match e
    case Get(hashes) => OnGet(st, hashes)
    case Ihave(peer, hashes) => OnIhave(st, max, peer, hashes).0
    case Data(peer, seqNum, payload, writes) => OnData(st, peer, seqNum, payload, writes).0
    case Timeouts(clocks) => OnTimeouts(st, 0, clocks).0
    case Finish => OnFinish(st)
  }

  lemma {:induction false} IhaveKeeps(max: nat, st: State, peer: nat, hs: seq<Hash>)
    requires Inv(max, st)
    ensures Inv(max, OnIhave(st, max, peer, hs).0)
  {
    hide Inv;
    if st.active {
      if FindConn(st.conns, peer, 0) >= 0 {
        IhaveOnConnectionKeeps(max, st, peer, hs);
      } else if |st.conns| < max {
        ConnectKeeps(max, st, peer, hs);
      }
    }
  }

  lemma {:induction false} FinishKeeps(max: nat, st: State)
    requires Inv(max, st)
    ensures Inv(max, OnFinish(st))
  {
    hide ListsOk, Owned, CountersOk, SavesOk, OnePerPeer;
  }

  lemma {:induction false} StepKeepsInv(max: nat, st: State, e: Event)
    requires Inv(max, st)
    ensures Inv(max, Step(max, st, e))
  {
    InvHeads(max, st);
    hide Inv, Heads, OnIhave, OnGet, OnData, OnTimeouts, OnFinish;
    match e
    case Get(hashes) => GetKeeps(max, st, hashes);
    case Ihave(peer, hashes) => IhaveKeeps(max, st, peer, hashes);
    case Data(peer, seqNum, payload, writes) => DataKeeps(max, st, peer, seqNum, payload, writes);
    case Timeouts(clocks) => TimeoutsKeep(max, st, 0, clocks);
    case Finish => FinishKeeps(max, st);
  }

  ghost function Run(max: nat, st: State, es: seq<Event>): (r: State)
    requires Inv(max, st)
    ensures Inv(max, r)
    decreases es
  {
    StepKeepsInv(max, st, if es == [] then Finish else es[0]);
    if es == [] then st else Run(max, Step(max, st, es[0]), es[1..])
  }

  /** The ownership invariant holds after every sequence of events. */
  lemma {:induction false} OwnershipInvariant(max: nat, es: seq<Event>)
    ensures Inv(max, IDLE) && Inv(max, Run(max, IDLE, es))
  {
    IdleInv(max);
  }

  // ---------------------------------------------------------------------------------------------
  // What the invariant says about one chunk.
  // ---------------------------------------------------------------------------------------------

  ghost predicate HeldAt(conns: seq<Connection>, c: nat, k: nat, i: nat)
  {
    c < |conns| && k < |conns[c].chunks| && conns[c].chunks[k] == i
  }

  lemma {:induction false} HeldSomewhere(conns: seq<Connection>, i: nat) returns (c: nat, k: nat)
    requires Held(conns)[i] > 0
    ensures HeldAt(conns, c, k, i)
    decreases conns
  {
    if i in conns[0].chunks {
      c := 0;
      k :| k < |conns[0].chunks| && conns[0].chunks[k] == i;
    } else {
      c, k := HeldSomewhere(conns[1..], i);
      c := c + 1;
    }
  }

  lemma {:induction false} HeldOnce(chunks: seq<Chunk>, conns: seq<Connection>, c: nat, k: nat, d: nat, j: nat, i: nat)
    requires Owned(chunks, Held(conns)) && HeldAt(conns, c, k, i) && HeldAt(conns, d, j, i)
    ensures c == d && k == j
  {
    if c != d {
      Apart(chunks, conns, c, d, i);
    } else if k != j {
      HeldSplit(conns, c);
      OnceInList(chunks, conns[c].chunks, Others(conns, c), if k < j then k else j, if k < j then j else k);
    }
  }

  /** A chunk is pending or downloading exactly when one list holds it, at one place; at the head it is downloading. */
  lemma {:induction false} OneHolder(max: nat, st: State, i: nat)
    requires Inv(max, st) && i < |st.chunks|
    ensures Busy(st.chunks[i].status) <==> exists c: nat, k: nat :: HeldAt(st.conns, c, k, i)
    ensures forall c: nat, k: nat, d: nat, j: nat | HeldAt(st.conns, c, k, i) && HeldAt(st.conns, d, j, i) :: c == d && k == j
    ensures forall c: nat, k: nat | HeldAt(st.conns, c, k, i) :: st.chunks[i].status == if k == 0 then DOWNLOADING else PENDING
  {
    if Held(st.conns)[i] > 0 {
      var c, k := HeldSomewhere(st.conns, i);
    }
    forall c: nat, k: nat | HeldAt(st.conns, c, k, i)
      ensures st.chunks[i].status == if k == 0 then DOWNLOADING else PENDING
    {
      assert ListOk(st.chunks, st.conns[c].chunks);
    }
    hide ListsOk, CountersOk, SavesOk;
    forall c: nat, k: nat, d: nat, j: nat | HeldAt(st.conns, c, k, i) && HeldAt(st.conns, d, j, i)
      ensures c == d && k == j
    {
      HeldOnce(st.chunks, st.conns, c, k, d, j, i);
    }
  }

  // ---------------------------------------------------------------------------------------------
  // A job that is declared got.
  // ---------------------------------------------------------------------------------------------

  ghost predicate AllFinished(chunks: seq<Chunk>) { forall i | 0 <= i < |chunks| :: chunks[i].status.FINISHED? }

  lemma {:induction false} NoneNotFound(chunks: seq<Chunk>, i: nat)
    requires i <= |chunks|
    ensures NotFound(chunks, i) == [] <==> forall k | i <= k < |chunks| :: !chunks[k].status.NOT_FOUND?
    decreases |chunks| - i
  {
    if i < |chunks| { NoneNotFound(chunks, i + 1); }
  }

  lemma {:induction false} LiveMeansUnfinished(max: nat, st: State)
    requires Inv(max, st) && st.conns != []
    ensures !AllFinished(st.chunks)
  {
    var list := st.conns[0].chunks;
    assert ListOk(st.chunks, list);
    assert st.chunks[list[0]].status.DOWNLOADING?;
  }

  /** finish_job ends a job exactly when every chunk of it is finished. */
  lemma {:induction false} FinishIsSound(max: nat, st: State)
    requires Inv(max, st) && st.active
    ensures !OnFinish(st).active <==> AllFinished(st.chunks)
  {
    NoneNotFound(st.chunks, 0);
    if st.conns != [] { LiveMeansUnfinished(max, st); }
    if st.conns == [] {
      forall i | 0 <= i < |st.chunks|
        ensures !Busy(st.chunks[i].status)
      {
        assert Held(st.conns)[i] == 0;
      }
    }
  }

  /** Then the output file has got each chunk exactly once, and nothing else, each with its wanted hash. */
  lemma {:induction false} GotMeansSaved(max: nat, st: State)
    requires Inv(max, st) && AllFinished(st.chunks)
    ensures multiset(Indices(st.saved)) == multiset(Numbers(|st.chunks|))
    ensures forall s | s in st.saved ::
              s.index < |st.chunks| && |s.data| == CHUNK_SIZE && HashOf(s.data) == st.chunks[s.index].hash
  {
    forall i: nat
      ensures multiset(Indices(st.saved))[i] == multiset(Numbers(|st.chunks|))[i]
    {
      NumbersOnce(|st.chunks|, i);
    }
    forall s | s in st.saved
      ensures s.index < |st.chunks| && |s.data| == CHUNK_SIZE && HashOf(s.data) == st.chunks[s.index].hash
    {
      assert GoodSave(st.chunks, s);
    }
  }

  function Numbers(n: nat): seq<nat> { if n == 0 then [] else Numbers(n - 1) + [n - 1] }

  lemma {:induction false} CountAppend(a: seq<nat>, x: nat, i: nat)
    ensures multiset(a + [x])[i] == multiset(a)[i] + if i == x then 1 else 0
  {
  }

  lemma {:induction false} NumbersOnce(n: nat, i: nat)
    ensures multiset(Numbers(n))[i] == if i < n then 1 else 0
  {
    if n > 0 {
      NumbersOnce(n - 1, i);
      CountAppend(Numbers(n - 1), n - 1, i);
    }
  }

  // ---------------------------------------------------------------------------------------------
  // The course of one job.
  // ---------------------------------------------------------------------------------------------

  /** A chunk whose hash an earlier chunk of the job has as well. */
  predicate Shadowed(chunks: seq<Chunk>, i: nat)
    requires i < |chunks|
  {
    First(chunks, chunks[i].hash) != i
  }

  ghost predicate SameHashes(before: seq<Chunk>, after: seq<Chunk>)
  {
    |after| == |before| && forall i | 0 <= i < |before| :: after[i].hash == before[i].hash
  }

  /** Finished chunks stay as they are, and shadowed chunks stay without a provider. */
  ghost predicate Course(before: seq<Chunk>, after: seq<Chunk>)
  {
    && SameHashes(before, after)
    && forall i | 0 <= i < |before| ::
         && (before[i].status.FINISHED? ==> after[i] == before[i])
         && (before[i].status.NOT_FOUND? && Shadowed(before, i) ==> after[i].status.NOT_FOUND?)
  }

  lemma {:induction false} FirstSame(before: seq<Chunk>, after: seq<Chunk>, h: Hash, i: nat)
    requires SameHashes(before, after) && i <= |before|
    ensures FirstAt(after, h, i) == FirstAt(before, h, i)
    decreases |before| - i
  {
    if i < |before| { FirstSame(before, after, h, i + 1); }
  }

  lemma {:induction false} CourseRefl(chunks: seq<Chunk>)
    ensures Course(chunks, chunks)
  {
  }

  lemma {:induction false} CourseTrans(c0: seq<Chunk>, c1: seq<Chunk>, c2: seq<Chunk>)
    requires Course(c0, c1) && Course(c1, c2)
    ensures Course(c0, c2)
  {
    forall i | 0 <= i < |c0|
      ensures Shadowed(c0, i) <==> Shadowed(c1, i)
    {
      FirstSame(c0, c1, c0[i].hash, 0);
    }
  }

  lemma {:induction false} AddOneCourse(chunks: seq<Chunk>, list: seq<nat>, h: Hash)
    ensures Course(chunks, AddOne(chunks, list, h).0)
  {
  }

  lemma {:induction false} AddAllCourse(chunks: seq<Chunk>, list: seq<nat>, hs: seq<Hash>)
    ensures Course(chunks, AddAll(chunks, list, hs).0)
    decreases hs
  {
    if hs != [] {
      var r := AddOne(chunks, list, hs[0]);
      AddOneCourse(chunks, list, hs[0]);
      AddAllCourse(r.0, r.1, hs[1..]);
      hide Course;
      CourseTrans(chunks, r.0, AddAll(chunks, list, hs).0);
    }
  }

  /** A change of one chunk that is pending or downloading. */
  lemma {:induction false} BusyCourse(before: seq<Chunk>, i: nat, ch: Chunk)
    requires i < |before| && Busy(before[i].status) && ch.hash == before[i].hash
    ensures Course(before, before[i := ch])
  {
  }

  lemma {:induction false} ConnectCourse(st: State, peer: nat, hs: seq<Hash>)
    ensures Course(st.chunks, Connect(st, peer, hs).0.chunks)
  {
    AddAllInRange(st.chunks, [], hs);
    AddAllCourse(st.chunks, [], hs);
    AddAllPending(st.chunks, [], hs);
    var (chunks, list) := AddAll(st.chunks, [], hs);
    hide AddAll, Course;
    if list != [] {
      BusyCourse(chunks, list[0], chunks[list[0]].(status := DOWNLOADING));
      CourseTrans(st.chunks, chunks, SetStatus(chunks, list[0], DOWNLOADING));
    }
  }

  /** Chunks on a list under construction are pending. */
  lemma {:induction false} AddAllPending(chunks: seq<Chunk>, list: seq<nat>, hs: seq<Hash>)
    requires InRange(chunks, list) && forall k | 0 <= k < |list| :: Busy(chunks[list[k]].status)
    ensures var (chunks', list') := AddAll(chunks, list, hs);
            InRange(chunks', list') && forall k | 0 <= k < |list'| :: Busy(chunks'[list'[k]].status)
    decreases hs
  {
    if hs != [] {
      var r := AddOne(chunks, list, hs[0]);
      AddAllPending(r.0, r.1, hs[1..]);
    }
  }

  lemma {:induction false} SettledCourse(chunks: seq<Chunk>, list: seq<nat>, kept: bool, others: multiset<nat>)
    requires ListOk(chunks, list) && InRange(chunks, list) && Owned(chunks, multiset(list) + others)
    ensures Course(chunks, Settled(chunks, list, kept))
  {
    TailApart(chunks, list, others);
    assert chunks[list[0]].status.DOWNLOADING?;
    if |list| > 1 { assert list[1] != list[0] && chunks[list[1]].status.PENDING?; }
    hide ListOk, Owned, FirstAt, First;
  }

  lemma {:induction false} LastBlockCourse(st: State, c: nat, payload: Block, writes: bool)
    requires Heads(st) && c < |st.conns| && ListOk(st.chunks, st.conns[c].chunks)
    requires Owned(st.chunks, multiset(st.conns[c].chunks) + Others(st.conns, c))
    requires |st.chunks[st.conns[c].chunks[0]].data| + 1024 == CHUNK_SIZE
    ensures Course(st.chunks, Accept(st, c, payload, writes).0.chunks)
  {
    hide ListOk, Owned, Others, Course;
    var list := st.conns[c].chunks;
    var ch := st.chunks[list[0]];
    SettledCourse(st.chunks, list, Kept(ch, ch.data + payload, writes), Others(st.conns, c));
  }

  lemma {:induction false} BlockCourse(st: State, c: nat, payload: Block, writes: bool)
    requires Heads(st) && c < |st.conns| && ListOk(st.chunks, st.conns[c].chunks)
    requires |st.chunks[st.conns[c].chunks[0]].data| + 1024 != CHUNK_SIZE
    ensures Course(st.chunks, Accept(st, c, payload, writes).0.chunks)
  {
    hide Course;
    var head := st.conns[c].chunks[0];
    var ch := st.chunks[head];
    assert ch.status.DOWNLOADING?;
    BusyCourse(st.chunks, head, ch.(seqNum := ch.seqNum + 1, data := ch.data + payload));
  }

  lemma {:induction false} ListFacts(max: nat, st: State, c: nat)
    requires Inv(max, st) && c < |st.conns|
    ensures ListOk(st.chunks, st.conns[c].chunks)
    ensures Owned(st.chunks, multiset(st.conns[c].chunks) + Others(st.conns, c))
  {
    hide Owned, CountersOk, SavesOk;
    HeldSplit(st.conns, c);
  }

  lemma {:induction false} DataCourse(max: nat, st: State, peer: nat, seqNum: int, payload: Block, writes: bool)
    requires Inv(max, st) && Heads(st)
    ensures Course(st.chunks, OnData(st, peer, seqNum, payload, writes).0.chunks)
  {
    hide Inv, ListOk, Owned, Course, Others, Accept;
    CourseRefl(st.chunks);
    var c := FindConn(st.conns, peer, 0);
    if c >= 0 {
      ListFacts(max, st, c);
      if |st.chunks[st.conns[c].chunks[0]].data| + 1024 == CHUNK_SIZE {
        LastBlockCourse(st, c, payload, writes);
      } else {
        BlockCourse(st, c, payload, writes);
      }
    }
  }

  lemma {:induction false} IhaveCourse(st: State, max: nat, peer: nat, hs: seq<Hash>)
    ensures Course(st.chunks, OnIhave(st, max, peer, hs).0.chunks)
  {
    hide Course, Connect, AddAll;
    CourseRefl(st.chunks);
    ConnectCourse(st, peer, hs);
    var c := FindConn(st.conns, peer, 0);
    if c >= 0 { AddAllCourse(st.chunks, st.conns[c].chunks, hs); }
  }

  lemma {:induction false} CancelCourse(max: nat, st: State, c: nat)
    requires Inv(max, st) && Heads(st) && c < |st.conns|
    ensures Course(st.chunks, Cancel(st, c).chunks)
  {
    ReleaseAll(st.chunks, st.conns[c].chunks);
  }

  lemma {:induction false} TimeoutsCourse(max: nat, st: State, c: nat, clocks: seq<Clock>)
    requires Inv(max, st) && Heads(st)
    ensures Course(st.chunks, OnTimeouts(st, c, clocks).0.chunks)
    decreases clocks
  {
    if clocks != [] && c < |st.conns| {
      if clocks[0].crashed {
        CancelCourse(max, st, c);
        CancelKeeps(max, st, c);
        InvHeads(max, Cancel(st, c));
        TimeoutsCourse(max, Cancel(st, c), c, clocks[1..]);
        hide Course, Inv, Heads, Cancel;
        CourseTrans(st.chunks, Cancel(st, c).chunks, OnTimeouts(st, c, clocks).0.chunks);
      } else {
        ResendKeeps(max, st, c);
        TimeoutsCourse(max, st, c + 1, clocks[1..]);
      }
    }
  }

  lemma {:induction false} StepCourse(max: nat, st: State, e: Event)
    requires Inv(max, st) && !e.Get?
    ensures Course(st.chunks, Step(max, st, e).chunks)
  {
    InvHeads(max, st);
    hide Inv, Heads, Course, OnIhave, OnData, OnTimeouts;
    CourseRefl(st.chunks);
    match e
    case Ihave(peer, hs) => IhaveCourse(st, max, peer, hs);
    case Data(peer, seqNum, payload, writes) => DataCourse(max, st, peer, seqNum, payload, writes);
    case Timeouts(clocks) => TimeoutsCourse(max, st, 0, clocks);
    case Finish =>
  }

  /** In every run of one job. */
  lemma {:induction false} RunCourse(max: nat, st: State, es: seq<Event>)
    requires Inv(max, st) && forall e | e in es :: !e.Get?
    ensures Course(st.chunks, Run(max, st, es).chunks)
    decreases es
  {
    CourseRefl(st.chunks);
    if es != [] {
      hide Course;
      StepCourse(max, st, es[0]);
      StepKeepsInv(max, st, es[0]);
      assert forall e | e in es[1..] :: e in es;
      RunCourse(max, Step(max, st, es[0]), es[1..]);
      CourseTrans(st.chunks, Step(max, st, es[0]).chunks, Run(max, st, es).chunks);
    }
  }

  /** A finished chunk stays finished to the end of the job, whatever happens. */
  lemma {:induction false} FinishedForever(max: nat, st: State, es: seq<Event>, i: nat)
    requires Inv(max, st) && (forall e | e in es :: !e.Get?) && i < |st.chunks| && st.chunks[i].status.FINISHED?
    ensures |Run(max, st, es).chunks| == |st.chunks| && Run(max, st, es).chunks[i] == st.chunks[i]
  {
    RunCourse(max, st, es);
  }

  // ---------------------------------------------------------------------------------------------
  // How a chunk becomes finished.
  // ---------------------------------------------------------------------------------------------

  /** The event has written chunk i: its full buffer, whose hash is the wanted one. */
  ghost predicate Writes(st: State, e: Event, after: State, i: nat)
  {
    && e.Data? && i < |st.chunks| && HeadOf(st, e.peer) == i
    && var data := st.chunks[i].data + e.payload;
       |data| == CHUNK_SIZE && HashOf(data) == st.chunks[i].hash && e.writes
       && after.saved == st.saved + [Saved(i, data)]
  }

  /** The chunk being downloaded from a peer, or -1. */
  ghost function HeadOf(st: State, peer: nat): int
  {
    var c := FindConn(st.conns, peer, 0);
    if c >= 0 && st.conns[c].chunks != [] then st.conns[c].chunks[0] else -1
  }

  lemma {:induction false} TimeoutsSave(st: State, c: nat, clocks: seq<Clock>)
    requires Heads(st)
    ensures OnTimeouts(st, c, clocks).0.saved == st.saved && OnTimeouts(st, c, clocks).0.active == st.active
    decreases clocks
  {
    if clocks != [] && c < |st.conns| {
      if clocks[0].crashed {
        TimeoutsSave(Cancel(st, c), c, clocks[1..]);
      } else if !st.conns[c].receivedData && clocks[0].getElapsed {
        TimeoutsSave(Resend(st, c).0, c + 1, clocks[1..]);
      } else {
        TimeoutsSave(st, c + 1, clocks[1..]);
      }
    }
  }

  lemma {:induction false} DataSaves(max: nat, st: State, e: Event)
    requires Inv(max, st) && e.Data?
    ensures Step(max, st, e).active == st.active
    ensures Step(max, st, e).saved == st.saved ||
            (HeadOf(st, e.peer) >= 0 && Writes(st, e, Step(max, st, e), HeadOf(st, e.peer)))
  {
    InvHeads(max, st);
    hide Inv;
  }

  lemma {:induction false} StepSaves(max: nat, st: State, e: Event)
    requires Inv(max, st) && !e.Get?
    ensures Step(max, st, e).saved == st.saved ||
            (e.Data? && HeadOf(st, e.peer) >= 0 && Writes(st, e, Step(max, st, e), HeadOf(st, e.peer)))
  {
    InvHeads(max, st);
    if e.Data? {
      DataSaves(max, st, e);
      hide Step, Inv, Writes;
    } else if e.Timeouts? {
      TimeoutsSave(st, 0, e.clocks);
      hide OnTimeouts, Inv, Writes;
    } else {
      hide Inv, Writes, AddAll;
    }
  }

  lemma {:induction false} FinishedIffSaved(max: nat, st: State, i: nat)
    requires Inv(max, st) && i < |st.chunks|
    ensures st.chunks[i].status.FINISHED? <==> multiset(Indices(st.saved))[i] > 0
  {
    hide ListsOk, Owned, CountersOk, OnePerPeer, Indices;
  }

  /** A chunk becomes finished only by a DATA packet that fills its buffer with data of the wanted hash. */
  lemma {:induction false} FinishedOnlyByHash(max: nat, st: State, e: Event, i: nat)
    requires Inv(max, st) && !e.Get? && i < |st.chunks| && !st.chunks[i].status.FINISHED?
    ensures |Step(max, st, e).chunks| == |st.chunks|
    ensures Step(max, st, e).chunks[i].status.FINISHED? ==> Writes(st, e, Step(max, st, e), i)
  {
    StepCourse(max, st, e);
    StepKeepsInv(max, st, e);
    StepSaves(max, st, e);
    FinishedIffSaved(max, st, i);
    FinishedIffSaved(max, Step(max, st, e), i);
    hide Inv, Step;
    if Step(max, st, e).saved != st.saved {
      var head: nat := HeadOf(st, e.peer);
      OneMoreIndex(st.saved, Saved(head, st.chunks[head].data + e.payload));
      hide HeadOf, Indices;
    }
  }

  // ---------------------------------------------------------------------------------------------
  // A hash that is listed twice.
  // ---------------------------------------------------------------------------------------------

  lemma {:induction false} ShadowedStep(max: nat, st: State, e: Event, i: nat)
    requires Inv(max, st) && !e.Get? && st.active
    requires i < |st.chunks| && Shadowed(st.chunks, i) && st.chunks[i].status.NOT_FOUND?
    ensures var r := Step(max, st, e);
            r.active && i < |r.chunks| && Shadowed(r.chunks, i) && r.chunks[i].status.NOT_FOUND?
  {
    StepCourse(max, st, e);
    FirstSame(st.chunks, Step(max, st, e).chunks, st.chunks[i].hash, 0);
    InvHeads(max, st);
    if e.Data? { DataSaves(max, st, e); }
    if e.Timeouts? { TimeoutsSave(st, 0, e.clocks); }
    if e.Finish? { FinishIsSound(max, st); }
    hide Inv, OnData, OnTimeouts, AddAll, FirstAt;
  }

  /** The second of two chunks with one hash is never found, so such a job is never declared got. */
  lemma {:induction false} ShadowedNeverFound(max: nat, st: State, es: seq<Event>, i: nat)
    requires Inv(max, st) && (forall e | e in es :: !e.Get?) && st.active
    requires i < |st.chunks| && Shadowed(st.chunks, i) && st.chunks[i].status.NOT_FOUND?
    ensures var r := Run(max, st, es);
            r.active && i < |r.chunks| && r.chunks[i].status.NOT_FOUND?
    decreases es
  {
    if es != [] {
      ShadowedStep(max, st, es[0], i);
      StepKeepsInv(max, st, es[0]);
      assert forall e | e in es[1..] :: e in es;
      hide Inv, Step, Shadowed;
      ShadowedNeverFound(max, Step(max, st, es[0]), es[1..], i);
    }
  }
}
