/** Which jobs can be completed at all: exactly those that list no hash twice. */
module Completion {
  import opened Discovery
  import opened Download
  import opened Ownership
  import opened Scheduler
  import opened Exchange

  const LAST := BLOCKS - 1

  /** A run of one job leads from one state to the other. */
  ghost predicate Reaches(max: nat, st: State, st': State)
    requires Inv(max, st)
  {
    exists es :: SameJob(es) && Run(max, st, es) == st'
  }

  ghost predicate SameJob(es: seq<Event>) { forall e | e in es :: !e.Get? }

  lemma {:induction false} RunConcat(max: nat, st: State, xs: seq<Event>, ys: seq<Event>)
    requires Inv(max, st)
    ensures Run(max, st, xs + ys) == Run(max, Run(max, st, xs), ys)
    decreases xs
  {
    hide Inv, Step;
    if xs == [] {
      assert xs + ys == ys;
    } else {
      StepKeepsInv(max, st, xs[0]);
      assert (xs + ys)[1..] == xs[1..] + ys;
      RunConcat(max, Step(max, st, xs[0]), xs[1..], ys);
    }
  }

  lemma {:induction false} ReachesInv(max: nat, st: State, st': State)
    requires Inv(max, st) && Reaches(max, st, st')
    ensures Inv(max, st')
  {
  }

  lemma {:induction false} ReachesTrans(max: nat, st0: State, st1: State, st2: State)
    requires Inv(max, st0) && Inv(max, st1) && Reaches(max, st0, st1) && Reaches(max, st1, st2)
    ensures Reaches(max, st0, st2)
  {
    hide Inv, Run;
    var xs :| SameJob(xs) && Run(max, st0, xs) == st1;
    var ys :| SameJob(ys) && Run(max, st1, ys) == st2;
    RunConcat(max, st0, xs, ys);
    assert SameJob(xs + ys);
  }

  lemma {:induction false} ReachesStep(max: nat, st: State, e: Event)
    requires Inv(max, st) && !e.Get?
    ensures Inv(max, Step(max, st, e)) && Reaches(max, st, Step(max, st, e))
  {
    StepKeepsInv(max, st, e);
    hide Inv, Step;
    assert [e][1..] == [];
    assert Run(max, Step(max, st, e), []) == Step(max, st, e);
    assert Run(max, st, [e]) == Step(max, st, e) && SameJob([e]);
  }

  lemma {:induction false} ReachesSelf(max: nat, st: State)
    requires Inv(max, st)
    ensures Reaches(max, st, st)
  {
    assert SameJob([]) && Run(max, st, []) == st;
  }

  ghost predicate DistinctHashes(hashes: seq<Hash>)
  {
    forall i, j | 0 <= i < j < |hashes| :: hashes[i] != hashes[j]
  }

  /** The data behind the hashes of a job. */
  ghost predicate Contents(hashes: seq<Hash>, contents: seq<seq<Byte>>)
  {
    |contents| == |hashes| &&
    forall i | 0 <= i < |hashes| :: |contents[i]| == CHUNK_SIZE && HashOf(contents[i]) == hashes[i]
  }

  /** The job that a user GET installs. */
  function Job(hashes: seq<Hash>): State { OnGet(IDLE, hashes) }

  /** Nothing of an earlier job is left in it. */
  lemma {:induction false} JobForgetsTheLast(st: State, hashes: seq<Hash>)
    requires st.conns == []
    ensures OnGet(st, hashes) == Job(hashes)
    ensures Job(hashes).active && |Job(hashes).chunks| == |hashes|
    ensures forall i | 0 <= i < |hashes| :: Job(hashes).chunks[i] == Chunk(hashes[i], NOT_FOUND, 0, [])
  {
  }

  lemma {:induction false} JobInv(max: nat, hashes: seq<Hash>)
    ensures Inv(max, Job(hashes))
  {
  }

  // ---------------------------------------------------------------------------------------------
  // Asking for the chunks: one peer says it has each of them.
  // ---------------------------------------------------------------------------------------------

  function Range(k: nat, n: nat): (r: seq<nat>)
    requires k <= n
    ensures |r| == n - k
  {
    seq(n - k, i requires 0 <= i < n - k => k + i)
  }

  lemma {:induction false} NoneShadowed(hashes: seq<Hash>, i: nat)
    requires DistinctHashes(hashes) && i < |hashes|
    ensures !Shadowed(FreshChunks(hashes), i)
  {
    var chunks := FreshChunks(hashes);
    assert chunks[i].hash == hashes[i];
    var f := First(chunks, hashes[i]);
    assert f >= 0 && chunks[f].hash == hashes[f];
  }

  lemma {:induction false} AllOffered(max: nat, hashes: seq<Hash>, k: nat)
    requires max > 0 && DistinctHashes(hashes) && k <= |hashes|
    ensures Inv(max, Job(hashes))
    ensures Reaches(max, Job(hashes), With(Job(hashes), 0, Range(0, k)))
    decreases k
  {
    var st := Job(hashes);
    JobInv(max, hashes);
    if k == 0 {
      hide Inv;
      ReachesSelf(max, st);
    } else {
      AllOffered(max, hashes, k - 1);
      Offered(max, hashes, k - 1);
    }
  }

  lemma {:induction false} OneOffer(max: nat, hashes: seq<Hash>, k: nat)
    requires max > 0 && DistinctHashes(hashes) && k < |hashes|
    ensures OnIhave(With(Job(hashes), 0, Range(0, k)), max, 0, [hashes[k]]).0 == With(Job(hashes), 0, Range(0, k + 1))
  {
    var st := Job(hashes);
    assert Range(0, k) + [k] == Range(0, k + 1);
    forall i | 0 <= i < |hashes|
      ensures !Shadowed(st.chunks, i)
    {
      NoneShadowed(hashes, i);
    }
    assert HashesAt(st.chunks, [k]) == [hashes[k]];
    hide Shadowed, OnIhave, With;
    OneAnswer(st, max, 0, Range(0, k), [k]);
  }

  lemma {:induction false} Offered(max: nat, hashes: seq<Hash>, k: nat)
    requires max > 0 && DistinctHashes(hashes) && k < |hashes|
    requires Inv(max, Job(hashes)) && Reaches(max, Job(hashes), With(Job(hashes), 0, Range(0, k)))
    ensures Reaches(max, Job(hashes), With(Job(hashes), 0, Range(0, k + 1)))
  {
    hide Inv, OnIhave, With, Job, Range, DistinctHashes;
    var st := Job(hashes);
    var before := With(st, 0, Range(0, k));
    ReachesInv(max, st, before);
    OneOffer(max, hashes, k);
    var e := Ihave(0, [hashes[k]]);
    assert Step(max, before, e) == With(st, 0, Range(0, k + 1));
    hide Step, Reaches;
    ReachesStep(max, before, e);
    ReachesTrans(max, st, before, With(st, 0, Range(0, k + 1)));
  }

  // ---------------------------------------------------------------------------------------------
  // Receiving them.
  // ---------------------------------------------------------------------------------------------

  function SavedUpTo(contents: seq<seq<Byte>>, k: nat): seq<Saved>
    requires k <= |contents|
  {
    seq(k, i requires 0 <= i < k => Saved(i, contents[i]))
  }

  function ChunkAt(hashes: seq<Hash>, contents: seq<seq<Byte>>, k: nat, j: nat, i: nat): Chunk
    requires |contents| == |hashes| && i < |hashes| && 1024 * j <= |contents[i]|
  {
    if i < k then Chunk(hashes[i], FINISHED, 0, [])
    else if i == k then Chunk(hashes[i], DOWNLOADING, j, contents[i][..1024 * j])
    else Chunk(hashes[i], PENDING, 0, [])
  }

  /** Chunks below k are finished, j blocks of chunk k have arrived, the others wait on the same list. */
  ghost function Midway(hashes: seq<Hash>, contents: seq<seq<Byte>>, k: nat, j: nat, received: bool): State
    requires Contents(hashes, contents) && k <= |hashes| && j <= LAST
  {
    State(true,
          seq(|hashes|, i requires 0 <= i < |hashes| => ChunkAt(hashes, contents, k, j, i)),
          if k == |hashes| then [] else [Connection(0, received, Range(k, |hashes|))],
          SavedUpTo(contents, k))
  }

  function BlockOf(content: seq<Byte>, j: nat): Block
    requires |content| == CHUNK_SIZE && j <= LAST
  {
    content[1024 * j..1024 * j + 1024]
  }

  lemma {:induction false} OneBlock(
    hashes: seq<Hash>, contents: seq<seq<Byte>>, k: nat, j: nat, received: bool)
    requires Contents(hashes, contents) && k < |hashes| && j < LAST
    requires Heads(Midway(hashes, contents, k, j, received))
    ensures OnData(Midway(hashes, contents, k, j, received), 0, j + 1, BlockOf(contents[k], j), true).0
         == Midway(hashes, contents, k, j + 1, true)
  {
    hide HashOf;
    var st := Midway(hashes, contents, k, j, received);
    var conn := Connection(0, true, Range(k, |hashes|));
    assert contents[k][..1024 * j] + BlockOf(contents[k], j) == contents[k][..1024 * (j + 1)];
    assert FindConn(st.conns, 0, 0) == 0;
    assert st.conns[0 := conn] == [conn];
    var after := Accept(st, 0, BlockOf(contents[k], j), true).0;
    assert after.chunks == Midway(hashes, contents, k, j + 1, true).chunks;
  }

  lemma {:induction false} FinalBlock(
    hashes: seq<Hash>, contents: seq<seq<Byte>>, k: nat, received: bool)
    requires Contents(hashes, contents) && k < |hashes|
    requires Heads(Midway(hashes, contents, k, LAST, received))
    ensures OnData(Midway(hashes, contents, k, LAST, received), 0, BLOCKS, BlockOf(contents[k], LAST), true).0
         == Midway(hashes, contents, k + 1, 0, true)
  {
    var st := Midway(hashes, contents, k, LAST, received);
    assert contents[k][..1024 * LAST] + BlockOf(contents[k], LAST) == contents[k];
    assert FindConn(st.conns, 0, 0) == 0;
    assert Range(k, |hashes|)[1..] == Range(k + 1, |hashes|);
    assert SavedUpTo(contents, k) + [Saved(k, contents[k])] == SavedUpTo(contents, k + 1);
    hide HashOf;
    FinalChunks(hashes, contents, k, received);
  }

  lemma {:induction false} FinalChunks(
    hashes: seq<Hash>, contents: seq<seq<Byte>>, k: nat, received: bool)
    requires Contents(hashes, contents) && k < |hashes|
    ensures var finished := Midway(hashes, contents, k, LAST, received).chunks[k := Chunk(hashes[k], FINISHED, 0, [])];
            Midway(hashes, contents, k + 1, 0, true).chunks ==
            if k + 1 == |hashes| then finished else SetStatus(finished, k + 1, DOWNLOADING)
  {
    hide HashOf;
  }

  lemma {:induction false} BlocksArrive(
    max: nat, hashes: seq<Hash>, contents: seq<seq<Byte>>, k: nat, j: nat, received: bool)
    requires Contents(hashes, contents) && k < |hashes| && j <= LAST
    requires Inv(max, Midway(hashes, contents, k, j, received))
    ensures Reaches(max, Midway(hashes, contents, k, j, received), Midway(hashes, contents, k + 1, 0, true))
    decreases LAST - j
  {
    hide Inv, Midway, Heads, OnData, Reaches, HashOf;
    var block := BlockOf(contents[k], j);
    hide Contents, BlockOf;
    var st := Midway(hashes, contents, k, j, received);
    InvHeads(max, st);
    if j == LAST {
      FinalBlock(hashes, contents, k, received);
      ReachesData(max, st, j + 1, block);
    } else {
      OneBlock(hashes, contents, k, j, received);
      ReachesData(max, st, j + 1, block);
      BlocksArrive(max, hashes, contents, k, j + 1, true);
      ReachesTrans(max, st, Midway(hashes, contents, k, j + 1, true), Midway(hashes, contents, k + 1, 0, true));
    }
  }

  lemma {:induction false} ReachesData(max: nat, st: State, seqNum: int, payload: Block)
    requires Inv(max, st) && Heads(st)
    ensures Inv(max, OnData(st, 0, seqNum, payload, true).0)
    ensures Reaches(max, st, OnData(st, 0, seqNum, payload, true).0)
  {
    hide Inv, Heads, OnData, Reaches;
    ReachesStep(max, st, Data(0, seqNum, payload, true));
  }

  lemma {:induction false} ChunksArrive(
    max: nat, hashes: seq<Hash>, contents: seq<seq<Byte>>, k: nat, received: bool)
    requires Contents(hashes, contents) && k < |hashes|
    requires Inv(max, Midway(hashes, contents, k, 0, received))
    ensures Reaches(max, Midway(hashes, contents, k, 0, received), Midway(hashes, contents, |hashes|, 0, true))
    decreases |hashes| - k
  {
    hide Inv, Midway, Contents, Reaches;
    var st := Midway(hashes, contents, k, 0, received);
    BlocksArrive(max, hashes, contents, k, 0, received);
    if k + 1 < |hashes| {
      var next := Midway(hashes, contents, k + 1, 0, true);
      ReachesInv(max, st, next);
      ChunksArrive(max, hashes, contents, k + 1, true);
      ReachesTrans(max, st, next, Midway(hashes, contents, |hashes|, 0, true));
    }
  }

  lemma {:induction false} OfferedIsMidway(hashes: seq<Hash>, contents: seq<seq<Byte>>)
    requires Contents(hashes, contents) && hashes != []
    ensures With(Job(hashes), 0, Range(0, |hashes|)) == Midway(hashes, contents, 0, 0, false)
  {
    hide HashOf;
    var st := With(Job(hashes), 0, Range(0, |hashes|));
    assert Range(0, |hashes|)[0] == 0;
    forall i: nat | i < |hashes|
      ensures i in Range(0, |hashes|)
    {
      assert Range(0, |hashes|)[i] == i;
    }
    assert contents[0][..1024 * 0] == [];
    assert st.chunks == Midway(hashes, contents, 0, 0, false).chunks;
  }

  lemma {:induction false} AllArrive(max: nat, hashes: seq<Hash>, contents: seq<seq<Byte>>)
    requires max > 0 && Contents(hashes, contents) && DistinctHashes(hashes) && hashes != []
    ensures Inv(max, Job(hashes)) && Reaches(max, Job(hashes), Midway(hashes, contents, |hashes|, 0, true))
  {
    hide Inv, Job, With, Midway, Reaches, Contents, DistinctHashes;
    JobInv(max, hashes);
    AllOffered(max, hashes, |hashes|);
    OfferedIsMidway(hashes, contents);
    var start := Midway(hashes, contents, 0, 0, false);
    ReachesInv(max, Job(hashes), start);
    ChunksArrive(max, hashes, contents, 0, false);
    ReachesTrans(max, Job(hashes), start, Midway(hashes, contents, |hashes|, 0, true));
  }

  lemma {:induction false} DoneIsFinished(hashes: seq<Hash>, contents: seq<seq<Byte>>)
    requires Contents(hashes, contents)
    ensures var done := Midway(hashes, contents, |hashes|, 0, true);
            done.active && AllFinished(done.chunks) && done.saved == SavedUpTo(contents, |hashes|)
    ensures hashes == [] ==> Midway(hashes, contents, |hashes|, 0, true) == Job(hashes)
  {
  }

  /** A job of distinct hashes is completed by one peer that has everything, over a perfect network. */
  lemma {:induction false} DistinctCompletes(max: nat, hashes: seq<Hash>, contents: seq<seq<Byte>>) returns (st: State)
    requires max > 0 && Contents(hashes, contents) && DistinctHashes(hashes)
    ensures Inv(max, Job(hashes)) && Reaches(max, Job(hashes), st)
    ensures !st.active && AllFinished(st.chunks) && st.saved == SavedUpTo(contents, |hashes|)
  {
    hide Inv, Midway, Job, Reaches, Contents, DistinctHashes;
    JobInv(max, hashes);
    DoneIsFinished(hashes, contents);
    var job, done := Job(hashes), Midway(hashes, contents, |hashes|, 0, true);
    if hashes == [] { ReachesSelf(max, job); } else { AllArrive(max, hashes, contents); }
    ReachesInv(max, job, done);
    FinishIsSound(max, done);
    ReachesStep(max, done, Finish);
    st := OnFinish(done);
    ReachesTrans(max, job, done, st);
  }

  /** Some run of the job ends with its declaration as got. */
  ghost predicate Completable(max: nat, hashes: seq<Hash>)
  {
    JobInv(max, hashes);
    exists es :: SameJob(es) && !Run(max, Job(hashes), es).active
  }

  /** The job can be declared got exactly when it lists no hash twice. */
  lemma {:induction false} CompletableIffDistinct(max: nat, hashes: seq<Hash>, contents: seq<seq<Byte>>)
    requires max > 0 && Contents(hashes, contents)
    ensures Completable(max, hashes) <==> DistinctHashes(hashes)
  {
    JobInv(max, hashes);
    hide Inv, Run;
    if DistinctHashes(hashes) {
      var st := DistinctCompletes(max, hashes, contents);
      var es :| SameJob(es) && Run(max, Job(hashes), es) == st;
    } else {
      var i, j :| 0 <= i < j < |hashes| && hashes[i] == hashes[j];
      var chunks := FreshChunks(hashes);
      assert chunks[i].hash == chunks[j].hash;
      assert Shadowed(chunks, j);
      forall es | SameJob(es)
        ensures Run(max, Job(hashes), es).active
      {
        ShadowedNeverFound(max, Job(hashes), es, j);
      }
    }
  }
}
