/** The list of a receiver connection: nothing asked for is forgotten, and the whole list can be downloaded. */
module ListProgress {
  import opened ChunkSequence
  import opened Control
  import opened Options
  import opened Transfer

  // ---------------------------------------------------------------------------------------------
  // The list law.
  // ---------------------------------------------------------------------------------------------

  /** All chunks that the IHAVE events of a run have picked, in order. */
  function Asked(es: seq<ChunkSequence.Event>): seq<ChunkId>
  {
    if es == [] then []
    else
      var e := es[|es| - 1];
      Asked(es[..|es| - 1]) + if e.Ihave? then e.ids else []
  }

  ghost predicate ListLaw(st: System, asked: seq<ChunkId>)
  {
    && st.history + st.queue == asked
    && (!st.active ==> st.queue == [])
    && |st.history| == |st.assembled| + (if st.active then 1 else 0)
    && (st.active ==> st.head == st.history[|st.history| - 1])
  }

  lemma {:induction false} DataKeepsList(st: System, p: Packet, asked: seq<ChunkId>)
    requires ListLaw(st, asked)
    ensures ListLaw(OnData(st, p), asked)
  {
    hide Receive;
    if st.active && st.queue != [] {
      assert st.history + st.queue == (st.history + [st.queue[0]]) + st.queue[1..];
    }
  }

  lemma {:induction false} IhaveKeepsList(st: System, ids: seq<ChunkId>, asked: seq<ChunkId>)
    requires ListLaw(st, asked)
    ensures ListLaw(OnIhave(st, ids), asked + ids)
  {
    if st.active {
      assert st.history + (st.queue + ids) == asked + ids;
    } else if ids == [] {
      assert asked + ids == asked;
    } else {
      assert st.history + [] == st.history;
      assert (st.history + [ids[0]]) + ids[1..] == asked + ids;
    }
  }

  lemma {:induction false} StepKeepsList(store: Store, st: System, e: ChunkSequence.Event, asked: seq<ChunkId>)
    requires ListLaw(st, asked) && !e.ReceiverCrashTimeout?
    ensures ListLaw(ChunkSequence.Step(store, st, e), asked + if e.Ihave? then e.ids else [])
  {
    assert asked + [] == asked;
    match e
    case Ihave(ids) => IhaveKeepsList(st, ids, asked);
    case DeliverData => if st.down != [] { DataKeepsList(st.(down := st.down[1..]), st.down[0].packet, asked); }
    case _ =>
  }

  /** Without receiver crash timeouts: the chunks that have headed the list and those still behind it are, in
      order, all that was asked for; without a connection nothing is left behind. */
  lemma {:induction false} NothingIsForgotten(store: Store, es: seq<ChunkSequence.Event>)
    requires NoCancel(es)
    ensures ListLaw(ChunkSequence.Run(store, ChunkSequence.START, es), Asked(es))
    decreases |es|
  {
    if es != [] {
      var init, e := es[..|es| - 1], es[|es| - 1];
      assert forall x | x in init :: x in es;
      NothingIsForgotten(store, init);
      assert e in es;
      hide ListLaw, ChunkSequence.Step;
      StepKeepsList(store, ChunkSequence.Run(store, ChunkSequence.START, init), e, Asked(init));
    }
  }

  // ---------------------------------------------------------------------------------------------
  // Reaching states.
  // ---------------------------------------------------------------------------------------------

  /** A run without receiver crash timeouts leads from one state to the other. */
  ghost predicate Leads(store: Store, st: System, st': System)
  {
    exists es :: NoCancel(es) && ChunkSequence.Run(store, st, es) == st'
  }

  lemma {:induction false} RunAppend(store: Store, st: System, xs: seq<ChunkSequence.Event>, ys: seq<ChunkSequence.Event>)
    ensures ChunkSequence.Run(store, st, xs + ys) == ChunkSequence.Run(store, ChunkSequence.Run(store, st, xs), ys)
    decreases |ys|
  {
    hide ChunkSequence.Step;
    if ys == [] {
      assert xs + ys == xs;
    } else {
      var n := |ys| - 1;
      assert (xs + ys)[..|xs| + n] == xs + ys[..n] && (xs + ys)[|xs| + n] == ys[n];
      RunAppend(store, st, xs, ys[..n]);
    }
  }

  lemma {:induction false} LeadsSelf(store: Store, st: System)
    ensures Leads(store, st, st)
  {
    assert NoCancel([]) && ChunkSequence.Run(store, st, []) == st;
  }

  lemma {:induction false} LeadsOn(store: Store, a: System, b: System, c: System)
    requires Leads(store, a, b) && Leads(store, b, c)
    ensures Leads(store, a, c)
  {
    hide ChunkSequence.Run;
    var xs :| NoCancel(xs) && ChunkSequence.Run(store, a, xs) == b;
    var ys :| NoCancel(ys) && ChunkSequence.Run(store, b, ys) == c;
    RunAppend(store, a, xs, ys);
    assert NoCancel(xs + ys);
  }

  lemma {:induction false} LeadsStep(store: Store, st: System, e: ChunkSequence.Event)
    requires !e.ReceiverCrashTimeout?
    ensures Leads(store, st, ChunkSequence.Step(store, st, e))
  {
    assert [e][..0] == [] && ChunkSequence.Run(store, st, []) == st;
    assert ChunkSequence.Run(store, st, [e]) == ChunkSequence.Step(store, st, e) && NoCancel([e]);
  }

  lemma {:induction false} LeadsThree(
    store: Store, st: System, e1: ChunkSequence.Event, e2: ChunkSequence.Event, e3: ChunkSequence.Event)
    requires !e1.ReceiverCrashTimeout? && !e2.ReceiverCrashTimeout? && !e3.ReceiverCrashTimeout?
    ensures Leads(store, st,
              ChunkSequence.Step(store, ChunkSequence.Step(store, ChunkSequence.Step(store, st, e1), e2), e3))
  {
    hide ChunkSequence.Step, Leads;
    var s1 := ChunkSequence.Step(store, st, e1);
    var s2 := ChunkSequence.Step(store, s1, e2);
    LeadsStep(store, st, e1);
    LeadsStep(store, s1, e2);
    LeadsStep(store, s2, e3);
    LeadsOn(store, st, s1, s2);
    LeadsOn(store, st, s2, ChunkSequence.Step(store, s2, e3));
  }

  // ---------------------------------------------------------------------------------------------
  // One chunk, block by block, over a network that loses nothing.
  // ---------------------------------------------------------------------------------------------

  /** The GET for the head is under way and nothing else. */
  ghost predicate AtGet(st: System)
  {
    && st.active && st.rx == Receiver(0, []) && st.session.None?
    && st.down == [] && st.up == [Get(st.Epoch(), st.head)]
  }

  /** The provider serves the head and both ends have n of its blocks; nothing is under way. */
  ghost predicate AtBlock(store: Store, st: System, n: nat)
  {
    && n < CHUNK_DATA_NUM && st.active && st.down == [] && st.up == []
    && st.session.Some? && st.serving == st.head
    && Inv(st.session.value) && st.session.value.acked == st.session.value.sent == n
    && st.rx == Receiver(n, store(st.head)[..DATA_SIZE * n])
  }

  /** The list and what was assembled are the same. */
  ghost predicate SameList(st: System, st': System)
  {
    st'.head == st.head && st'.queue == st.queue && st'.assembled == st.assembled
  }

  lemma {:induction false} GetIsServed(store: Store, st: System) returns (st': System)
    requires AtGet(st)
    ensures Leads(store, st, st') && AtBlock(store, st', 0) && SameList(st, st')
  {
    var e := ChunkSequence.DeliverUp(true, false);
    st' := ChunkSequence.Step(store, st, e);
    assert st' == st.(up := [], session := Some(FRESH), serving := st.head, top := st.Epoch(), hot := false);
    assert store(st.head)[..DATA_SIZE * 0] == [];
    hide ChunkSequence.Step, Leads;
    LeadsStep(store, st, e);
  }

  /** The next block on its way. */
  function Dispatched(store: Store, st: System, n: nat): System
    requires st.session.Some? && n < CHUNK_DATA_NUM
  {
    st.(session := Some(st.session.value.(sent := n + 1)),
        down := [Data(st.top, Packet(n + 1, Block(store(st.head), n + 1)))])
  }

  lemma {:induction false} BlockIsSent(store: Store, st: System, n: nat)
    requires AtBlock(store, st, n)
    ensures ChunkSequence.Step(store, st, ChunkSequence.SendOne) == Dispatched(store, st, n)
  {
    hide Block;
    assert OnSend(st.session.value) == (st.session.value.(sent := n + 1), Sent(n + 1));
  }

  function Taken(store: Store, st: System, n: nat): System
    requires st.session.Some? && n < CHUNK_DATA_NUM
  {
    st.(session := Some(st.session.value.(sent := n + 1)), pending := false,
        rx := Receiver(n + 1, store(st.head)[..DATA_SIZE * (n + 1)]), up := [AckMsg(st.Epoch(), n + 1)])
  }

  lemma {:induction false} BlockIsTaken(store: Store, st: System, n: nat)
    requires AtBlock(store, st, n)
    ensures ChunkSequence.Step(store, Dispatched(store, st, n), ChunkSequence.DeliverData)
         == if n + 1 < CHUNK_DATA_NUM then Taken(store, st, n) else NextChunk(Taken(store, st, n))
  {
    NextBlock(store(st.head), n);
    hide Block;
    var d := Dispatched(store, st, n);
    assert [] + [AckMsg(st.Epoch(), n + 1)] == [AckMsg(st.Epoch(), n + 1)];
    assert |store(st.head)[..DATA_SIZE * (n + 1)]| == DATA_SIZE * (n + 1);
  }

  lemma {:induction false} BlockIsAcked(store: Store, st: System, n: nat)
    requires AtBlock(store, st, n) && n + 1 < CHUNK_DATA_NUM
    ensures AtBlock(store, ChunkSequence.Step(store, Taken(store, st, n), ChunkSequence.DeliverUp(true, false)), n + 1)
    ensures SameList(st, ChunkSequence.Step(store, Taken(store, st, n), ChunkSequence.DeliverUp(true, false)))
  {
    var s := st.session.value;
    StepKeepsInv(s, Control.Send);
    StepKeepsInv(s.(sent := n + 1), Control.Ack(n + 1, false));
  }

  lemma {:induction false} OneBlock(store: Store, st: System, n: nat) returns (st': System)
    requires AtBlock(store, st, n) && n + 1 < CHUNK_DATA_NUM
    ensures Leads(store, st, st') && AtBlock(store, st', n + 1) && SameList(st, st')
  {
    BlockIsSent(store, st, n);
    BlockIsTaken(store, st, n);
    BlockIsAcked(store, st, n);
    hide ChunkSequence.Step, Leads, Dispatched, Taken;
    st' := ChunkSequence.Step(store, Taken(store, st, n), ChunkSequence.DeliverUp(true, false));
    LeadsThree(store, st, ChunkSequence.SendOne, ChunkSequence.DeliverData, ChunkSequence.DeliverUp(true, false));
  }

  /** The state after the last block and its ACK: the GET for the next chunk is under way, or all is done. */
  ghost predicate ChunkDone(store: Store, st: System, st': System)
  {
    && st'.assembled == st.assembled + [Some(store(st.head))]
    && (st.queue == [] ==> !st'.active && st'.queue == [])
    && (st.queue != [] ==> AtGet(st') && st'.head == st.queue[0] && st'.queue == st.queue[1..])
  }

  lemma {:induction false} LastBlock(store: Store, st: System, n: nat) returns (st': System)
    requires AtBlock(store, st, n) && n + 1 == CHUNK_DATA_NUM
    ensures Leads(store, st, st') && ChunkDone(store, st, st')
  {
    BlockIsSent(store, st, n);
    BlockIsTaken(store, st, n);
    var t := NextChunk(Taken(store, st, n));
    st' := ChunkSequence.Step(store, t, ChunkSequence.DeliverUp(true, false));
    LastAck(store, st, n);
    hide ChunkSequence.Step, Leads, Dispatched, Taken;
    LeadsThree(store, st, ChunkSequence.SendOne, ChunkSequence.DeliverData, ChunkSequence.DeliverUp(true, false));
  }

  lemma {:induction false} LastAck(store: Store, st: System, n: nat)
    requires AtBlock(store, st, n) && n + 1 == CHUNK_DATA_NUM
    ensures ChunkDone(store, st,
              ChunkSequence.Step(store, NextChunk(Taken(store, st, n)), ChunkSequence.DeliverUp(true, false)))
  {
    var t := NextChunk(Taken(store, st, n));
    assert store(st.head)[..DATA_SIZE * (n + 1)] == store(st.head);
    assert t.up[0] == AckMsg(st.Epoch(), n + 1);
    assert OnAck(st.session.value.(sent := n + 1), n + 1, false).acked == CHUNK_DATA_NUM;
    if st.queue != [] {
      assert t.up[1..] == [Get(t.Epoch(), st.queue[0])];
    } else {
      assert t.up[1..] == [];
    }
  }

  lemma {:induction false} BlocksFollow(store: Store, st: System, n: nat) returns (st': System)
    requires AtBlock(store, st, n)
    ensures Leads(store, st, st') && ChunkDone(store, st, st')
    decreases CHUNK_DATA_NUM - n
  {
    hide AtBlock, Leads;
    AtBlockIsEarly(store, st, n);
    if n + 1 == CHUNK_DATA_NUM {
      st' := LastBlock(store, st, n);
    } else {
      var mid := OneBlock(store, st, n);
      st' := BlocksFollow(store, mid, n + 1);
      LeadsOn(store, st, mid, st');
    }
  }

  lemma {:induction false} AtBlockIsEarly(store: Store, st: System, n: nat)
    requires AtBlock(store, st, n)
    ensures n < CHUNK_DATA_NUM
  {
  }

  // ---------------------------------------------------------------------------------------------
  // The whole list.
  // ---------------------------------------------------------------------------------------------

  ghost function Buffers(store: Store, ids: seq<ChunkId>): seq<Option<seq<Byte>>>
  {
    seq(|ids|, i requires 0 <= i < |ids| => Some(store(ids[i])))
  }

  ghost predicate ListDone(store: Store, st: System, st': System)
  {
    !st'.active && st'.queue == [] && st'.assembled == st.assembled + Buffers(store, [st.head] + st.queue)
  }

  lemma {:induction false} ChunkFollows(store: Store, st: System) returns (st': System)
    requires AtGet(st)
    ensures Leads(store, st, st') && ChunkDone(store, st, st')
  {
    hide Leads, AtGet, AtBlock;
    var first := GetIsServed(store, st);
    st' := BlocksFollow(store, first, 0);
    LeadsOn(store, st, first, st');
  }

  lemma {:induction false} OneChunkMore(store: Store, st: System, next: System, st': System)
    requires ChunkDone(store, st, next)
    requires if st.queue == [] then st' == next else ListDone(store, next, st')
    ensures ListDone(store, st, st')
  {
    assert Buffers(store, [st.head] + st.queue) == [Some(store(st.head))] + Buffers(store, st.queue);
    hide AtGet;
    if st.queue != [] {
      assert [st.queue[0]] + st.queue[1..] == st.queue;
    } else {
      assert Buffers(store, []) == [];
    }
  }

  lemma {:induction false} ListFollows(store: Store, st: System) returns (st': System)
    requires AtGet(st)
    ensures Leads(store, st, st') && ListDone(store, st, st')
    decreases |st.queue|
  {
    var next := ChunkFollows(store, st);
    st' := next;
    hide Leads, ListDone, AtGet;
    if st.queue != [] {
      st' := ListFollows(store, next);
      LeadsOn(store, st, next, st');
    }
    OneChunkMore(store, st, next, st');
  }

  /** Every non-empty list can be downloaded to its end: all its chunks, in order, byte for byte. */
  lemma {:induction false} ListCompletes(store: Store, ids: seq<ChunkId>) returns (es: seq<ChunkSequence.Event>)
    requires ids != []
    ensures NoCancel(es)
    ensures var st := ChunkSequence.Run(store, ChunkSequence.START, es);
            !st.active && st.queue == [] && st.assembled == Buffers(store, ids)
  {
    var asked := ChunkSequence.Step(store, ChunkSequence.START, Ihave(ids));
    assert AtGet(asked) && asked.head == ids[0] && asked.queue == ids[1..] && asked.assembled == [];
    assert [ids[0]] + ids[1..] == ids;
    LeadsStep(store, ChunkSequence.START, Ihave(ids));
    hide ChunkSequence.Step, AtGet, ChunkSequence.Run, Leads;
    var st := ListFollows(store, asked);
    LeadsOn(store, ChunkSequence.START, asked, st);
    assert [] + Buffers(store, ids) == Buffers(store, ids);
    es := LeadsBy(store, ChunkSequence.START, st);
  }

  lemma {:induction false} LeadsBy(store: Store, st: System, st': System) returns (es: seq<ChunkSequence.Event>)
    requires Leads(store, st, st')
    ensures NoCancel(es) && ChunkSequence.Run(store, st, es) == st'
  {
    es :| NoCancel(es) && ChunkSequence.Run(store, st, es) == st';
  }

  /** A DATA packet that is not the expected one changes nothing but an ACK that may be repeated. */
  lemma {:induction false} UnexpectedDataIsIgnored(store: Store, es: seq<ChunkSequence.Event>, p: Packet)
    requires Harmless(store, ChunkSequence.START, es)
    requires p.seqNum != ChunkSequence.Run(store, ChunkSequence.START, es).rx.seqNum + 1
    ensures var st := ChunkSequence.Run(store, ChunkSequence.START, es);
            OnData(st, p) == st.(up := if st.active && p.seqNum > st.rx.seqNum + 1
                                       then st.up + [AckMsg(st.Epoch(), st.rx.seqNum)] else st.up)
  {
    ChunkSequence.RunInvariant(store, ChunkSequence.START, es);
    hide ChunkSequence.Run, Harmless;
    UnexpectedFrom(store, ChunkSequence.Run(store, ChunkSequence.START, es), p);
  }

  lemma {:induction false} UnexpectedFrom(store: Store, st: System, p: Packet)
    requires Invariant(store, st) && p.seqNum != st.rx.seqNum + 1
    ensures OnData(st, p) == st.(up := if st.active && p.seqNum > st.rx.seqNum + 1
                                       then st.up + [AckMsg(st.Epoch(), st.rx.seqNum)] else st.up)
  {
    hide ProviderOk, DataOk, UpOk;
  }

  // ---------------------------------------------------------------------------------------------
  // A lost GET.
  // ---------------------------------------------------------------------------------------------

  /** A live connection that has received nothing of its head, with no session and nothing under way: whatever
      carried the GET has lost it. */
  ghost predicate GetLost(st: System)
  {
    st.active && st.rx == Receiver(0, []) && st.session.None? && st.down == [] && st.up == []
  }

  /** Some run without receiver crash timeouts gets the head. */
  ghost predicate CanGetHead(store: Store, st: System)
  {
    exists es :: NoCancel(es) && |ChunkSequence.Run(store, st, es).assembled| > |st.assembled|
  }

  /** The GET of a connection that has already received a chunk is never repeated. */
  lemma {:induction false} LaterGetStaysLost(store: Store, st: System, es: seq<ChunkSequence.Event>)
    requires GetLost(st) && !st.pending && NoCancel(es)
    ensures var t := ChunkSequence.Run(store, st, es);
            GetLost(t) && !t.pending && t.assembled == st.assembled && t.head == st.head
    decreases |es|
  {
    if es != [] {
      var init := es[..|es| - 1];
      assert forall x | x in init :: x in es;
      LaterGetStaysLost(store, st, init);
      assert es[|es| - 1] in es;
    }
  }

  /** The exact condition: a lost GET is made good, and then the whole list is downloaded, if and only if the
      connection has not yet received any DATA; for the later chunks of a list no GET is sent again. */
  lemma {:induction false} LostGetIsRepeatedIffPending(store: Store, st: System)
    requires GetLost(st)
    ensures CanGetHead(store, st) <==> st.pending
    ensures st.pending ==> exists st' :: Leads(store, st, st') && ListDone(store, st, st')
  {
    if st.pending {
      var asked := ChunkSequence.Step(store, st, ChunkSequence.GetTimeout);
      assert AtGet(asked) && asked.head == st.head && asked.queue == st.queue && asked.assembled == st.assembled;
      LeadsStep(store, st, ChunkSequence.GetTimeout);
      hide ChunkSequence.Step, AtGet, ChunkSequence.Run, Leads;
      var st' := ListFollows(store, asked);
      LeadsOn(store, st, asked, st');
      assert ListDone(store, st, st');
      var es := LeadsBy(store, st, st');
      assert |Buffers(store, [st.head] + st.queue)| > 0;
    } else {
      hide GetLost, ChunkSequence.Run;
      forall es | NoCancel(es)
        ensures |ChunkSequence.Run(store, st, es).assembled| == |st.assembled|
      {
        LaterGetStaysLost(store, st, es);
      }
    }
  }
}
