/**
 A receiver connection that downloads a list of chunks, one after another, from one provider over two
 links that may lose packets but keep their order. DATA packets carry no chunk identity: this module
 shows why a block of one chunk is nevertheless never stored in another.

 The field named epoch in a message, and the fields history, assembled, top and hot of the system, are
 labels of the model. They number the chunks in the order in which they came to the head of the list;
 no step reads them except to compute other labels.
 */
module ChunkSequence {
  import opened Control
  import opened Options
  import opened Transfer

  type ChunkId = nat

  /** What the provider stores under each chunk hash. */
  type Store = f: ChunkId -> seq<Byte> | forall id :: IsChunk(f(id)) witness (id: ChunkId) => seq(CHUNK_SIZE, _ => 0)

  datatype Data = Data(epoch: int, packet: Packet)

  /** GET and ACK share the link from the receiver to the provider. */
  datatype Up = Get(epoch: int, id: ChunkId) | AckMsg(epoch: int, n: int)

  datatype System = System(
    // receiver
    active: bool,           // there is a receiver connection with this peer
    pending: bool,          // RECEIVER_STATUS_PENGDING_DATA
    head: ChunkId,          // the chunk at the head of the list, while there is a connection
    queue: seq<ChunkId>,    // the chunk list behind its head
    rx: Receiver,           // counters and buffer of the head
    // provider
    session: Option<Sender>,
    serving: ChunkId,       // the chunk that the session sends, while there is one
    // links
    down: seq<Data>,
    up: seq<Up>,
    // labels
    history: seq<ChunkId>,      // every chunk that has headed the list, by epoch
    assembled: seq<Option<seq<Byte>>>,  // the buffers of the epochs that are over, or None if given up
    top: int,                   // the epoch of the latest provider connection
    hot: bool)                  // some provider connection of epoch top has accepted an ACK
  {
    function Epoch(): int { |assembled| }
  }

  const START := System(false, false, 0, [], Receiver(0, []), None, 0, [], [], [], [], -1, true)

  datatype Event =
    | Ihave(ids: seq<ChunkId>)
    | GetTimeout
    | SendOne
    | ProviderAckTimeout
    | ProviderCrashTimeout
    | LoseData(i: nat)
    | LoseUp(i: nat)
    | DeliverData
    | DeliverUp(accept: bool, rttElapsed: bool)
    | ReceiverCrashTimeout

  // ---------------------------------------------------------------------------------------------
  // The handlers.
  // ---------------------------------------------------------------------------------------------

  /** Chunks picked from an IHAVE join the list; if there is no connection yet, the first one starts it. */
  function OnIhave(st: System, ids: seq<ChunkId>): System
  {
    if st.active then st.(queue := st.queue + ids)
    else if ids == [] then st
    else st.(active := true, pending := true, head := ids[0], queue := ids[1..], rx := Receiver(0, []),
             history := st.history + [ids[0]],
             up := st.up + [Get(st.Epoch(), ids[0])])
  }

  /** receiver_control_by_timeout repeats GET only while no DATA has been accepted on this connection. */
  function OnGetTimeout(st: System): System
  {
    if st.active && st.pending then st.(up := st.up + [Get(st.Epoch(), st.head)]) else st
  }

  ghost function OnSendOne(store: Store, st: System): System
  {
    if st.session.None? then st else
      var (s, result) := OnSend(st.session.value);
      var st' := st.(session := Some(s));
      if result.Sent? && 1 <= result.seqNum <= CHUNK_DATA_NUM then
        st'.(down := st.down + [Data(st.top, Packet(result.seqNum, Block(store(st.serving), result.seqNum)))])
      else st'
  }

  /** The DATA case: the ACK goes out first, then the buffer is saved and the next chunk requested. */
  function OnData(st: System, p: Packet): System
  {
    if !st.active then st else
      var (r, reply) := Receive(st.rx, p);
      var st' := st.(rx := r, pending := st.pending && r == st.rx,
                     up := if reply.AckReply? then st.up + [AckMsg(st.Epoch(), reply.n)] else st.up);
      if |r.data| == CHUNK_SIZE then NextChunk(st') else st'
  }

  function NextChunk(st: System): System
  {
    var done := st.(assembled := st.assembled + [Some(st.rx.data)], rx := Receiver(0, []));
    if st.queue == [] then done.(active := false)
    else done.(head := st.queue[0], queue := st.queue[1..], history := st.history + [st.queue[0]],
               up := st.up + [Get(done.Epoch(), st.queue[0])])
  }

  /** The GET and ACK cases. A GET is served with the chunk it names; accept is false when the provider has no free connection or not the chunk. */
  function OnUp(st: System, m: Up, accept: bool, rttElapsed: bool): System
  {
    match m
    case Get(epoch, id) =>
      if st.session.Some? || !accept then st
      else st.(session := Some(FRESH), serving := id, top := epoch, hot := false)
    case AckMsg(epoch, n) =>
      if st.session.None? then st else
        var s := OnAck(st.session.value, n, rttElapsed);
        st.(session := if s.acked == CHUNK_DATA_NUM then None else Some(s), hot := st.hot || s.acked > 0)
  }

  /** cancel_receiver_connection: the chunk at the head and those behind it are given up. */
  function OnCancel(st: System): System
  {
    if !st.active then st
    else st.(active := false, queue := [], rx := Receiver(0, []), assembled := st.assembled + [None])
  }

  function Without<T>(s: seq<T>, i: nat): seq<T>
    requires i < |s|
  {
    s[..i] + s[i + 1..]
  }

  ghost function Step(store: Store, st: System, e: Event): System
  {
    match e
    case Ihave(ids) => OnIhave(st, ids)
    case GetTimeout => OnGetTimeout(st)
    case SendOne => OnSendOne(store, st)
    case ProviderAckTimeout =>
      if st.session.Some? then st.(session := Some(Lose(st.session.value))) else st
    case ProviderCrashTimeout => st.(session := None)
    case LoseData(i) => if i < |st.down| then st.(down := Without(st.down, i)) else st
    case LoseUp(i) => if i < |st.up| then st.(up := Without(st.up, i)) else st
    case DeliverData => if st.down == [] then st else OnData(st.(down := st.down[1..]), st.down[0].packet)
    case DeliverUp(accept, rttElapsed) =>
      if st.up == [] then st else OnUp(st.(up := st.up[1..]), st.up[0], accept, rttElapsed)
    case ReceiverCrashTimeout => OnCancel(st)
  }

  ghost function Run(store: Store, st: System, es: seq<Event>): System
  {
    if es == [] then st else Step(store, Run(store, st, es[..|es| - 1]), es[|es| - 1])
  }

  // ---------------------------------------------------------------------------------------------
  // The invariant.
  // ---------------------------------------------------------------------------------------------

  /** Order on the link to the receiver: epochs do not go back, and within one epoch no packet 1 follows a
      later packet. */
  predicate DataFollows(a: Data, b: Data)
  {
    && a.epoch <= b.epoch
    && (a.epoch == b.epoch && a.packet.seqNum >= 2 ==> b.packet.seqNum >= 2)
  }

  predicate DataOrdered(s: seq<Data>) { forall i, j | 0 <= i < j < |s| :: DataFollows(s[i], s[j]) }

  /** Order on the link to the provider: once a chunk is acknowledged, it is not requested again. */
  predicate UpFollows(a: Up, b: Up)
  {
    && a.epoch <= b.epoch
    && (a.AckMsg? && a.n >= 1 && b.Get? ==> a.epoch < b.epoch)
  }

  predicate UpOrdered(s: seq<Up>) { forall i, j | 0 <= i < j < |s| :: UpFollows(s[i], s[j]) }

  /** What the conditions on messages under way depend on. */
  datatype View = View(history: seq<ChunkId>, assembled: seq<Option<seq<Byte>>>, accepted: int, top: int, hot: bool)
  {
    function Epoch(): int { |assembled| }
  }

  function ViewOf(st: System): View { View(st.history, st.assembled, st.rx.seqNum, st.top, st.hot) }

  ghost predicate DataOk(store: Store, v: View, d: Data)
  {
    && 0 <= d.epoch <= v.top < |v.history|
    && Genuine(store(v.history[d.epoch]), d.packet)
    && (d.epoch < v.Epoch() ==> d.packet.seqNum >= 2)
    && (v.accepted >= 1 ==> d.epoch == v.Epoch())
    && (d.epoch == v.top && !v.hot ==> d.packet.seqNum == 1)
  }

  /** A GET under way is for the current chunk; an ACK of accepted packets for what the provider last served. */
  ghost predicate UpOk(v: View, m: Up)
  {
    && v.top <= m.epoch <= v.Epoch()
    && match m
       case Get(epoch, id) =>
         && 0 <= epoch == v.Epoch() < |v.history| && v.history[epoch] == id
         && (v.hot ==> epoch > v.top)
       case AckMsg(epoch, n) =>
         && 0 <= n <= CHUNK_DATA_NUM
         && (epoch == v.Epoch() ==> n <= v.accepted)
         && (n >= 1 ==> epoch == v.top)
         && (n == CHUNK_DATA_NUM ==> 0 <= epoch < v.Epoch() && v.assembled[epoch].Some?)
  }

  ghost predicate ReceiverOk(store: Store, st: System)
  {
    && |st.history| == st.Epoch() + (if st.active then 1 else 0)
    && (forall k | 0 <= k < st.Epoch() :: st.assembled[k].Some? ==> st.assembled[k].value == store(st.history[k]))
    && 0 <= st.rx.seqNum < CHUNK_DATA_NUM
    && (if st.active then
          st.head == st.history[st.Epoch()] && st.rx.data == store(st.head)[..DATA_SIZE * st.rx.seqNum]
        else st.rx == Receiver(0, []))
    && (st.active && st.pending ==> st.rx.seqNum == 0)
  }

  ghost predicate ProviderOk(st: System)
  {
    && -1 <= st.top <= st.Epoch()
    && st.top < |st.history|
    && (st.top < st.Epoch() ==> st.rx.seqNum == 0 && (st.session.Some? ==> st.hot))
    && (!st.active ==> st.top < st.Epoch())
    && (st.hot && st.top == st.Epoch() ==> st.rx.seqNum >= 1)
    && (st.session.Some? ==>
          var s := st.session.value;
          && 0 <= st.top && st.serving == st.history[st.top]
          && Inv(s) && s.acked < CHUNK_DATA_NUM
          && (st.hot <==> s.acked >= 1)
          && (st.top == st.Epoch() ==> s.acked <= st.rx.seqNum))
  }

  ghost predicate Invariant(store: Store, st: System)
  {
    && ReceiverOk(store, st)
    && ProviderOk(st)
    && (forall d | d in st.down :: DataOk(store, ViewOf(st), d))
    && (forall m | m in st.up :: UpOk(ViewOf(st), m))
    && DataOrdered(st.down)
    && UpOrdered(st.up)
  }

  // ---------------------------------------------------------------------------------------------
  // Every event except a receiver crash timeout keeps it.
  // ---------------------------------------------------------------------------------------------

  lemma {:induction false} PushData(s: seq<Data>, d: Data)
    requires DataOrdered(s) && forall x | x in s :: DataFollows(x, d)
    ensures DataOrdered(s + [d])
  {
  }

  lemma {:induction false} PushUp(s: seq<Up>, m: Up)
    requires UpOrdered(s) && forall x | x in s :: UpFollows(x, m)
    ensures UpOrdered(s + [m])
  {
  }

  lemma {:induction false} Lost<T>(s: seq<T>, i: nat)
    requires i < |s|
    ensures forall x | x in Without(s, i) :: x in s
  {
  }

  lemma {:induction false} LoseDataKeeps(store: Store, st: System, i: nat)
    requires Invariant(store, st) && i < |st.down|
    ensures Invariant(store, st.(down := Without(st.down, i)))
  {
    Lost(st.down, i);
    assert ViewOf(st.(down := Without(st.down, i))) == ViewOf(st);
  }

  lemma {:induction false} LoseUpKeeps(store: Store, st: System, i: nat)
    requires Invariant(store, st) && i < |st.up|
    ensures Invariant(store, st.(up := Without(st.up, i)))
  {
    Lost(st.up, i);
    assert ViewOf(st.(up := Without(st.up, i))) == ViewOf(st);
  }

  /** A message of the current epoch may always be appended to the link to the provider, an ACK with the
      number of accepted packets, a GET while there are none. */
  lemma {:induction false} SayKeeps(store: Store, st: System, m: Up)
    requires Invariant(store, st) && st.active
    requires (m == AckMsg(st.Epoch(), st.rx.seqNum) && (st.rx.seqNum >= 1 ==> st.top == st.Epoch()))
          || (m == Get(st.Epoch(), st.head) && st.rx.seqNum == 0)
    ensures Invariant(store, st.(up := st.up + [m]))
  {
    var st' := st.(up := st.up + [m]);
    forall x | x in st.up
      ensures UpFollows(x, m)
    {
      assert UpOk(ViewOf(st), x);
    }
    PushUp(st.up, m);
    forall x | x in st'.up
      ensures UpOk(ViewOf(st'), x)
    {
      if x in st.up { assert UpOk(ViewOf(st), x); }
    }
    assert ViewOf(st') == ViewOf(st);
  }

  lemma {:induction false} IhaveKeeps(store: Store, st: System, ids: seq<ChunkId>)
    requires Invariant(store, st)
    ensures Invariant(store, OnIhave(st, ids))
  {
    var st' := OnIhave(st, ids);
    if !st.active && ids != [] {
      var st1 := st'.(up := st.up);
      assert forall d | d in st.down :: DataOk(store, ViewOf(st), d) ==> DataOk(store, ViewOf(st1), d);
      assert forall m | m in st.up :: UpOk(ViewOf(st), m) ==> UpOk(ViewOf(st1), m);
      assert Invariant(store, st1);
      SayKeeps(store, st1, Get(st.Epoch(), ids[0]));
    } else {
      assert ViewOf(st') == ViewOf(st);
    }
  }

  lemma {:induction false} GetTimeoutKeeps(store: Store, st: System)
    requires Invariant(store, st)
    ensures Invariant(store, OnGetTimeout(st))
  {
    if st.active && st.pending {
      SayKeeps(store, st, Get(st.Epoch(), st.head));
    }
  }

  /** The step at which W <= A + 1 matters: without an accepted ACK only packet 1 can be sent, and after one
      packet 1 is never sent again. */
  lemma {:induction false} SendOneKeeps(store: Store, st: System)
    requires Invariant(store, st)
    ensures Invariant(store, OnSendOne(store, st))
  {
    if st.session.Some? {
      var s, n := st.session.value, OnSend(st.session.value).1;
      SentIsRight(s);
      var st1 := st.(session := Some(OnSend(s).0));
      SentKeeps(store, st);
      if n.Sent? {
        assert st1.hot <==> n.seqNum >= 2;
        var d := Data(st.top, Packet(n.seqNum, Block(store(st.serving), n.seqNum)));
        assert Genuine(store(st1.history[st1.top]), d.packet);
        hide Invariant, Genuine, OnSend, Block, DataOk, DataFollows;
        DispatchFits(store, st1, d);
        DispatchKeeps(store, st1, d);
      }
    }
  }

  /** Because of window <= acked + 1: without an accepted ACK only packet 1, after one never packet 1. */
  lemma {:induction false} SentIsRight(s: Sender)
    requires Inv(s)
    ensures Inv(OnSend(s).0) && OnSend(s).0.acked == s.acked
    ensures OnSend(s).1.Sent? ==> 1 <= OnSend(s).1.seqNum <= CHUNK_DATA_NUM
    ensures OnSend(s).1.Sent? ==> (s.acked >= 1 <==> OnSend(s).1.seqNum >= 2)
  {
    StepKeepsInv(s, Control.Send);
  }

  lemma {:induction false} SentKeeps(store: Store, st: System)
    requires Invariant(store, st) && st.session.Some?
    requires Inv(OnSend(st.session.value).0) && OnSend(st.session.value).0.acked == st.session.value.acked
    ensures Invariant(store, st.(session := Some(OnSend(st.session.value).0)))
  {
    hide Genuine, Inv, OnSend;
    assert ViewOf(st.(session := Some(OnSend(st.session.value).0))) == ViewOf(st);
  }

  lemma {:induction false} DispatchKeeps(store: Store, st: System, d: Data)
    requires Invariant(store, st) && DataOk(store, ViewOf(st), d)
    requires forall x | x in st.down :: DataFollows(x, d)
    ensures Invariant(store, st.(down := st.down + [d]))
  {
    hide DataOk, UpOk, DataFollows;
    var st' := st.(down := st.down + [d]);
    PushData(st.down, d);
    assert ViewOf(st') == ViewOf(st);
  }

  /** What the sender may put on the link: a packet of the epoch it serves, packet 1 only before an accepted ACK. */
  lemma {:induction false} DispatchFits(store: Store, st: System, d: Data)
    requires Invariant(store, st) && st.session.Some?
    requires d.epoch == st.top && Genuine(store(st.history[st.top]), d.packet)
    requires d.packet.seqNum >= 1 && (st.hot <==> d.packet.seqNum >= 2)
    ensures DataOk(store, ViewOf(st), d) && forall x | x in st.down :: DataFollows(x, d)
  {
    hide Genuine, Inv;
    forall x | x in st.down
      ensures DataFollows(x, d)
    {
      assert DataOk(store, ViewOf(st), x);
    }
  }

  lemma {:induction false} SessionKeeps(store: Store, st: System, session: Option<Sender>)
    requires Invariant(store, st)
    requires session.Some? ==>
               && st.session.Some? && Inv(session.value)
               && session.value.acked == st.session.value.acked
    ensures Invariant(store, st.(session := session))
  {
    var st' := st.(session := session);
    assert ViewOf(st') == ViewOf(st);
  }

  /** Whatever the receiver accepts is the next block of the chunk at the head of its list. */
  lemma {:induction false} AcceptedIsNextBlock(store: Store, st: System)
    requires Invariant(store, st) && st.down != [] && st.active
    requires st.down[0].packet.seqNum == st.rx.seqNum + 1
    ensures st.down[0].epoch == st.top == st.Epoch()
    ensures st.down[0].packet.payload == Block(store(st.head), st.rx.seqNum + 1)
  {
    assert st.down[0] in st.down;
    assert DataOk(store, ViewOf(st), st.down[0]);
  }

  lemma {:induction false} PopDataKeeps(store: Store, st: System)
    requires Invariant(store, st) && st.down != []
    ensures Invariant(store, st.(down := st.down[1..]))
    ensures forall d | d in st.down[1..] :: DataFollows(st.down[0], d)
  {
    assert Without(st.down, 0) == st.down[1..];
    LoseDataKeeps(store, st, 0);
  }

  lemma {:induction false} DataKeeps(store: Store, st: System)
    requires Invariant(store, st) && st.down != []
    ensures Invariant(store, OnData(st.(down := st.down[1..]), st.down[0].packet))
  {
    var st1, p := st.(down := st.down[1..]), st.down[0].packet;
    PopDataKeeps(store, st);
    if st.active && p.seqNum == st.rx.seqNum + 1 {
      AcceptKeeps(store, st);
    } else if st.active && p.seqNum > st.rx.seqNum + 1 {
      SayKeeps(store, st1, AckMsg(st.Epoch(), st.rx.seqNum));
      assert OnData(st1, p) == st1.(up := st1.up + [AckMsg(st.Epoch(), st.rx.seqNum)]);
    } else {
      assert OnData(st1, p) == st1;
    }
  }

  /** The state after an accepted packet, before a full buffer is saved. */
  function Stored(st: System): System
    requires st.down != []
  {
    st.(down := st.down[1..], pending := false,
        rx := Receiver(st.rx.seqNum + 1, st.rx.data + st.down[0].packet.payload),
        up := st.up + [AckMsg(st.Epoch(), st.rx.seqNum + 1)])
  }

  lemma {:induction false} StoredLinks(store: Store, st: System)
    requires Invariant(store, st) && st.down != [] && st.active
    requires st.down[0].packet.seqNum == st.rx.seqNum + 1
    ensures var t := Stored(st);
            && DataOrdered(t.down) && UpOrdered(t.up)
            && (forall d | d in t.down :: DataOk(store, ViewOf(st), d) && d.epoch == st.Epoch())
            && (forall d | d in t.down :: st.rx.seqNum >= 1 ==> d.packet.seqNum >= 2)
            && (forall m | m in t.up :: UpOk(ViewOf(st), m) || m == AckMsg(st.Epoch(), st.rx.seqNum + 1))
            && (st.rx.seqNum >= 1 ==> st.hot)
  {
    hide Genuine, ReceiverOk;
    AcceptedIsNextBlock(store, st);
    PopDataKeeps(store, st);
    assert DataOk(store, ViewOf(st), st.down[0]);
    forall d | d in st.down[1..]
      ensures DataOk(store, ViewOf(st), d) && d.epoch == st.Epoch()
      ensures st.rx.seqNum >= 1 ==> d.packet.seqNum >= 2
    {
      assert d in st.down && DataFollows(st.down[0], d);
      assert DataOk(store, ViewOf(st), d);
    }
    var m := AckMsg(st.Epoch(), st.rx.seqNum + 1);
    forall x | x in st.up
      ensures UpFollows(x, m)
    {
      assert UpOk(ViewOf(st), x);
    }
    PushUp(st.up, m);
  }

  lemma {:induction false} AcceptKeeps(store: Store, st: System)
    requires Invariant(store, st) && st.down != [] && st.active
    requires st.down[0].packet.seqNum == st.rx.seqNum + 1
    ensures Invariant(store, OnData(st.(down := st.down[1..]), st.down[0].packet))
  {
    var t := Stored(st);
    AcceptedIsNextBlock(store, st);
    StoredLinks(store, st);
    NextBlock(store(st.head), st.rx.seqNum);
    assert t.rx.data == store(st.head)[..DATA_SIZE * t.rx.seqNum];
    if t.rx.seqNum < CHUNK_DATA_NUM {
      assert OnData(st.(down := st.down[1..]), st.down[0].packet) == t;
      forall d | d in t.down ensures DataOk(store, ViewOf(t), d) { assert DataOk(store, ViewOf(st), d); }
      forall m | m in t.up ensures UpOk(ViewOf(t), m) {}
    } else {
      assert OnData(st.(down := st.down[1..]), st.down[0].packet) == NextChunk(t);
      FinishKeeps(store, st, t);
    }
  }

  /** The chunk change: nothing of the old chunk that is still on its way to the receiver is a packet 1. */
  lemma {:induction false} FinishKeeps(store: Store, st: System, t: System)
    requires Invariant(store, st) && st.down != [] && st.active && t == Stored(st)
    requires st.down[0].packet.seqNum == st.rx.seqNum + 1 == CHUNK_DATA_NUM
    requires t.rx.data == store(st.head)[..DATA_SIZE * CHUNK_DATA_NUM]
    ensures Invariant(store, NextChunk(t))
  {
    StoredLinks(store, st);
    AcceptedIsNextBlock(store, st);
    var done := t.(assembled := t.assembled + [Some(t.rx.data)], rx := Receiver(0, []), active := false);
    assert t.rx.data == store(st.head);
    forall d | d in done.down ensures DataOk(store, ViewOf(done), d) { assert DataOk(store, ViewOf(st), d); }
    forall m | m in done.up ensures UpOk(ViewOf(done), m) {}
    assert Invariant(store, done);
    if st.queue != [] {
      var next := done.(active := true, head := st.queue[0], queue := st.queue[1..], history := st.history + [st.queue[0]]);
      assert forall d | d in done.down :: DataOk(store, ViewOf(done), d) ==> DataOk(store, ViewOf(next), d);
      assert forall m | m in done.up :: UpOk(ViewOf(done), m) ==> UpOk(ViewOf(next), m);
      assert Invariant(store, next);
      SayKeeps(store, next, Get(next.Epoch(), st.queue[0]));
    }
  }

  lemma {:induction false} PopUpKeeps(store: Store, st: System)
    requires Invariant(store, st) && st.up != []
    ensures Invariant(store, st.(up := st.up[1..]))
    ensures UpOk(ViewOf(st), st.up[0])
    ensures forall m | m in st.up[1..] :: UpFollows(st.up[0], m)
  {
    assert Without(st.up, 0) == st.up[1..];
    LoseUpKeeps(store, st, 0);
    assert st.up[0] in st.up;
  }

  lemma {:induction false} UpKeeps(store: Store, st: System, accept: bool, rttElapsed: bool)
    requires Invariant(store, st) && st.up != []
    ensures Invariant(store, OnUp(st.(up := st.up[1..]), st.up[0], accept, rttElapsed))
  {
    PopUpKeeps(store, st);
    if st.up[0].Get? {
      GetKeeps(store, st, accept);
    } else {
      AckKeeps(store, st, rttElapsed);
    }
  }

  lemma {:induction false} GetKeeps(store: Store, st: System, accept: bool)
    requires Invariant(store, st) && st.up != [] && st.up[0].Get?
    ensures Invariant(store, OnUp(st.(up := st.up[1..]), st.up[0], accept, false))
  {
    PopUpKeeps(store, st);
    var st1 := st.(up := st.up[1..]);
    if st.session.None? && accept {
      var st' := OnUp(st1, st.up[0], accept, false);
      forall d | d in st'.down ensures DataOk(store, ViewOf(st'), d) { assert DataOk(store, ViewOf(st1), d); }
      forall m | m in st'.up ensures UpOk(ViewOf(st'), m) { assert UpOk(ViewOf(st1), m) && UpFollows(st.up[0], m); }
    }
  }

  lemma {:induction false} AckKeeps(store: Store, st: System, rttElapsed: bool)
    requires Invariant(store, st) && st.up != [] && st.up[0].AckMsg?
    ensures Invariant(store, OnUp(st.(up := st.up[1..]), st.up[0], false, rttElapsed))
  {
    PopUpKeeps(store, st);
    if st.session.Some? {
      StepKeepsInv(st.session.value, Control.Ack(st.up[0].n, rttElapsed));
      AckedKeeps(store, st, OnAck(st.session.value, st.up[0].n, rttElapsed));
    }
  }

  lemma {:induction false} AckedKeeps(store: Store, st: System, s: Sender)
    requires Invariant(store, st) && st.up != [] && st.up[0].AckMsg? && st.session.Some?
    requires Inv(s) && s.acked == (if st.session.value.acked < st.up[0].n <= st.session.value.sent then st.up[0].n
                                   else st.session.value.acked)
    ensures Invariant(store, st.(up := st.up[1..], hot := st.hot || s.acked > 0,
                                 session := if s.acked == CHUNK_DATA_NUM then None else Some(s)))
  {
    PopUpKeeps(store, st);
    var st' := st.(up := st.up[1..], hot := st.hot || s.acked > 0,
                   session := if s.acked == CHUNK_DATA_NUM then None else Some(s));
    forall d | d in st'.down ensures DataOk(store, ViewOf(st'), d) { assert DataOk(store, ViewOf(st), d); }
    forall m | m in st'.up ensures UpOk(ViewOf(st'), m) {
      assert UpOk(ViewOf(st), m) && UpFollows(st.up[0], m);
    }
  }

  lemma {:induction false} StepKeepsInvariant(store: Store, st: System, e: Event)
    requires Invariant(store, st) && !e.ReceiverCrashTimeout?
    ensures Invariant(store, Step(store, st, e))
  {
    match e
    case Ihave(ids) => IhaveKeeps(store, st, ids);
    case GetTimeout => GetTimeoutKeeps(store, st);
    case SendOne => SendOneKeeps(store, st);
    case ProviderAckTimeout =>
      if st.session.Some? {
        StepKeepsInv(st.session.value, Control.AckTimeout);
        SessionKeeps(store, st, Some(Lose(st.session.value)));
      }
    case ProviderCrashTimeout => SessionKeeps(store, st, None);
    case LoseData(i) => if i < |st.down| { LoseDataKeeps(store, st, i); }
    case LoseUp(i) => if i < |st.up| { LoseUpKeeps(store, st, i); }
    case DeliverData => if st.down != [] { DataKeeps(store, st); }
    case DeliverUp(accept, rttElapsed) => if st.up != [] { UpKeeps(store, st, accept, rttElapsed); }
  }

  // ---------------------------------------------------------------------------------------------
  // When a receiver crash timeout keeps it.
  // ---------------------------------------------------------------------------------------------

  /** Something of the current session can still bring forth a packet 1. */
  ghost predicate Risky(st: System)
  {
    || (exists d | d in st.down :: d.packet.seqNum == 1)
    || (exists m | m in st.up :: m.Get?)
    || (st.session.Some? && st.session.value.acked == 0)
  }

  lemma {:induction false} CancelKeeps(store: Store, st: System)
    requires Invariant(store, st) && (st.active ==> !Risky(st))
    ensures Invariant(store, OnCancel(st))
  {
    if st.active {
      var t := OnCancel(st);
      forall d | d in t.down ensures DataOk(store, ViewOf(t), d) { assert DataOk(store, ViewOf(st), d); }
      forall m | m in t.up ensures UpOk(ViewOf(t), m) { assert UpOk(ViewOf(st), m); }
    }
  }

  /** Every receiver crash timeout of the run comes when nothing is risky. */
  ghost predicate Harmless(store: Store, st: System, es: seq<Event>)
  {
    es == [] ||
    (var init := es[..|es| - 1];
     && Harmless(store, st, init)
     && (es[|es| - 1].ReceiverCrashTimeout? ==> !Run(store, st, init).active || !Risky(Run(store, st, init))))
  }

  ghost predicate NoCancel(es: seq<Event>) { forall e | e in es :: !e.ReceiverCrashTimeout? }

  lemma {:induction false} NoCancelIsHarmless(store: Store, st: System, es: seq<Event>)
    requires NoCancel(es)
    ensures Harmless(store, st, es)
    decreases |es|
  {
    if es != [] {
      var init := es[..|es| - 1];
      assert forall x | x in init :: x in es;
      NoCancelIsHarmless(store, st, init);
      assert es[|es| - 1] in es;
    }
  }

  lemma {:induction false} RunInvariant(store: Store, st: System, es: seq<Event>)
    requires Invariant(store, st) && Harmless(store, st, es)
    ensures Invariant(store, Run(store, st, es))
    decreases |es|
  {
    if es != [] {
      var init, e := es[..|es| - 1], es[|es| - 1];
      hide Invariant, Risky;
      RunInvariant(store, st, init);
      var before := Run(store, st, init);
      hide Harmless;
      if e.ReceiverCrashTimeout? {
        CancelKeeps(store, before);
      } else {
        StepKeepsInvariant(store, before, e);
      }
    }
  }

  // ---------------------------------------------------------------------------------------------
  // What it gives.
  // ---------------------------------------------------------------------------------------------

  /** Every chunk that left the list complete was assembled from its own blocks, and the head is a prefix of
      its own chunk. */
  ghost predicate Clean(store: Store, st: System)
  {
    && |st.assembled| + (if st.active then 1 else 0) == |st.history|
    && (forall k | 0 <= k < |st.assembled| :: st.assembled[k].Some? ==> st.assembled[k].value == store(st.history[k]))
    && (st.active ==>
          0 <= st.rx.seqNum < CHUNK_DATA_NUM && st.rx.data == store(st.head)[..DATA_SIZE * st.rx.seqNum])
  }

  /** A packet that would be accepted next carries the next block of the chunk that is now at the head. */
  ghost predicate NextIsRight(store: Store, st: System)
  {
    st.active && 0 <= st.rx.seqNum < CHUNK_DATA_NUM && st.down != []
      && st.down[0].packet.seqNum == st.rx.seqNum + 1 ==>
      st.down[0].packet.payload == Block(store(st.head), st.rx.seqNum + 1)
  }

  /** No contamination, in every run in which receiver crash timeouts, if any, come when nothing is risky. */
  lemma {:induction false} NoContamination(store: Store, es: seq<Event>)
    requires Harmless(store, START, es)
    ensures Clean(store, Run(store, START, es)) && NextIsRight(store, Run(store, START, es))
  {
    RunInvariant(store, START, es);
    hide Run, Harmless;
    InvariantMeansClean(store, Run(store, START, es));
  }

  lemma {:induction false} InvariantMeansClean(store: Store, st: System)
    requires Invariant(store, st)
    ensures Clean(store, st) && NextIsRight(store, st)
  {
    if st.active && st.down != [] && st.down[0].packet.seqNum == st.rx.seqNum + 1 {
      AcceptedIsNextBlock(store, st);
    }
  }

  /** The chunk that the provider is serving has been assembled by the receiver. */
  ghost predicate ServedIsAssembled(store: Store, st: System)
  {
    0 <= st.top < |st.assembled| && st.assembled[st.top] == Some(store(st.serving))
  }

  /** A provider connection that ends by its last ACK ends after the receiver has completed that chunk,
      although ACKs of the next chunk may reach it. */
  lemma {:induction false} ProviderFinishIsSound(store: Store, es: seq<Event>, accept: bool, rttElapsed: bool)
    requires Harmless(store, START, es)
    ensures var st := Run(store, START, es);
            var t := Step(store, st, DeliverUp(accept, rttElapsed));
            st.session.Some? && t.session.None? ==> ServedIsAssembled(store, st)
  {
    RunInvariant(store, START, es);
    hide Run, Harmless;
    FinishMeansAssembled(store, Run(store, START, es), accept, rttElapsed);
  }

  lemma {:induction false} FinishMeansAssembled(store: Store, st: System, accept: bool, rttElapsed: bool)
    requires Invariant(store, st)
    ensures st.session.Some? && Step(store, st, DeliverUp(accept, rttElapsed)).session.None? ==>
              ServedIsAssembled(store, st)
  {
    if st.session.Some? && st.up != [] {
      PopUpKeeps(store, st);
    }
  }

  // ---------------------------------------------------------------------------------------------
  // After a receiver crash timeout.
  // ---------------------------------------------------------------------------------------------

  /** A buffer holds something that is not a prefix of its chunk, or a completed chunk is not what it should be. */
  ghost predicate Contaminated(store: Store, st: System)
  {
    || (st.active && !(st.rx.data <= store(st.head)))
    || (exists k | 0 <= k < |st.assembled| && k < |st.history| ::
          st.assembled[k].Some? && st.assembled[k].value != store(st.history[k]))
  }

  ghost predicate Contaminable(store: Store, st: System)
  {
    exists es :: NoCancel(es) && Contaminated(store, Run(store, st, es))
  }

  /** Every chunk differs from some other one in its first block. */
  ghost predicate Distinguishable(store: Store)
  {
    forall a :: HasRival(store, a)
  }

  ghost predicate HasRival(store: Store, a: ChunkId) { exists b :: Differs(store, a, b) }

  ghost predicate Differs(store: Store, a: ChunkId, b: ChunkId) { Block(store(a), 1) != Block(store(b), 1) }

  lemma {:induction false} RunCons(store: Store, st: System, e: Event, es: seq<Event>)
    ensures Run(store, st, [e] + es) == Run(store, Step(store, st, e), es)
    decreases |es|
  {
    hide Step;
    if es == [] {
      assert ([e] + es)[..0] == [] && ([e] + es)[0] == e;
      assert Run(store, st, []) == st;
    } else {
      var n := |es| - 1;
      assert ([e] + es)[..n + 1] == [e] + es[..n] && ([e] + es)[n + 1] == es[n];
      RunCons(store, st, e, es[..n]);
    }
  }

  lemma {:induction false} ContaminableBefore(store: Store, st: System, e: Event)
    requires !e.ReceiverCrashTimeout? && Contaminable(store, Step(store, st, e))
    ensures Contaminable(store, st)
  {
    hide Step, Run, Contaminated;
    var es :| NoCancel(es) && Contaminated(store, Run(store, Step(store, st, e), es));
    RunCons(store, st, e, es);
    assert NoCancel([e] + es);
  }

  lemma {:induction false} ContaminableNow(store: Store, st: System)
    requires Contaminated(store, st)
    ensures Contaminable(store, st)
  {
    assert NoCancel([]) && Run(store, st, []) == st;
  }

  /** A packet 1 under way to a receiver without a connection becomes the first block of whatever is asked next. */
  lemma {:induction false} FirstBlockArrives(store: Store, st: System, i: nat, a: ChunkId)
    requires Distinguishable(store) && !st.active && i < |st.down|
    requires st.down[i].packet == Packet(1, Block(store(a), 1))
    ensures Contaminable(store, st)
    decreases i
  {
    if i > 0 {
      FirstBlockArrives(store, st.(down := Without(st.down, 0)), i - 1, a);
      ContaminableBefore(store, st, LoseData(0));
    } else {
      assert HasRival(store, a);
      var b :| Differs(store, a, b);
      var st1 := Step(store, st, Ihave([b]));
      var st2 := Step(store, st1, Event.DeliverData);
      StoredFirst(store, st, a, b);
      hide Step;
      ContaminableNow(store, st2);
      ContaminableBefore(store, st1, Event.DeliverData);
      ContaminableBefore(store, st, Ihave([b]));
    }
  }

  lemma {:induction false} StoredFirst(store: Store, st: System, a: ChunkId, b: ChunkId)
    requires !st.active && st.down != [] && st.down[0].packet == Packet(1, Block(store(a), 1)) && Differs(store, a, b)
    ensures Contaminated(store, Step(store, Step(store, st, Ihave([b])), Event.DeliverData))
  {
    var st1 := Step(store, st, Ihave([b]));
    assert st1.rx == Receiver(0, []) && st1.down == st.down && st1.active && st1.head == b;
    var st2 := Step(store, st1, Event.DeliverData);
    assert [] + Block(store(a), 1) == Block(store(a), 1);
    assert st2.active && st2.head == b && st2.rx.data == Block(store(a), 1);
    assert Block(store(b), 1) == store(b)[..DATA_SIZE];
  }

  /** A provider without an accepted ACK repeats packet 1 after a timeout. */
  lemma {:induction false} PacketOneAgain(store: Store, st: System)
    requires Distinguishable(store) && !st.active
    requires st.session.Some? && Inv(st.session.value) && st.session.value.acked == 0
    ensures Contaminable(store, st)
  {
    var st1 := Step(store, st, Event.ProviderAckTimeout);
    StepKeepsInv(st.session.value, Control.AckTimeout);
    assert st1 == st.(session := Some(Lose(st.session.value)));
    var st2 := Step(store, st1, Event.SendOne);
    assert st2.down == st.down + [Data(st.top, Packet(1, Block(store(st.serving), 1)))] && !st2.active;
    hide Step, Distinguishable;
    FirstBlockArrives(store, st2, |st.down|, st.serving);
    ContaminableBefore(store, st1, Event.SendOne);
    ContaminableBefore(store, st, Event.ProviderAckTimeout);
  }

  /** A GET under way starts a session for the chunk that was given up. */
  lemma {:induction false} GetArrives(store: Store, st: System, i: nat)
    requires Distinguishable(store) && !st.active && i < |st.up| && st.up[i].Get?
    ensures Contaminable(store, st)
    decreases i
  {
    if i > 0 {
      GetArrives(store, st.(up := Without(st.up, 0)), i - 1);
      ContaminableBefore(store, st, LoseUp(0));
    } else {
      var st1 := Step(store, st, Event.ProviderCrashTimeout);
      var st2 := Step(store, st1, DeliverUp(true, false));
      assert st2.session == Some(FRESH) && !st2.active;
      hide Step, Distinguishable;
      PacketOneAgain(store, st2);
      ContaminableBefore(store, st1, DeliverUp(true, false));
      ContaminableBefore(store, st, Event.ProviderCrashTimeout);
    }
  }

  lemma {:induction false} RiskyContaminates(store: Store, st: System)
    requires Invariant(store, st) && st.active && Risky(st) && Distinguishable(store)
    ensures Contaminable(store, OnCancel(st))
  {
    var t := OnCancel(st);
    if d :| d in st.down && d.packet.seqNum == 1 {
      assert DataOk(store, ViewOf(st), d);
      var i :| 0 <= i < |st.down| && st.down[i] == d;
      FirstBlockArrives(store, t, i, st.history[d.epoch]);
    } else if m :| m in st.up && m.Get? {
      var i :| 0 <= i < |st.up| && st.up[i] == m;
      GetArrives(store, t, i);
    } else {
      PacketOneAgain(store, t);
    }
  }

  /** The exact condition: after a receiver crash timeout, what was given up can end up in another chunk if
      and only if a packet 1 or a GET is under way or the provider has no accepted ACK yet. */
  lemma {:induction false} ContaminatesIffRisky(store: Store, es: seq<Event>)
    requires Harmless(store, START, es) && Run(store, START, es).active && Distinguishable(store)
    ensures Contaminable(store, Step(store, Run(store, START, es), Event.ReceiverCrashTimeout))
       <==> Risky(Run(store, START, es))
  {
    var st := Run(store, START, es);
    RunInvariant(store, START, es);
    assert Step(store, st, Event.ReceiverCrashTimeout) == OnCancel(st);
    hide Run, Harmless, Invariant, Risky;
    if Risky(st) {
      RiskyContaminates(store, st);
    } else {
      CancelKeeps(store, st);
      forall more | NoCancel(more)
        ensures !Contaminated(store, Run(store, OnCancel(st), more))
      {
        NoCancelIsHarmless(store, OnCancel(st), more);
        RunInvariant(store, OnCancel(st), more);
        InvariantMeansClean(store, Run(store, OnCancel(st), more));
        CleanIsNotContaminated(store, Run(store, OnCancel(st), more));
      }
    }
  }

  lemma {:induction false} CleanIsNotContaminated(store: Store, st: System)
    requires Clean(store, st)
    ensures !Contaminated(store, st)
  {
  }

  /** The shortest such run: block 1 of a, which was given up, is stored as block 1 of b. */
  function CancelRun(a: ChunkId, b: ChunkId): seq<Event>
  {
    [Ihave([a]), DeliverUp(true, false), Event.SendOne, Event.ReceiverCrashTimeout, Ihave([b]), Event.DeliverData]
  }

  lemma {:induction false} CancelContaminates(store: Store, a: ChunkId, b: ChunkId)
    requires Differs(store, a, b)
    ensures Contaminated(store, Run(store, START, CancelRun(a, b)))
  {
    hide Step, Differs;
    RunFour(store, CancelRun(a, b));
    GivenUpEarly(store, a);
    StoredFirst(store, GivenUp(store, a), a, b);
  }

  /** Block 1 of a is under way, and a has been given up. */
  ghost function GivenUp(store: Store, a: ChunkId): System
  {
    System(false, true, a, [], Receiver(0, []), Some(FRESH.(sent := 1)), a,
           [Data(0, Packet(1, Block(store(a), 1)))], [], [a], [None], 0, false)
  }

  lemma {:induction false} GivenUpEarly(store: Store, a: ChunkId)
    ensures Step(store, Step(store, Step(store, Step(store, START,
              Ihave([a])), DeliverUp(true, false)), Event.SendOne), Event.ReceiverCrashTimeout) == GivenUp(store, a)
  {
    hide Block;
    var s1 := Step(store, START, Ihave([a]));
    assert s1.up == [Get(0, a)] && s1.head == a && s1.history == [a];
    var s2 := Step(store, s1, DeliverUp(true, false));
    assert s2.up == [] && s2.session == Some(FRESH) && s2.serving == a;
  }

  lemma {:induction false} RunFour(store: Store, es: seq<Event>)
    requires |es| == 6
    ensures var st := Step(store, Step(store, Step(store, Step(store, START, es[0]), es[1]), es[2]), es[3]);
            Run(store, START, es) == Step(store, Step(store, st, es[4]), es[5])
  {
    hide Step;
    assert es[..5][..4] == es[..4] && es[..4][..3] == es[..3] && es[..3][..2] == es[..2] && es[..2][..1] == es[..1];
    assert Run(store, START, es[..1]) == Step(store, START, es[0]);
    assert Run(store, START, es[..2]) == Step(store, Run(store, START, es[..1]), es[1]);
    assert Run(store, START, es[..3]) == Step(store, Run(store, START, es[..2]), es[2]);
    assert Run(store, START, es[..4]) == Step(store, Run(store, START, es[..3]), es[3]);
    assert Run(store, START, es[..5]) == Step(store, Run(store, START, es[..4]), es[4]);
  }
}
