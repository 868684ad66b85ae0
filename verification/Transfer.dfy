/**
 One chunk sent by one provider to one receiver: the provider of Control, the DATA and ACK cases of
 process_inbound_udp in peer.c, save_data_packet in connection.c, and a network that may lose,
 duplicate and reorder packets in both directions.
 */
module Transfer {
  import opened Control
  import Words

  type Byte = Words.Byte

  const DATA_SIZE := 1024

  const CHUNK_SIZE := 524288

  datatype Packet = Packet(seqNum: int, payload: seq<Byte>)

  /** The counters and the live part of the buffer of the chunk being downloaded. */
  datatype Receiver = Receiver(seqNum: int, data: seq<Byte>)

  datatype Reply = Silence | AckReply(n: int)

  function Receive(r: Receiver, p: Packet): (Receiver, Reply)
  {
    if p.seqNum < 0 then (r, Silence)
    else if p.seqNum < r.seqNum + 1 then (r, Silence)
    else if p.seqNum > r.seqNum + 1 then (r, AckReply(r.seqNum))
    else (Receiver(p.seqNum, r.data + p.payload), AckReply(1 + r.seqNum))
  }

  ghost predicate IsChunk(chunk: seq<Byte>) { |chunk| == CHUNK_SIZE }

  /** The slice that send_data_packet copies into packet n. */
  function Block(chunk: seq<Byte>, n: int): (r: seq<Byte>)
    requires IsChunk(chunk) && 1 <= n <= CHUNK_DATA_NUM
    ensures |r| == DATA_SIZE
  {
    chunk[(n - 1) * DATA_SIZE..n * DATA_SIZE]
  }

  // ---------------------------------------------------------------------------------------------
  // The system.
  // ---------------------------------------------------------------------------------------------

  datatype Provider = Serving(s: Sender) | FinishedByAck | GaveUp

  /** Both channels hold everything ever sent: a packet can be delivered again and again, or never.
      listening tells whether this chunk still heads the list of a live receiver connection; when it no
      longer does, receiver records what had arrived. */
  datatype Session = Session(
    provider: Provider, receiver: Receiver, listening: bool, data: set<Packet>, acks: set<int>)

  datatype Event =
    | SendOne
    | ProviderAckTimeout
    | ProviderCrashTimeout
    | ReceiverCrashTimeout
    | DeliverData(p: Packet)
    | DeliverAck(n: int, rttElapsed: bool)

  const START := Session(Serving(FRESH), Receiver(0, []), true, {}, {})

  /** An event that cannot happen in a state leaves it alone, so that every event list is a run. */
  ghost function Step(chunk: seq<Byte>, st: Session, e: Event): Session
    requires IsChunk(chunk)
  {
    match e
    case SendOne => if st.provider.Serving? then SendStep(chunk, st) else st
    case ProviderAckTimeout => if st.provider.Serving? then st.(provider := Serving(Lose(st.provider.s))) else st
    case ProviderCrashTimeout => if st.provider.Serving? then st.(provider := GaveUp) else st
    case ReceiverCrashTimeout => st.(listening := false)
    case DeliverData(p) => if p in st.data && st.listening then DataStep(st, p) else st
    case DeliverAck(n, rttElapsed) =>
      if n in st.acks && st.provider.Serving? then
        var s := OnAck(st.provider.s, n, rttElapsed);
        st.(provider := if s.acked == CHUNK_DATA_NUM then FinishedByAck else Serving(s))
      else
        st
  }

  ghost function SendStep(chunk: seq<Byte>, st: Session): Session
    requires IsChunk(chunk) && st.provider.Serving?
  {
    var (s, result) := OnSend(st.provider.s);
    var st' := st.(provider := Serving(s));
    if result.Sent? && 1 <= result.seqNum <= CHUNK_DATA_NUM then
      st'.(data := st.data + {Packet(result.seqNum, Block(chunk, result.seqNum))})
    else
      st'
  }

  /** When the buffer is full, save_chunk and reset_receiver_connection take the chunk off the list. */
  ghost function DataStep(st: Session, p: Packet): Session
  {
    var (r, reply) := Receive(st.receiver, p);
    st.(receiver := r, listening := |r.data| != CHUNK_SIZE,
        acks := if reply.AckReply? then st.acks + {reply.n} else st.acks)
  }

  ghost function Run(chunk: seq<Byte>, st: Session, es: seq<Event>): Session
    requires IsChunk(chunk)
    decreases |es|
  {
    if es == [] then st else Run(chunk, Step(chunk, st, es[0]), es[1..])
  }

  // ---------------------------------------------------------------------------------------------
  // Safety.
  // ---------------------------------------------------------------------------------------------

  /** A packet that carries the block it claims to carry. */
  ghost predicate Genuine(chunk: seq<Byte>, p: Packet)
    requires IsChunk(chunk)
  {
    1 <= p.seqNum <= CHUNK_DATA_NUM && p.payload == Block(chunk, p.seqNum)
  }

  ghost predicate Safe(chunk: seq<Byte>, st: Session)
    requires IsChunk(chunk)
  {
    && 0 <= st.receiver.seqNum <= CHUNK_DATA_NUM
    && st.receiver.data == chunk[..DATA_SIZE * st.receiver.seqNum]
    && (st.listening ==> st.receiver.seqNum < CHUNK_DATA_NUM)
    && (forall p | p in st.data :: Genuine(chunk, p))
    && (forall n | n in st.acks :: 0 <= n <= st.receiver.seqNum)
    && match st.provider
       case Serving(s) => Inv(s) && s.acked <= st.receiver.seqNum && s.acked < CHUNK_DATA_NUM
       case FinishedByAck => st.receiver == Receiver(CHUNK_DATA_NUM, chunk)
       case GaveUp => true
  }

  lemma {:induction false} NextBlock(chunk: seq<Byte>, n: int)
    requires IsChunk(chunk) && 0 <= n < CHUNK_DATA_NUM
    ensures chunk[..DATA_SIZE * n] + Block(chunk, n + 1) == chunk[..DATA_SIZE * (n + 1)]
  {
  }

  lemma {:induction false} SendIsSafe(chunk: seq<Byte>, st: Session)
    requires IsChunk(chunk) && Safe(chunk, st) && st.provider.Serving?
    ensures Safe(chunk, SendStep(chunk, st))
  {
    StepKeepsInv(st.provider.s, Control.Send);
  }

  lemma {:induction false} DataIsSafe(chunk: seq<Byte>, st: Session, p: Packet)
    requires IsChunk(chunk) && Safe(chunk, st) && st.listening && Genuine(chunk, p)
    ensures Safe(chunk, DataStep(st, p))
  {
    if p.seqNum == st.receiver.seqNum + 1 {
      NextBlock(chunk, st.receiver.seqNum);
    }
  }

  lemma {:induction false} AckIsSafe(chunk: seq<Byte>, st: Session, n: int, rttElapsed: bool)
    requires IsChunk(chunk) && Safe(chunk, st)
    ensures Safe(chunk, Step(chunk, st, DeliverAck(n, rttElapsed)))
  {
    if st.provider.Serving? {
      StepKeepsInv(st.provider.s, Control.Ack(n, rttElapsed));
      assert chunk[..DATA_SIZE * CHUNK_DATA_NUM] == chunk;
    }
  }

  lemma {:induction false} StepIsSafe(chunk: seq<Byte>, st: Session, e: Event)
    requires IsChunk(chunk) && Safe(chunk, st)
    ensures Safe(chunk, Step(chunk, st, e))
  {
    match e
    case SendOne => if st.provider.Serving? { SendIsSafe(chunk, st); }
    case ProviderAckTimeout => if st.provider.Serving? { StepKeepsInv(st.provider.s, Control.AckTimeout); }
    case DeliverData(p) => if p in st.data && st.listening { DataIsSafe(chunk, st, p); }
    case DeliverAck(n, rttElapsed) => AckIsSafe(chunk, st, n, rttElapsed);
    case _ =>
  }

  /** In every run: the buffer is a prefix of the chunk, no ACK is ahead of it, and the provider counts the
      chunk as delivered only when the receiver holds all of it. */
  lemma {:induction false} RunIsSafe(chunk: seq<Byte>, st: Session, es: seq<Event>)
    requires IsChunk(chunk) && Safe(chunk, st)
    ensures Safe(chunk, Run(chunk, st, es))
    decreases |es|
  {
    if es != [] {
      StepIsSafe(chunk, st, es[0]);
      RunIsSafe(chunk, Step(chunk, st, es[0]), es[1..]);
    }
  }

  lemma {:induction false} EveryRunIsSafe(chunk: seq<Byte>, es: seq<Event>)
    requires IsChunk(chunk)
    ensures Safe(chunk, Run(chunk, START, es))
  {
    RunIsSafe(chunk, START, es);
  }

  // ---------------------------------------------------------------------------------------------
  // Progress: one loss-free round.
  // ---------------------------------------------------------------------------------------------

  function Min(x: int, y: int): int { if x < y then x else y }

  /** The sender with which a round starts: whatever was unacknowledged has timed out. */
  function AfterTimeout(s: Sender): Sender { if s.sent > s.acked then Lose(s) else s }

  /** The last packet that a round sends. */
  function Reach(s: Sender): int { Min(AfterTimeout(s).acked + AfterTimeout(s).window, CHUNK_DATA_NUM) }

  ghost function Sends(k: nat): seq<Event> { if k == 0 then [] else [SendOne] + Sends(k - 1) }

  ghost function Deliveries(chunk: seq<Byte>, lo: int, hi: int): seq<Event>
    requires IsChunk(chunk) && 1 <= lo && hi <= CHUNK_DATA_NUM
    decreases hi - lo
  {
    if lo > hi then [] else
      [DeliverData(Packet(lo, Block(chunk, lo)))] + Deliveries(chunk, lo + 1, hi)
  }

  ghost predicate DataInFlight(chunk: seq<Byte>, st: Session, lo: int, hi: int)
    requires IsChunk(chunk) && 1 <= lo && hi <= CHUNK_DATA_NUM
  {
    forall i | lo <= i <= hi :: Packet(i, Block(chunk, i)) in st.data
  }

  ghost predicate AcksInFlight(st: Session, lo: int, hi: int)
  {
    forall i | lo <= i <= hi :: i in st.acks
  }

  ghost function AckDeliveries(lo: int, hi: int, clock: int -> bool): seq<Event>
    decreases hi - lo
  {
    if lo > hi then [] else [DeliverAck(lo, clock(lo))] + AckDeliveries(lo + 1, hi, clock)
  }

  /** Time out if anything is unacknowledged, fill the window, deliver the packets in order, deliver the
      ACKs they cause in order. clock decides the RTT comparisons. */
  ghost function Round(chunk: seq<Byte>, st: Session, clock: int -> bool): seq<Event>
    requires IsChunk(chunk) && Safe(chunk, st)
  {
    if !st.provider.Serving? then [] else
      var s := st.provider.s;
      ReachIsAhead(s);
      (if s.sent > s.acked then [ProviderAckTimeout] else [])
      + Sends(Reach(s) - s.acked)
      + Deliveries(chunk, s.acked + 1, Reach(s))
      + AckDeliveries(st.receiver.seqNum + 1, Reach(s), clock)
  }

  lemma {:induction false} RunConcat(chunk: seq<Byte>, st: Session, es: seq<Event>, es': seq<Event>)
    requires IsChunk(chunk)
    ensures Run(chunk, st, es + es') == Run(chunk, Run(chunk, st, es), es')
    decreases |es|
  {
    if es == [] {
      assert es + es' == es';
    } else {
      assert (es + es')[0] == es[0] && (es + es')[1..] == es[1..] + es';
      RunConcat(chunk, Step(chunk, st, es[0]), es[1..], es');
    }
  }

  lemma {:induction false} RunCons(chunk: seq<Byte>, st: Session, e: Event, es: seq<Event>)
    requires IsChunk(chunk)
    ensures Run(chunk, st, [e] + es) == Run(chunk, Step(chunk, st, e), es)
  {
    assert ([e] + es)[1..] == es;
  }

  lemma {:induction false} SendPhase(chunk: seq<Byte>, st: Session, k: nat)
    requires IsChunk(chunk) && st.provider.Serving? && Inv(st.provider.s)
    requires var s := st.provider.s; s.sent + k <= Min(s.acked + s.window, CHUNK_DATA_NUM)
    ensures var s := st.provider.s; var t := Run(chunk, st, Sends(k));
            && t.provider == Serving(s.(sent := s.sent + k))
            && t.receiver == st.receiver && t.listening == st.listening && t.acks == st.acks
            && st.data <= t.data
            && DataInFlight(chunk, t, s.sent + 1, s.sent + k)
    decreases k
  {
    if k > 0 {
      var s1 := Step(chunk, st, SendOne);
      RunCons(chunk, st, SendOne, Sends(k - 1));
      SendPhase(chunk, s1, k - 1);
      assert Packet(st.provider.s.sent + 1, Block(chunk, st.provider.s.sent + 1)) in s1.data;
    }
  }

  lemma {:induction false} DataPhase(chunk: seq<Byte>, st: Session, lo: int, hi: int)
    requires IsChunk(chunk) && Safe(chunk, st) && st.listening
    requires 1 <= lo <= st.receiver.seqNum + 1 && hi <= CHUNK_DATA_NUM
    requires DataInFlight(chunk, st, lo, hi)
    ensures var r := st.receiver.seqNum;
            var t := Run(chunk, st, Deliveries(chunk, lo, hi));
            && t.provider == st.provider && st.acks <= t.acks
            && t.receiver.seqNum == (if hi > r then hi else r)
            && (t.listening <==> t.receiver.seqNum < CHUNK_DATA_NUM)
            && AcksInFlight(t, r + 1, hi)
    decreases hi - lo
  {
    if lo <= hi {
      var e := DeliverData(Packet(lo, Block(chunk, lo)));
      var s1 := Step(chunk, st, e);
      RunCons(chunk, st, e, Deliveries(chunk, lo + 1, hi));
      StepIsSafe(chunk, st, e);
      if s1.listening {
        DataPhase(chunk, s1, lo + 1, hi);
      } else {
        assert lo == hi;
      }
    }
  }

  lemma {:induction false} AckPhase(chunk: seq<Byte>, st: Session, lo: int, hi: int, clock: int -> bool)
    requires IsChunk(chunk) && Safe(chunk, st) && st.provider.Serving?
    requires var s := st.provider.s; s.acked < lo <= hi == s.sent
    requires AcksInFlight(st, lo, hi)
    ensures var t := Run(chunk, st, AckDeliveries(lo, hi, clock));
            && t.receiver == st.receiver && t.listening == st.listening
            && (hi == CHUNK_DATA_NUM ==> t.provider == FinishedByAck)
            && (hi < CHUNK_DATA_NUM ==> t.provider.Serving?)
            && (hi < CHUNK_DATA_NUM ==> t.provider.s.acked == t.provider.s.sent == hi)
    decreases hi - lo
  {
    var e := DeliverAck(lo, clock(lo));
    var s1 := Step(chunk, st, e);
    RunCons(chunk, st, e, AckDeliveries(lo + 1, hi, clock));
    StepIsSafe(chunk, st, e);
    if lo < hi {
      AckPhase(chunk, s1, lo + 1, hi, clock);
    }
  }

  lemma {:induction false} FourRuns(chunk: seq<Byte>, st: Session, a: seq<Event>, b: seq<Event>, c: seq<Event>, d: seq<Event>)
    requires IsChunk(chunk)
    ensures Run(chunk, st, a + b + c + d) == Run(chunk, Run(chunk, Run(chunk, Run(chunk, st, a), b), c), d)
  {
    RunConcat(chunk, st, a, b);
    RunConcat(chunk, st, a + b, c);
    RunConcat(chunk, st, a + b + c, d);
  }

  lemma {:induction false} SafeSender(chunk: seq<Byte>, st: Session)
    requires IsChunk(chunk) && Safe(chunk, st) && st.provider.Serving?
    ensures Inv(st.provider.s) && st.provider.s.acked <= st.receiver.seqNum && st.provider.s.acked < CHUNK_DATA_NUM
  {
  }

  lemma {:induction false} FillAndDeliver(chunk: seq<Byte>, st: Session, reach: int)
    requires IsChunk(chunk) && Safe(chunk, st) && st.provider.Serving? && st.listening
    requires var w := st.provider.s;
             w.acked == w.sent < reach == Min(w.acked + w.window, CHUNK_DATA_NUM)
    ensures var w, r := st.provider.s, st.receiver.seqNum;
            var t := Run(chunk, Run(chunk, st, Sends(reach - w.acked)), Deliveries(chunk, w.acked + 1, reach));
            && Safe(chunk, t)
            && t.provider == Serving(w.(sent := reach))
            && (t.listening <==> t.receiver.seqNum < CHUNK_DATA_NUM)
            && t.receiver.seqNum == (if reach > r then reach else r)
            && AcksInFlight(t, r + 1, reach)
  {
    hide Safe, Block, Deliveries, AcksInFlight;
    var w := st.provider.s;
    var sends := Sends(reach - w.acked);
    SafeSender(chunk, st);
    SendPhase(chunk, st, reach - w.acked);
    RunIsSafe(chunk, st, sends);
    DataPhase(chunk, Run(chunk, st, sends), w.acked + 1, reach);
    RunIsSafe(chunk, Run(chunk, st, sends), Deliveries(chunk, w.acked + 1, reach));
  }

  /** What a round makes of a session st with sender w and window end reach. */
  ghost predicate RoundEnds(st: Session, w: Sender, reach: int, t: Session)
  {
    var r := st.receiver.seqNum;
    && (t.listening <==> t.receiver.seqNum < CHUNK_DATA_NUM)
    && t.receiver.seqNum == (if reach > r then reach else r)
    && (r < reach == CHUNK_DATA_NUM ==> t.provider == FinishedByAck)
    && (r < reach < CHUNK_DATA_NUM ==> t.provider.Serving?)
    && (r < reach < CHUNK_DATA_NUM ==> t.provider.s.acked == t.provider.s.sent == reach)
    && (r >= reach ==> t.provider == Serving(w.(sent := reach)))
  }

  lemma {:induction false} LastPhase(chunk: seq<Byte>, st: Session, st3: Session, w: Sender, reach: int, clock: int -> bool)
    requires IsChunk(chunk) && Safe(chunk, st3)
    requires st3.provider == Serving(w.(sent := reach)) && w.acked <= st.receiver.seqNum
    requires st3.listening <==> st3.receiver.seqNum < CHUNK_DATA_NUM
    requires st3.receiver.seqNum == (if reach > st.receiver.seqNum then reach else st.receiver.seqNum)
    requires AcksInFlight(st3, st.receiver.seqNum + 1, reach)
    ensures RoundEnds(st, w, reach, Run(chunk, st3, AckDeliveries(st.receiver.seqNum + 1, reach, clock)))
  {
    if st.receiver.seqNum < reach {
      AckPhase(chunk, st3, st.receiver.seqNum + 1, reach, clock);
    }
  }

  /** A round whose first phase leaves the sender w, nothing outstanding, with reach as its window's end. */
  lemma {:induction false} RoundFrom(chunk: seq<Byte>, st: Session, first: seq<Event>, w: Sender, reach: int, clock: int -> bool,
                  round: seq<Event>)
    requires IsChunk(chunk) && Safe(chunk, st) && st.listening
    requires Run(chunk, st, first) == st.(provider := Serving(w))
    requires Inv(w) && w.acked == w.sent < reach == Min(w.acked + w.window, CHUNK_DATA_NUM)
    requires round == first + Sends(reach - w.acked) + Deliveries(chunk, w.acked + 1, reach)
                      + AckDeliveries(st.receiver.seqNum + 1, reach, clock)
    ensures RoundEnds(st, w, reach, Run(chunk, st, round))
  {
    RunIsSafe(chunk, st, first);
    var st1 := st.(provider := Serving(w));
    FillAndDeliver(chunk, st1, reach);
    var st3 := Run(chunk, Run(chunk, st1, Sends(reach - w.acked)), Deliveries(chunk, w.acked + 1, reach));
    LastPhase(chunk, st, st3, w, reach, clock);
    FourRuns(chunk, st, first, Sends(reach - w.acked), Deliveries(chunk, w.acked + 1, reach),
             AckDeliveries(st.receiver.seqNum + 1, reach, clock));
  }

  /** A loss-free round completes its whole window if the receiver is still short of the window's end, and
      otherwise moves nothing, because the receiver answers old packets with silence. (A sender whose window
      has room left can do without the timeout; MovableCompletes covers that.) */
  lemma {:induction false} RoundResult(chunk: seq<Byte>, st: Session, clock: int -> bool)
    requires IsChunk(chunk) && Safe(chunk, st) && st.provider.Serving? && st.listening
    ensures var s, reach := st.provider.s, Reach(st.provider.s);
            var t := Run(chunk, st, Round(chunk, st, clock));
            && s.acked < reach
            && Safe(chunk, t)
            && RoundEnds(st, AfterTimeout(s), reach, t)
  {
    var s := st.provider.s;
    ReachIsAhead(s);
    FirstPhase(chunk, st);
    RoundParts(chunk, st, clock, Reach(s));
    var round := Round(chunk, st, clock);
    RoundFrom(chunk, st, if s.sent > s.acked then [ProviderAckTimeout] else [], AfterTimeout(s), Reach(s), clock, round);
    RunIsSafe(chunk, st, round);
  }

  lemma {:induction false} RoundParts(chunk: seq<Byte>, st: Session, clock: int -> bool, reach: int)
    requires IsChunk(chunk) && Safe(chunk, st) && st.provider.Serving? && reach == Reach(st.provider.s)
    requires st.provider.s.acked < reach <= CHUNK_DATA_NUM
    ensures Round(chunk, st, clock)
         == (if st.provider.s.sent > st.provider.s.acked then [ProviderAckTimeout] else [])
            + Sends(reach - st.provider.s.acked)
            + Deliveries(chunk, st.provider.s.acked + 1, reach)
            + AckDeliveries(st.receiver.seqNum + 1, reach, clock)
  {
  }

  lemma {:induction false} ReachIsAhead(s: Sender)
    requires Inv(s) && s.acked < CHUNK_DATA_NUM
    ensures s.acked < Reach(s) <= CHUNK_DATA_NUM
    ensures Inv(AfterTimeout(s)) && AfterTimeout(s).acked == AfterTimeout(s).sent == s.acked
  {
    StepKeepsInv(s, Control.AckTimeout);
  }

  lemma {:induction false} FirstPhase(chunk: seq<Byte>, st: Session)
    requires IsChunk(chunk) && Safe(chunk, st) && st.provider.Serving?
    ensures var s := st.provider.s;
            Run(chunk, st, if s.sent > s.acked then [ProviderAckTimeout] else [])
              == st.(provider := Serving(AfterTimeout(s)))
  {
    if st.provider.s.sent > st.provider.s.acked {
      RunCons(chunk, st, ProviderAckTimeout, []);
      assert [ProviderAckTimeout] + [] == [ProviderAckTimeout];
    }
  }

  // ---------------------------------------------------------------------------------------------
  // Progress: many rounds.
  // ---------------------------------------------------------------------------------------------

  ghost function Rounds(chunk: seq<Byte>, st: Session, k: nat, clock: int -> bool): (t: Session)
    requires IsChunk(chunk) && Safe(chunk, st)
    ensures Safe(chunk, t)
    decreases k
  {
    if k == 0 then st else
      var t := Run(chunk, st, Round(chunk, st, clock));
      RunIsSafe(chunk, st, Round(chunk, st, clock));
      Rounds(chunk, t, k - 1, clock)
  }

  /** A receiver that is short of what a timeout makes the sender repeat gets its chunk within as many
      loss-free rounds as packets are missing. */
  lemma {:induction false} RoundsComplete(chunk: seq<Byte>, st: Session, k: nat, clock: int -> bool)
    requires IsChunk(chunk) && Safe(chunk, st) && st.provider.Serving? && st.listening
    requires st.receiver.seqNum < Reach(st.provider.s)
    requires k >= CHUNK_DATA_NUM - st.provider.s.acked
    ensures var t := Rounds(chunk, st, k, clock);
            t.provider == FinishedByAck && t.receiver.data == chunk
    decreases k
  {
    RoundResult(chunk, st, clock);
    var t := Run(chunk, st, Round(chunk, st, clock));
    if t.provider.Serving? {
      RoundsComplete(chunk, t, k - 1, clock);
    } else {
      FinishedStays(chunk, t, k - 1, clock);
    }
  }

  lemma {:induction false} FinishedStays(chunk: seq<Byte>, st: Session, k: nat, clock: int -> bool)
    requires IsChunk(chunk) && Safe(chunk, st) && st.provider == FinishedByAck
    ensures Rounds(chunk, st, k, clock) == st
    decreases k
  {
    if k > 0 {
      FinishedStays(chunk, st, k - 1, clock);
    }
  }

  lemma {:induction false} RoundsAreRun(chunk: seq<Byte>, st: Session, k: nat, clock: int -> bool) returns (es: seq<Event>)
    requires IsChunk(chunk) && Safe(chunk, st)
    ensures Run(chunk, st, es) == Rounds(chunk, st, k, clock)
    decreases k
  {
    es := [];
    if k > 0 {
      var round := Round(chunk, st, clock);
      RunIsSafe(chunk, st, round);
      hide Safe, Round;
      var rest := RoundsAreRun(chunk, Run(chunk, st, round), k - 1, clock);
      RunConcat(chunk, st, round, rest);
      es := round + rest;
    }
  }

  // ---------------------------------------------------------------------------------------------
  // Which sessions can complete when nothing is under way.
  // ---------------------------------------------------------------------------------------------

  /** The last packet that can be sent without an ACK. */
  function WindowEnd(s: Sender): int { Min(s.acked + s.window, CHUNK_DATA_NUM) }

  /** The receiver, which has r packets, is short of what a timeout makes the sender repeat, or short of the
      end of a window that is not yet full. */
  predicate CanMove(s: Sender, r: int)
  {
    r < Reach(s) || (s.sent < WindowEnd(s) && r < WindowEnd(s))
  }

  ghost predicate InReach(chunk: seq<Byte>, st: Session)
    requires IsChunk(chunk)
  {
    Safe(chunk, st) && st.provider.Serving? && st.listening && st.receiver.seqNum < Reach(st.provider.s)
  }

  /** A receiver that has at least what was sent: the window is filled up to the packet it expects. */
  lemma {:induction false} ProbeAhead(chunk: seq<Byte>, st: Session) returns (es: seq<Event>)
    requires IsChunk(chunk) && Safe(chunk, st) && st.provider.Serving? && st.listening
    requires st.provider.s.sent <= st.receiver.seqNum < WindowEnd(st.provider.s)
    ensures Run(chunk, st, es).provider.FinishedByAck? || InReach(chunk, Run(chunk, st, es))
  {
    var s, n := st.provider.s, st.receiver.seqNum + 1;
    var sends := Sends(n - s.sent);
    SendPhase(chunk, st, n - s.sent);
    RunIsSafe(chunk, st, sends);
    var st1 := Run(chunk, st, sends);
    assert Packet(n, Block(chunk, n)) in st1.data;
    es := sends + [DeliverData(Packet(n, Block(chunk, n))), DeliverAck(n, false)];
    RunConcat(chunk, st, sends, [DeliverData(Packet(n, Block(chunk, n))), DeliverAck(n, false)]);
    hide Sends;
    DeliverExpected(chunk, st1, n);
  }

  lemma {:induction false} RunTwo(chunk: seq<Byte>, st: Session, e: Event, e': Event)
    requires IsChunk(chunk)
    ensures Run(chunk, st, [e, e']) == Step(chunk, Step(chunk, st, e), e')
  {
    assert [e, e'] == [e] + [e'] && [e'] == [e'] + [];
    hide Step;
    RunCons(chunk, st, e, [e']);
    RunCons(chunk, Step(chunk, st, e), e', []);
  }

  lemma {:induction false} DeliverExpected(chunk: seq<Byte>, st: Session, n: int)
    requires IsChunk(chunk) && Safe(chunk, st) && st.provider.Serving? && st.listening
    requires st.provider.s.acked < n == st.provider.s.sent == st.receiver.seqNum + 1
    requires Packet(n, Block(chunk, n)) in st.data
    ensures var t := Run(chunk, st, [DeliverData(Packet(n, Block(chunk, n))), DeliverAck(n, false)]);
            t.provider.FinishedByAck? || InReach(chunk, t)
  {
    var e, e' := DeliverData(Packet(n, Block(chunk, n))), DeliverAck(n, false);
    RunTwo(chunk, st, e, e');
    StepIsSafe(chunk, st, e);
    StepIsSafe(chunk, Step(chunk, st, e), e');
    var t := Step(chunk, Step(chunk, st, e), e');
    if t.provider.Serving? { ReachIsAhead(t.provider.s); }
    hide Reach;
  }

  /** A receiver that is missing packets: one more packet makes it repeat its ACK. */
  lemma {:induction false} ProbeBehind(chunk: seq<Byte>, st: Session) returns (es: seq<Event>)
    requires IsChunk(chunk) && Safe(chunk, st) && st.provider.Serving? && st.listening
    requires st.receiver.seqNum < st.provider.s.sent < WindowEnd(st.provider.s)
    ensures Run(chunk, st, es).provider.FinishedByAck? || InReach(chunk, Run(chunk, st, es))
  {
    var s, r := st.provider.s, st.receiver.seqNum;
    if r == s.acked {
      ReachIsAhead(s);
      es := [];
    } else {
      var n := s.sent + 1;
      var st1 := Step(chunk, st, SendOne);
      StepIsSafe(chunk, st, SendOne);
      es := [SendOne] + [DeliverData(Packet(n, Block(chunk, n))), DeliverAck(r, false)];
      RunCons(chunk, st, SendOne, [DeliverData(Packet(n, Block(chunk, n))), DeliverAck(r, false)]);
      DeliverLater(chunk, st1, n);
    }
  }

  lemma {:induction false} DeliverLater(chunk: seq<Byte>, st: Session, n: int)
    requires IsChunk(chunk) && Safe(chunk, st) && st.provider.Serving? && st.listening
    requires st.provider.s.acked < st.receiver.seqNum < n - 1 && n == st.provider.s.sent
    requires Packet(n, Block(chunk, n)) in st.data
    ensures InReach(chunk, Run(chunk, st, [DeliverData(Packet(n, Block(chunk, n))), DeliverAck(st.receiver.seqNum, false)]))
  {
    var e, e' := DeliverData(Packet(n, Block(chunk, n))), DeliverAck(st.receiver.seqNum, false);
    RunTwo(chunk, st, e, e');
    StepIsSafe(chunk, st, e);
    StepIsSafe(chunk, Step(chunk, st, e), e');
    ReachIsAhead(Step(chunk, Step(chunk, st, e), e').provider.s);
    hide Reach;
  }

  /** A session that can move has a run that completes the chunk. */
  lemma {:induction false} MovableCompletes(chunk: seq<Byte>, st: Session) returns (es: seq<Event>)
    requires IsChunk(chunk) && Safe(chunk, st) && st.provider.Serving? && st.listening
    requires CanMove(st.provider.s, st.receiver.seqNum)
    ensures Run(chunk, st, es).provider.FinishedByAck?
  {
    var first := [];
    if st.receiver.seqNum >= Reach(st.provider.s) {
      if st.provider.s.sent <= st.receiver.seqNum {
        first := ProbeAhead(chunk, st);
      } else {
        first := ProbeBehind(chunk, st);
      }
    }
    hide Safe, Reach;
    var st1 := Run(chunk, st, first);
    es := first;
    if !st1.provider.FinishedByAck? {
      InReachCompletes(chunk, st1);
      var rest := RoundsAreRun(chunk, st1, CHUNK_DATA_NUM, _ => false);
      RunConcat(chunk, st, first, rest);
      es := first + rest;
    }
  }

  lemma {:induction false} InReachCompletes(chunk: seq<Byte>, st: Session)
    requires IsChunk(chunk) && InReach(chunk, st)
    ensures Safe(chunk, st) && Rounds(chunk, st, CHUNK_DATA_NUM, _ => false).provider.FinishedByAck?
  {
    RoundsComplete(chunk, st, CHUNK_DATA_NUM, _ => false);
  }

  /** Nothing under way is news to either end, and the session cannot move: a is what the provider has got
      acknowledged. */
  ghost predicate Stuck(chunk: seq<Byte>, st: Session, a: int)
    requires IsChunk(chunk)
  {
    && Safe(chunk, st)
    && st.acks == {} && !st.provider.FinishedByAck?
    && (st.listening ==> forall p | p in st.data :: p.seqNum <= st.receiver.seqNum)
    && (st.provider.Serving? ==> st.provider.s.acked == a)
    && (st.provider.Serving? && st.listening ==> !CanMove(st.provider.s, st.receiver.seqNum))
  }

  lemma {:induction false} LossKeepsStuck(s: Sender, r: int)
    requires Inv(s) && s.acked < CHUNK_DATA_NUM
    ensures Lose(s).acked == s.acked && (!CanMove(s, r) ==> !CanMove(Lose(s), r))
  {
  }

  lemma {:induction false} SendKeepsStuck(s: Sender, r: int)
    requires Inv(s) && s.acked < CHUNK_DATA_NUM
    ensures var (t, result) := OnSend(s);
            t.acked == s.acked && (!CanMove(s, r) ==> !CanMove(t, r) && (result.Sent? ==> result.seqNum <= r))
  {
  }

  lemma {:induction false} StepKeepsStuck(chunk: seq<Byte>, st: Session, e: Event, a: int)
    requires IsChunk(chunk) && Stuck(chunk, st, a)
    ensures Stuck(chunk, Step(chunk, st, e), a) && Step(chunk, st, e).receiver == st.receiver
  {
    hide Safe, CanMove, Block, Inv, Lose;
    StepIsSafe(chunk, st, e);
    if st.provider.Serving? {
      SafeSender(chunk, st);
      LossKeepsStuck(st.provider.s, st.receiver.seqNum);
      SendKeepsStuck(st.provider.s, st.receiver.seqNum);
    }
  }

  /** However the run goes on, with timeouts, losses and repetitions, neither end gets anywhere. */
  lemma {:induction false} StallIsForever(chunk: seq<Byte>, st: Session, es: seq<Event>, a: int)
    requires IsChunk(chunk) && Stuck(chunk, st, a)
    ensures var t := Run(chunk, st, es);
            && !t.provider.FinishedByAck? && t.receiver == st.receiver
            && (t.provider.Serving? ==> t.provider.s.acked == a)
    decreases |es|
  {
    if es != [] {
      StepKeepsStuck(chunk, st, es[0], a);
      hide Stuck, Step;
      StallIsForever(chunk, Step(chunk, st, es[0]), es[1..], a);
    }
  }

  /** The same session with everything that is under way lost. */
  function Emptied(st: Session): Session { st.(data := {}, acks := {}) }

  ghost predicate CanComplete(chunk: seq<Byte>, st: Session)
    requires IsChunk(chunk)
  {
    exists es :: Run(chunk, st, es).provider.FinishedByAck?
  }

  /** The exact condition, over all runs: a session with nothing under way can complete its chunk if and only
      if the receiver still listens and is short of a packet that the sender can still reach. */
  lemma {:induction false} CompletesIffCanMove(chunk: seq<Byte>, st: Session)
    requires IsChunk(chunk) && Safe(chunk, st) && st.provider.Serving?
    ensures CanComplete(chunk, Emptied(st)) <==> st.listening && CanMove(st.provider.s, st.receiver.seqNum)
  {
    var st0 := Emptied(st);
    if st.listening && CanMove(st.provider.s, st.receiver.seqNum) {
      var es := MovableCompletes(chunk, st0);
    } else {
      assert Stuck(chunk, st0, st.provider.s.acked);
      hide Safe, Stuck, CanMove;
      forall es
        ensures !Run(chunk, st0, es).provider.FinishedByAck?
      {
        StallIsForever(chunk, st0, es, st.provider.s.acked);
      }
    }
  }

  /** The dead end is two events away from the start: when the first ACK is lost, no run completes the chunk,
      although every later packet may arrive. */
  lemma {:induction false} FirstAckLostStalls(chunk: seq<Byte>, es: seq<Event>)
    requires IsChunk(chunk)
    ensures var st := Run(chunk, START, [SendOne, DeliverData(Packet(1, Block(chunk, 1)))]);
            var t := Run(chunk, st.(acks := {}), es);
            && st.receiver.seqNum == 1 && st.acks == {1}
            && !t.provider.FinishedByAck? && t.receiver.seqNum == 1
            && (t.provider.Serving? ==> t.provider.s.acked == 0)
  {
    var e := DeliverData(Packet(1, Block(chunk, 1)));
    RunTwo(chunk, START, SendOne, e);
    EveryRunIsSafe(chunk, [SendOne, e]);
    NextBlock(chunk, 0);
    var st := Run(chunk, START, [SendOne, e]);
    assert st.provider == Serving(FRESH.(sent := 1)) && st.receiver.seqNum == 1 && st.listening;
    assert Stuck(chunk, st.(acks := {}), 0);
    hide Stuck, Safe, Run;
    StallIsForever(chunk, st.(acks := {}), es, 0);
  }
}
