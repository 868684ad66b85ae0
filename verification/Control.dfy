/** The sending window of a data provider: control.c, and send_data_packet of connection.c. */
module Control {

  const CHUNK_DATA_NUM := 512

  const DUPLICATE_ACK_NUM := 3

  const DEFAULT_SLOW_START_THRESHOLD := 64

  const SLOW_START_INIT_WINDOW_SIZE := 1

  datatype Status = SlowStart | CongestionAvoidance

  /** The fields of a provider connection that the window depends on. */
  datatype Sender = Sender(ssthresh: int, window: int, status: Status, duplicates: int, acked: int, sent: int)

  const FRESH := Sender(DEFAULT_SLOW_START_THRESHOLD, SLOW_START_INIT_WINDOW_SIZE, SlowStart, 0, 0, 0)

  /** What one call of send_data_packet does. */
  datatype SendResult = WindowFull | WindowError | AllSent | Sent(seqNum: int)

  // ---------------------------------------------------------------------------------------------
  // The functions of control.c on values.
  // ---------------------------------------------------------------------------------------------

  function ChangeStatus(s: Sender): Sender
  {
    s.(status := if s.window >= s.ssthresh then CongestionAvoidance else SlowStart)
  }

  function Halved(window: int): int
  {
    if window / 2 > 2 then window / 2 else 2
  }

  /** rttElapsed stands for the comparison of the clock with the RTT in congestion_control_increase. */
  function ScaleUp(s: Sender, rttElapsed: bool): Sender
  {
    match s.status
    case SlowStart => ChangeStatus(s.(window := 1 + s.window))
    case CongestionAvoidance => if rttElapsed then s.(window := 1 + s.window) else s
  }

  function ScaleDown(s: Sender): Sender
  {
    match s.status
    case SlowStart => ChangeStatus(s.(ssthresh := Halved(s.window)))
    case CongestionAvoidance =>
      ChangeStatus(s.(ssthresh := Halved(s.window), window := SLOW_START_INIT_WINDOW_SIZE))
  }

  function Lose(s: Sender): Sender
  {
    var t := ScaleDown(s);
    t.(sent := t.acked)
  }

  function OnAck(s: Sender, n: int, rttElapsed: bool): Sender
  {
    if n < s.acked || n > s.sent then s
    else if n == s.acked then
      if 1 + s.duplicates >= DUPLICATE_ACK_NUM then Lose(s.(duplicates := 0))
      else s.(duplicates := 1 + s.duplicates)
    else
      ScaleUp(s.(duplicates := 1, acked := n), rttElapsed)
  }

  function OnSend(s: Sender): (Sender, SendResult)
  {
    var pending := s.sent - s.acked;
    if pending == s.window then (s, WindowFull)
    else if pending > s.window then (s, WindowError)
    else if s.sent == CHUNK_DATA_NUM then (s, AllSent)
    else (s.(sent := s.sent + 1), Sent(s.sent + 1))
  }

  // ---------------------------------------------------------------------------------------------
  // Runs.
  // ---------------------------------------------------------------------------------------------

  /** AckTimeout is the branch of provider_control_by_timeout that both clocks must allow. */
  datatype Event = Ack(n: int, rttElapsed: bool) | AckTimeout | Send

  function Step(s: Sender, e: Event): Sender
  {
    match e
    case Ack(n, rttElapsed) => OnAck(s, n, rttElapsed)
    case AckTimeout => Lose(s)
    case Send => OnSend(s).0
  }

  function Run(s: Sender, es: seq<Event>): Sender
  {
    if es == [] then s else Step(Run(s, es[..|es| - 1]), es[|es| - 1])
  }

  /** The whole-run invariant. window <= acked + 1 is what makes sent <= 2 * acked + 1. */
  ghost predicate Inv(s: Sender)
  {
    && 0 <= s.acked <= s.sent <= CHUNK_DATA_NUM
    && s.sent - s.acked <= s.window
    && 1 <= s.window <= s.acked + 1
    && s.ssthresh >= 2
    && (s.status == CongestionAvoidance <==> s.window >= s.ssthresh)
    && 0 <= s.duplicates < DUPLICATE_ACK_NUM
  }

  lemma {:induction false} StepKeepsInv(s: Sender, e: Event)
    requires Inv(s)
    ensures Inv(Step(s, e))
    ensures Step(s, e).acked >= s.acked
    ensures !OnSend(s).1.WindowError?
  {
  }

  /** Every run of a new connection: the invariant, and the error branch of send_data_packet is dead. */
  lemma {:induction false} RunInvariant(es: seq<Event>)
    ensures var s := Run(FRESH, es);
            && Inv(s)
            && s.sent <= 2 * s.acked + 1
            && !OnSend(s).1.WindowError?
  {
    if es != [] {
      RunInvariant(es[..|es| - 1]);
      StepKeepsInv(Run(FRESH, es[..|es| - 1]), es[|es| - 1]);
    }
  }

  lemma {:induction false} RunKeepsInv(s: Sender, es: seq<Event>)
    requires Inv(s)
    ensures Inv(Run(s, es)) && Run(s, es).acked >= s.acked
  {
    if es != [] {
      RunKeepsInv(s, es[..|es| - 1]);
      StepKeepsInv(Run(s, es[..|es| - 1]), es[|es| - 1]);
    }
  }

  // ---------------------------------------------------------------------------------------------
  // What the window remembers of a run.
  // ---------------------------------------------------------------------------------------------

  /** An ACK that moves the window forward. */
  predicate Accepts(s: Sender, e: Event)
  {
    e.Ack? && s.acked < e.n <= s.sent
  }

  /** An event that is taken for a lost packet: a timeout, or the ACK that completes three duplicates. */
  predicate DetectsLoss(s: Sender, e: Event)
  {
    || e.AckTimeout?
    || (e.Ack? && e.n == s.acked && s.duplicates == DUPLICATE_ACK_NUM - 1)
  }

  /** A loss detected in congestion avoidance throws the window back to its initial size. */
  predicate Collapses(s: Sender, e: Event)
  {
    DetectsLoss(s, e) && s.status == CongestionAvoidance
  }

  /** The accepted ACKs that were allowed to widen the window, since the last collapse. */
  function Widenings(es: seq<Event>): nat
  {
    if es == [] then 0 else
      var s, e := Run(FRESH, es[..|es| - 1]), es[|es| - 1];
      if Collapses(s, e) then 0
      else Widenings(es[..|es| - 1])
           + if Accepts(s, e) && (s.status == SlowStart || e.rttElapsed) then 1 else 0
  }

  /** The highest ACK at the last collapse, or 0. */
  function AckedAtCollapse(es: seq<Event>): int
  {
    if es == [] then 0 else
      var s, e := Run(FRESH, es[..|es| - 1]), es[|es| - 1];
      if Collapses(s, e) then s.acked else AckedAtCollapse(es[..|es| - 1])
  }

  /** The window is exactly one plus the widenings since the last collapse, never more than the progress since. */
  lemma {:induction false} WindowHistory(es: seq<Event>)
    ensures var s := Run(FRESH, es);
            s.window == 1 + Widenings(es) <= 1 + s.acked - AckedAtCollapse(es)
  {
    if es != [] {
      var init, e := es[..|es| - 1], es[|es| - 1];
      RunInvariant(init);
      WindowHistory(init);
    }
  }

  /** Unlike section 3.1 of RFC 5681, a loss in slow start leaves the window alone. */
  lemma {:induction false} LossEffect(s: Sender, e: Event)
    requires Inv(s) && DetectsLoss(s, e)
    ensures var t := Step(s, e);
            && t.sent == t.acked == s.acked
            && t.window == (if s.status == SlowStart then s.window else 1)
            && t.ssthresh == (if s.window >= 6 then s.window / 2 else 2)
            && (s.status == SlowStart ==> t.ssthresh <= s.ssthresh)
            && (t.status == SlowStart <==> t.window == 1)
  {
  }

  /** The sender after a run of events none of which is an accepted ACK. */
  lemma {:induction false} WindowOnlyShrinksWithoutAcks(s: Sender, es: seq<Event>)
    requires Inv(s)
    requires forall i | 0 <= i < |es| :: !Accepts(Run(s, es[..i]), es[i])
    ensures Run(s, es).window <= s.window && Run(s, es).acked == s.acked
  {
    if es != [] {
      var init, e := es[..|es| - 1], es[|es| - 1];
      forall i | 0 <= i < |init|
        ensures !Accepts(Run(s, init[..i]), init[i])
      {
        assert es[..i] == init[..i];
      }
      WindowOnlyShrinksWithoutAcks(s, init);
      RunKeepsInv(s, init);
      assert !Accepts(Run(s, es[..|es| - 1]), es[|es| - 1]);
      hide Inv, Accepts, Step;
      ShrinksWithoutAck(Run(s, init), e);
    }
  }

  lemma {:induction false} ShrinksWithoutAck(s: Sender, e: Event)
    requires Inv(s) && !Accepts(s, e)
    ensures Step(s, e).window <= s.window && Step(s, e).acked == s.acked
  {
  }

  /** Two losses with no accepted ACK in between bring the window to 1 and the connection to slow start. */
  lemma {:induction false} TwoLossesCollapse(s: Sender, first: Event, between: seq<Event>, last: Event)
    requires Inv(s)
    requires DetectsLoss(s, first)
    requires forall i | 0 <= i < |between| :: !Accepts(Run(Step(s, first), between[..i]), between[i])
    requires DetectsLoss(Run(Step(s, first), between), last)
    ensures var t := Step(Run(Step(s, first), between), last);
            t.window == 1 && t.status == SlowStart
  {
    var s1 := Step(s, first);
    StepKeepsInv(s, first);
    RunKeepsInv(s1, between);
    LossEffect(s, first);
    WindowOnlyShrinksWithoutAcks(s1, between);
    var s2 := Run(s1, between);
    LossEffect(s2, last);
    if s1.window > 1 && s2.status == SlowStart {
      StaysInAvoidance(s1, between);
    }
  }

  /** Without accepted ACKs a connection leaves congestion avoidance only through a collapse. */
  lemma {:induction false} StaysInAvoidance(s: Sender, es: seq<Event>)
    requires Inv(s) && s.status == CongestionAvoidance
    requires forall i | 0 <= i < |es| :: !Accepts(Run(s, es[..i]), es[i])
    ensures Run(s, es).status == SlowStart ==> Run(s, es).window == 1
  {
    if es != [] {
      var init, e := es[..|es| - 1], es[|es| - 1];
      forall i | 0 <= i < |init|
        ensures !Accepts(Run(s, init[..i]), init[i])
      {
        assert es[..i] == init[..i];
      }
      StaysInAvoidance(s, init);
      RunKeepsInv(s, init);
      assert !Accepts(Run(s, es[..|es| - 1]), es[|es| - 1]);
    }
  }

  function Repeated(n: int, k: nat): seq<Event>
  {
    if k == 0 then [] else Repeated(n, k - 1) + [Ack(n, false)]
  }

  /** How many of k further copies of the current ACK trigger a retransmission. */
  function Retransmissions(s: Sender, k: nat): nat
  {
    if k == 0 then 0 else
      Retransmissions(s, k - 1)
      + if DetectsLoss(Run(s, Repeated(s.acked, k - 1)), Ack(s.acked, false)) then 1 else 0
  }

  lemma {:induction false} EveryThirdDuplicateRetransmits(s: Sender, k: nat)
    requires Inv(s)
    ensures Retransmissions(s, k) == (s.duplicates + k) / DUPLICATE_ACK_NUM
    ensures var t := Run(s, Repeated(s.acked, k));
            t.acked == s.acked && t.duplicates == (s.duplicates + k) % DUPLICATE_ACK_NUM
    decreases k
  {
    if k == 0 {
      assert s.duplicates / DUPLICATE_ACK_NUM == 0;
    } else {
      hide Step, Inv, DetectsLoss, Run;
      EveryThirdDuplicateRetransmits(s, k - 1);
      RunKeepsInv(s, Repeated(s.acked, k - 1));
      RunRepeated(s, s.acked, k);
      NextThird(s, k - 1);
      hide Repeated;
      DuplicateStep(Run(s, Repeated(s.acked, k - 1)));
    }
  }

  /** After an accepted ACK, which itself counts as the first copy, every third copy does. */
  lemma {:induction false} AcceptedAckIsFirstCopy(s: Sender, e: Event, k: nat)
    requires Inv(s) && Accepts(s, e)
    ensures Retransmissions(Step(s, e), k) == (1 + k) / DUPLICATE_ACK_NUM
  {
    StepKeepsInv(s, e);
    EveryThirdDuplicateRetransmits(Step(s, e), k);
  }

  /** The copies of the current ACK that a run has brought, the one that made it current included. */
  function Copies(es: seq<Event>): nat
  {
    if es == [] then 0 else
      var s, e := Run(FRESH, es[..|es| - 1]), es[|es| - 1];
      if Accepts(s, e) then 1
      else Copies(es[..|es| - 1]) + if e.Ack? && e.n == s.acked then 1 else 0
  }

  /** Over every run: a copy of the current ACK is taken for a lost packet exactly when it is the third since
      the ACK became current, or the third since the one that was last taken so. Timeouts, packets sent and
      ACKs outside the window do not touch the count. */
  lemma {:induction false} DuplicatesCountCopies(es: seq<Event>)
    ensures Run(FRESH, es).duplicates == Copies(es) % DUPLICATE_ACK_NUM
    ensures forall rttElapsed :: DetectsLoss(Run(FRESH, es), Ack(Run(FRESH, es).acked, rttElapsed)) <==>
              (Copies(es) + 1) % DUPLICATE_ACK_NUM == 0
  {
    if es != [] {
      DuplicatesCountCopies(es[..|es| - 1]);
      RunInvariant(es[..|es| - 1]);
    }
  }

  lemma {:induction false} NextThird(s: Sender, k: nat)
    requires Inv(s)
    ensures var n := s.duplicates + k;
            && (n + 1) / DUPLICATE_ACK_NUM == n / DUPLICATE_ACK_NUM + (if n % DUPLICATE_ACK_NUM == 2 then 1 else 0)
            && (n + 1) % DUPLICATE_ACK_NUM == if n % DUPLICATE_ACK_NUM == 2 then 0 else n % DUPLICATE_ACK_NUM + 1
  {
  }

  lemma {:induction false} DuplicateStep(s: Sender)
    requires Inv(s)
    ensures var e := Ack(s.acked, false);
            && Step(s, e).acked == s.acked
            && (DetectsLoss(s, e) <==> s.duplicates == 2)
            && Step(s, e).duplicates == (if s.duplicates == 2 then 0 else s.duplicates + 1)
  {
  }

  lemma {:induction false} RunRepeated(s: Sender, n: int, k: nat)
    requires k > 0
    ensures Run(s, Repeated(n, k)) == Step(Run(s, Repeated(n, k - 1)), Ack(n, false))
  {
    var es := Repeated(n, k);
    assert es[..|es| - 1] == Repeated(n, k - 1);
  }

  // ---------------------------------------------------------------------------------------------
  // The code.
  // ---------------------------------------------------------------------------------------------

  class ProviderConnection {
    var ssthresh: int
    var windowSize: int
    var status: Status
    var numDuplicateAck: int
    var lastPacketAcked: int
    var lastPacketSent: int

    ghost function Value(): Sender
      reads this
    {
      Sender(ssthresh, windowSize, status, numDuplicateAck, lastPacketAcked, lastPacketSent)
    }

    /** malloc_provider_connection and init_provider_connection. */
    constructor ()
      ensures Value() == FRESH
    {
      ssthresh := DEFAULT_SLOW_START_THRESHOLD;
      windowSize := SLOW_START_INIT_WINDOW_SIZE;
      status := SlowStart;
      numDuplicateAck := 0;
      lastPacketAcked := 0;
      lastPacketSent := 0;
    }

    method ChangeConnectionStatus()
      modifies this`status
      ensures Value() == ChangeStatus(old(Value()))
    {
      if windowSize >= ssthresh {
        status := CongestionAvoidance;
      } else {
        status := SlowStart;
      }
    }

    method ConnectionScaleUp(rttElapsed: bool)
      modifies this
      ensures Value() == ScaleUp(old(Value()), rttElapsed)
    {
      if status == SlowStart {
        // slow_start_increase
        windowSize := 1 + windowSize;
        ChangeConnectionStatus();
      } else if status == CongestionAvoidance {
        // congestion_control_increase
        if rttElapsed {
          windowSize := 1 + windowSize;
        }
      }
    }

    method ConnectionScaleDown()
      modifies this
      ensures Value() == ScaleDown(old(Value()))
    {
      if status == SlowStart {
        // slow_start_decrease
        ssthresh := if windowSize / 2 > 2 then windowSize / 2 else 2;
        ChangeConnectionStatus();
      } else if status == CongestionAvoidance {
        // congestion_control_decrease
        ssthresh := if windowSize / 2 > 2 then windowSize / 2 else 2;
        windowSize := SLOW_START_INIT_WINDOW_SIZE;
        ChangeConnectionStatus();
      }
    }

    method ResetSenderBuffer()
      modifies this`lastPacketSent
      ensures Value() == old(Value()).(sent := old(lastPacketAcked))
    {
      lastPacketSent := lastPacketAcked;
    }

    /** provider_control_by_ack. */
    method ControlByAck(ackNumber: int, rttElapsed: bool)
      modifies this
      ensures Value() == OnAck(old(Value()), ackNumber, rttElapsed)
    {
      if ackNumber < lastPacketAcked {
        return;
      } else if ackNumber > lastPacketSent {
        return;
      }
      if ackNumber == lastPacketAcked {
        numDuplicateAck := 1 + numDuplicateAck;
        if numDuplicateAck >= DUPLICATE_ACK_NUM {
          numDuplicateAck := 0;
          ConnectionScaleDown();
          ResetSenderBuffer();
        }
      } else {
        numDuplicateAck := 1;
        lastPacketAcked := ackNumber;
        ConnectionScaleUp(rttElapsed);
      }
    }

    /** provider_control_by_timeout: the result says that the peer is taken for crashed and the connection
        is to be removed; the three flags stand for the three clock comparisons. */
    method ControlByTimeout(crashTimeout: bool, ackTimeout: bool, dataTimeout: bool) returns (crashed: bool)
      modifies this
      ensures crashed == crashTimeout
      ensures Value() == if !crashTimeout && ackTimeout && dataTimeout then Lose(old(Value())) else old(Value())
    {
      if crashTimeout {
        return true;
      }
      if ackTimeout {
        if dataTimeout {
          ConnectionScaleDown();
          ResetSenderBuffer();
        }
      }
      return false;
    }

    method SendDataPacket() returns (r: SendResult)
      modifies this`lastPacketSent
      ensures (Value(), r) == OnSend(old(Value()))
    {
      var pending := lastPacketSent - lastPacketAcked;
      if pending == windowSize {
        return WindowFull;
      }
      if pending > windowSize {
        return WindowError;
      }
      if lastPacketSent == CHUNK_DATA_NUM {
        return AllSent;
      }
      lastPacketSent := lastPacketSent + 1;
      return Sent(lastPacketSent);
    }
  }
}
