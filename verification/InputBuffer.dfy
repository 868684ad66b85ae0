/** Cutting terminal input into lines in place: input_buffer.c. */
module InputBuffer {

  const USERBUF_SIZE := 8191

  const TWO_TO_32 := 0x1_0000_0000

  const NUL := '\0'

  // ---------------------------------------------------------------------------------------------
  // What lines are.
  // ---------------------------------------------------------------------------------------------

  function NewlineFrom(s: string, i: nat): (k: int)
    requires i <= |s|
    ensures k == -1 || i <= k < |s|
    ensures k >= 0 ==> s[k] == '\n' && forall j | i <= j < k :: s[j] != '\n'
    ensures k == -1 ==> forall j | i <= j < |s| :: s[j] != '\n'
    decreases |s| - i
  {
    if i == |s| then -1 else if s[i] == '\n' then i else NewlineFrom(s, i + 1)
  }

  function FirstNewline(s: string): (k: int)
    ensures -1 <= k < |s|
  {
    NewlineFrom(s, 0)
  }

  /** The newline-terminated segments of a stream, in order, without their newlines. */
  function Lines(s: string): seq<string>
    decreases |s|
  {
    var k := FirstNewline(s);
    if k == -1 then [] else [s[..k]] + Lines(s[k + 1..])
  }

  /** What follows the last newline. */
  function Rest(s: string): (r: string)
    ensures |r| <= |s|
    decreases |s|
  {
    var k := FirstNewline(s);
    if k == -1 then s else Rest(s[k + 1..])
  }

  lemma {:induction false} FirstNewlineIs(s: string, k: nat)
    requires k < |s| && s[k] == '\n' && forall i | 0 <= i < k :: s[i] != '\n'
    ensures FirstNewline(s) == k
  {
  }

  lemma {:induction false} LinesStep(s: string, k: nat)
    requires k < |s| && s[k] == '\n' && forall i | 0 <= i < k :: s[i] != '\n'
    ensures Lines(s) == [s[..k]] + Lines(s[k + 1..]) && Rest(s) == Rest(s[k + 1..])
  {
    LinesUnfold(s);
    FirstNewlineIs(s, k);
  }

  lemma {:induction false} LinesUnfold(s: string)
    requires FirstNewline(s) >= 0
    ensures var k := FirstNewline(s);
            Lines(s) == [s[..k]] + Lines(s[k + 1..]) && Rest(s) == Rest(s[k + 1..])
  {
  }

  lemma {:induction false} LinesOfConcat(x: string, y: string)
    ensures Lines(x + y) == Lines(x) + Lines(Rest(x) + y)
    ensures Rest(x + y) == Rest(Rest(x) + y)
    decreases |x|
  {
    var k := FirstNewline(x);
    if k >= 0 {
      LinesOfConcat(x[k + 1..], y);
      PrependLine(x, y, k);
    } else {
      PrependUnfinished(x, y);
    }
  }

  lemma {:induction false} PrependUnfinished(x: string, y: string)
    requires FirstNewline(x) == -1
    ensures Lines(x + y) == Lines(x) + Lines(Rest(x) + y)
    ensures Rest(x + y) == Rest(Rest(x) + y)
  {
    assert [] + Lines(x + y) == Lines(x + y);
  }

  lemma {:induction false} PrependLine(x: string, y: string, k: nat)
    requires k < |x| && x[k] == '\n' && forall i | 0 <= i < k :: x[i] != '\n'
    requires Lines(x[k + 1..] + y) == Lines(x[k + 1..]) + Lines(Rest(x[k + 1..]) + y)
    requires Rest(x[k + 1..] + y) == Rest(Rest(x[k + 1..]) + y)
    ensures Lines(x + y) == Lines(x) + Lines(Rest(x) + y)
    ensures Rest(x + y) == Rest(Rest(x) + y)
  {
    LinesStep(x, k);
    LinesStep(x + y, k);
    SameTail(x, y, k);
    Associative([x[..k]], Lines(x[k + 1..]), Lines(Rest(x[k + 1..]) + y));
  }

  lemma {:induction false} Associative<T>(a: seq<T>, b: seq<T>, c: seq<T>)
    ensures a + (b + c) == a + b + c
  {
  }

  lemma {:induction false} SameTail(x: string, y: string, k: nat)
    requires k < |x|
    ensures (x + y)[k + 1..] == x[k + 1..] + y && (x + y)[..k] == x[..k]
  {
  }

  // ---------------------------------------------------------------------------------------------
  // The buffer as memory.
  // ---------------------------------------------------------------------------------------------

  /** All 8192 bytes; the last one is never written and ends every string. */
  ghost predicate IsBuffer(b: string) { |b| == USERBUF_SIZE + 1 && b[USERBUF_SIZE] == NUL }

  function NulFrom(b: string, i: nat): (z: nat)
    requires i <= |b|
    ensures i <= z <= |b| && (z < |b| ==> b[z] == NUL) && forall j | i <= j < z :: b[j] != NUL
    decreases |b| - i
  {
    if i == |b| || b[i] == NUL then i else NulFrom(b, i + 1)
  }

  function StrchrFrom(b: string, i: nat): (k: int)
    requires i <= |b|
    ensures k == -1 || i <= k < |b|
    ensures k >= 0 ==> b[k] == '\n' && forall j | i <= j < k :: b[j] != '\n' && b[j] != NUL
    ensures k == -1 ==> forall j | i <= j < NulFrom(b, i) :: b[j] != '\n'
    decreases |b| - i
  {
    if i == |b| || b[i] == NUL then -1 else if b[i] == '\n' then i else StrchrFrom(b, i + 1)
  }

  /** The length of the string at b. */
  function FirstNul(b: string): nat { NulFrom(b, 0) }

  /** strchr(b, newline) as an index, or -1. */
  function Strchr(b: string): (k: int)
    ensures -1 <= k < |b|
  {
    StrchrFrom(b, 0)
  }

  /** The newline at k overwritten and the memory behind it moved to the front: the last k + 1 bytes stay. */
  function Shifted(b: string, k: nat): (r: string)
    requires IsBuffer(b) && k < USERBUF_SIZE
    ensures |r| == USERBUF_SIZE + 1
  {
    var b' := b[k := NUL];
    b'[k + 1..] + b'[USERBUF_SIZE - k..]
  }

  /** What one call makes of the memory after its read: the lines handed out, the memory left and the number
      of bytes that cur goes down by. */
  datatype Drained = Drained(lines: seq<string>, memory: string, consumed: nat)

  function Drain(b: string): (r: Drained)
    requires IsBuffer(b)
    ensures IsBuffer(r.memory) && r.consumed <= FirstNul(b)
    decreases FirstNul(b)
  {
    var k := Strchr(b);
    if k == -1 then Drained([], b, 0) else
      ShiftShortens(b, k);
      var r := Drain(Shifted(b, k));
      var all: nat := k + 1 + r.consumed;
      assert all <= FirstNul(b);
      Drained([b[..k]] + r.lines, r.memory, all)
  }

  lemma {:induction false} ShiftShortens(b: string, k: nat)
    requires IsBuffer(b) && k == Strchr(b)
    ensures k < USERBUF_SIZE && IsBuffer(Shifted(b, k)) && FirstNul(Shifted(b, k)) + k + 1 <= FirstNul(b)
  {
    var z := FirstNul(b);
    assert k < z;
    assert Shifted(b, k)[z - k - 1] == NUL;
  }

  // ---------------------------------------------------------------------------------------------
  // When the memory behind cur is clean, the lines are the lines of the stream.
  // ---------------------------------------------------------------------------------------------

  ghost predicate NulFree(s: string) { forall i | 0 <= i < |s| :: s[i] != NUL }

  /** The unread bytes, then NULs to the end of the buffer. */
  function Clean(live: string): (b: string)
    requires |live| <= USERBUF_SIZE
    ensures IsBuffer(b)
    ensures forall i | 0 <= i < |live| :: b[i] == live[i]
    ensures forall i | |live| <= i <= USERBUF_SIZE :: b[i] == NUL
  {
    live + seq(USERBUF_SIZE + 1 - |live|, _ => NUL)
  }

  /** A line of k bytes and a later newline at j fit together when memmove moves that newline out of the bytes
      it leaves alone; so for every line and every later newline. */
  ghost predicate GapsFit(live: string)
    decreases |live|
  {
    var k := FirstNewline(live);
    k == -1 || (!Misfit(live, k) && GapsFit(live[k + 1..]))
  }

  ghost predicate Misfit(live: string, k: nat) { exists j :: k < j < |live| && live[j] == '\n' && j + k >= USERBUF_SIZE }

  /** The buffer starts with the bytes of live. */
  ghost predicate Holds(b: string, live: string)
  {
    IsBuffer(b) && |live| <= USERBUF_SIZE && forall i | 0 <= i < |live| :: b[i] == live[i]
  }

  ghost predicate NewlineBehind(b: string, n: nat) { exists i :: n <= i < |b| && b[i] == '\n' }

  lemma {:induction false} StrchrIs(b: string, k: nat)
    requires k < |b| && b[k] == '\n' && forall i | 0 <= i < k :: b[i] != '\n' && b[i] != NUL
    ensures Strchr(b) == k
  {
  }

  lemma {:induction false} StrchrFails(b: string, z: nat)
    requires z < |b| && b[z] == NUL && forall i | 0 <= i < z :: b[i] != '\n'
    ensures Strchr(b) == -1
  {
  }

  /** With no newline behind the live bytes strchr finds what it should; otherwise it may find more. */
  lemma {:induction false} StrchrOfLive(b: string, live: string)
    requires Holds(b, live) && NulFree(live)
    ensures FirstNewline(live) >= 0 ==> Strchr(b) == FirstNewline(live)
    ensures FirstNewline(live) == -1 && !NewlineBehind(b, |live|) ==> Strchr(b) == -1
  {
    if FirstNewline(live) >= 0 {
      StrchrIs(b, FirstNewline(live));
    } else if !NewlineBehind(b, |live|) {
      StrchrFails(b, USERBUF_SIZE);
    }
  }

  lemma {:induction false} SameBuffer(a: string, b: string)
    requires |a| == |b| && forall i | 0 <= i < |a| :: a[i] == b[i]
    ensures a == b
  {
  }

  lemma {:induction false} ShiftedAt(b: string, k: nat)
    requires IsBuffer(b) && k < USERBUF_SIZE
    ensures var r, b' := Shifted(b, k), b[k := NUL];
            && (forall i | 0 <= i < USERBUF_SIZE - k :: r[i] == b'[k + 1 + i])
            && (forall i | USERBUF_SIZE - k <= i <= USERBUF_SIZE :: r[i] == b'[i])
  {
  }

  /** What one line leaves: the bytes after it, and a newline behind them if there was one behind before or
      if the line and a later newline do not fit together. */
  lemma {:induction false} ShiftLeaves(b: string, live: string, k: nat)
    requires Holds(b, live) && k < |live| && k == FirstNewline(live)
    ensures Holds(Shifted(b, k), live[k + 1..])
    ensures NewlineBehind(Shifted(b, k), |live| - k - 1) <==>
              NewlineBehind(b, |live|) || Misfit(live, k)
  {
    ShiftedAt(b, k);
    var r := Shifted(b, k);
    if i :| |live| <= i < |b| && b[i] == '\n' {
      assert i < USERBUF_SIZE && r[i - k - 1] == '\n';
    }
    if j :| k < j < |live| && live[j] == '\n' && j + k >= USERBUF_SIZE {
      assert r[j] == b[j];
    }
    if i :| |live| - k - 1 <= i < |r| && r[i] == '\n' {
      if i < USERBUF_SIZE - k {
        assert b[i + k + 1] == '\n';
      } else {
        assert b[i] == '\n';
      }
    }
  }

  lemma {:induction false} NothingDrained(b: string, live: string)
    requires Holds(b, live) && FirstNewline(live) == -1
    ensures Lines(live) == [] && Rest(live) == live && GapsFit(live)
    ensures Strchr(b) == -1 ==> Drain(b) == Drained([], b, 0)
    ensures Strchr(b) != -1 ==> Drain(b).lines != []
  {
    if Strchr(b) != -1 { DrainStep(b, Strchr(b)); }
  }

  lemma {:induction false} GapsUnfold(live: string)
    requires FirstNewline(live) >= 0
    ensures FirstNewline(live) < |live|
    ensures GapsFit(live) <==> !Misfit(live, FirstNewline(live)) && GapsFit(live[FirstNewline(live) + 1..])
  {
  }

  /** One turn of the loop in terms of the live bytes. */
  lemma {:induction false} OneLineDrained(b: string, live: string, k: nat)
    requires Holds(b, live) && NulFree(live) && k < |live| && k == FirstNewline(live)
    ensures k < USERBUF_SIZE && IsBuffer(b) && IsBuffer(Shifted(b, k))
    ensures Holds(Shifted(b, k), live[k + 1..]) && NulFree(live[k + 1..])
    ensures var r := Drain(Shifted(b, k));
            Drain(b) == Drained([live[..k]] + r.lines, r.memory, k + 1 + r.consumed)
    ensures NewlineBehind(Shifted(b, k), |live[k + 1..]|) <==> NewlineBehind(b, |live|) || Misfit(live, k)
  {
    StrchrOfLive(b, live);
    ShiftLeaves(b, live, k);
    DrainStep(b, k);
    assert b[..k] == live[..k];
  }

  /** One call: if all gaps fit, its lines are those of the live bytes, and again no newline is behind the rest. */
  lemma {:induction false} DrainIsSplit(b: string, live: string)
    requires Holds(b, live) && NulFree(live) && !NewlineBehind(b, |live|) && GapsFit(live)
    ensures var r := Drain(b);
            && r.lines == Lines(live) && r.consumed == |live| - |Rest(live)|
            && Holds(r.memory, Rest(live)) && !NewlineBehind(r.memory, |Rest(live)|)
    decreases |live|
  {
    hide Holds, NulFree, NewlineBehind, Drain, Strchr, Lines, Rest, Misfit, Shifted, GapsFit, FirstNewline;
    var k := FirstNewline(live);
    if k >= 0 {
      OneLineDrained(b, live, k);
      LinesUnfold(live);
      GapsUnfold(live);
      DrainIsSplit(Shifted(b, k), live[k + 1..]);
    } else {
      StrchrOfLive(b, live);
      NothingDrained(b, live);
    }
  }

  /** Otherwise it hands out other lines, or it leaves a newline behind the rest. */
  lemma {:induction false} DrainSpoils(b: string, live: string)
    requires Holds(b, live) && NulFree(live) && (NewlineBehind(b, |live|) || !GapsFit(live))
    ensures var r := Drain(b);
            || r.lines != Lines(live)
            || (r.consumed == |live| - |Rest(live)| && Holds(r.memory, Rest(live)) && NewlineBehind(r.memory, |Rest(live)|))
    decreases |live|
  {
    hide Holds, NulFree, NewlineBehind, Drain, Strchr, Lines, Rest, Misfit, Shifted, GapsFit, FirstNewline;
    var k := FirstNewline(live);
    if k >= 0 {
      var live1 := live[k + 1..];
      GapsUnfold(live);
      OneLineDrained(b, live, k);
      LinesUnfold(live);
      DrainSpoils(Shifted(b, k), live1);
      var r1 := Drain(Shifted(b, k));
      if r1.lines != Lines(live1) { OtherTail(live[..k], r1.lines, Lines(live1)); }
    } else {
      NothingDrained(b, live);
    }
  }

  lemma {:induction false} OtherTail<T>(x: T, a: seq<T>, b: seq<T>)
    requires a != b
    ensures [x] + a != [x] + b
  {
    assert ([x] + a)[1..] == a && ([x] + b)[1..] == b;
  }

  lemma {:induction false} MisfitLeavesRoom(live: string)
    requires |live| <= USERBUF_SIZE && !GapsFit(live)
    ensures |Rest(live)| < USERBUF_SIZE - 1
    decreases |live|
  {
    var k := FirstNewline(live);
    if !GapsFit(live[k + 1..]) { MisfitLeavesRoom(live[k + 1..]); }
  }

  lemma {:induction false} DrainStep(b: string, k: nat)
    requires IsBuffer(b) && k == Strchr(b)
    ensures k < USERBUF_SIZE && IsBuffer(Shifted(b, k))
    ensures var r := Drain(Shifted(b, k));
            Drain(b) == Drained([b[..k]] + r.lines, r.memory, k + 1 + r.consumed)
  {
    ShiftShortens(b, k);
  }

  // ---------------------------------------------------------------------------------------------
  // Whole streams.
  // ---------------------------------------------------------------------------------------------

  /** The memory after read() put n bytes at cur. */
  function Received(b: string, cur: nat, input: string): (r: string)
    requires |b| == USERBUF_SIZE + 1 && cur + |input| <= USERBUF_SIZE
    ensures |r| == |b| && r[USERBUF_SIZE] == b[USERBUF_SIZE]
  {
    b[..cur] + input + b[cur + |input|..]
  }

  /** The unsigned int cur after a subtraction that came to x. */
  function Wrap(x: int): nat
    requires -TWO_TO_32 <= x
  {
    if x < 0 then x + TWO_TO_32 else x
  }

  datatype State = State(memory: string, cur: nat) | Exited
  {
    ghost predicate Valid() { State? ==> IsBuffer(memory) }
  }

  const START := State(seq(USERBUF_SIZE + 1, _ => NUL), 0)

  /** One call of process_user_input, with exit(-1) when the buffer is full. read() never returns more bytes
      than it is asked for. */
  function Feed(st: State, input: string): (r: (State, seq<string>))
    requires st.Valid()
    ensures r.0.Valid()
  {
    if st.Exited? || st.cur >= USERBUF_SIZE - 1 then (Exited, [])
    else
      var got := if st.cur + |input| <= USERBUF_SIZE then input else input[..USERBUF_SIZE - st.cur];
      var r := Drain(Received(st.memory, st.cur, got));
      (State(r.memory, Wrap(st.cur + |got| - r.consumed)), r.lines)
  }

  /** The state after a sequence of calls, and all the lines handed out. */
  function FeedAll(st: State, inputs: seq<string>): (r: (State, seq<string>))
    requires st.Valid()
    ensures r.0.Valid()
    decreases |inputs|
  {
    if inputs == [] then (st, []) else
      var (st', lines) := Feed(st, inputs[0]);
      var (last, more) := FeedAll(st', inputs[1..]);
      (last, lines + more)
  }

  /** The buffer holds tail, the unfinished line, and no newline is behind it. */
  ghost predicate Ready(st: State, tail: string)
  {
    && st.State? && st.cur == |tail| && Holds(st.memory, tail)
    && FirstNewline(tail) == -1 && !NewlineBehind(st.memory, |tail|)
  }

  /** A read that there is room for, without NULs; live is what the buffer holds after it. */
  ghost predicate Sized(tail: string, live: string)
  {
    |tail| < USERBUF_SIZE - 1 && |live| <= USERBUF_SIZE && NulFree(live)
  }

  /** Reads that there is room for, and that bring only gaps that fit. tail is what is buffered before them. */
  ghost predicate Admissible(tail: string, inputs: seq<string>)
    decreases |inputs|
  {
    inputs == [] ||
    (var live := tail + inputs[0];
     Sized(tail, live) && GapsFit(live) && Admissible(Rest(live), inputs[1..]))
  }

  ghost predicate AllSized(tail: string, inputs: seq<string>)
    decreases |inputs|
  {
    inputs == [] || (Sized(tail, tail + inputs[0]) && AllSized(Rest(tail + inputs[0]), inputs[1..]))
  }

  /** The same with a bound instead: never more than 4096 bytes in the buffer. */
  ghost predicate HalfFull(tail: string, inputs: seq<string>)
    decreases |inputs|
  {
    inputs == [] ||
    (var live := tail + inputs[0];
     && |live| <= 4096 && NulFree(live)
     && HalfFull(Rest(live), inputs[1..]))
  }

  function Concat(inputs: seq<string>): string
  {
    if inputs == [] then "" else inputs[0] + Concat(inputs[1..])
  }

  lemma {:induction false} ReceivedHolds(st: State, tail: string, input: string)
    requires Ready(st, tail) && Sized(tail, tail + input)
    ensures var b := Received(st.memory, st.cur, input);
            Holds(b, tail + input) && !NewlineBehind(b, |tail + input|)
  {
    var b, live := Received(st.memory, st.cur, input), tail + input;
    forall i | |live| <= i < |b|
      ensures b[i] != '\n'
    {
      assert b[i] == st.memory[i];
    }
  }

  /** A call on a ready buffer whose gaps fit hands out the lines and leaves the buffer ready. */
  lemma {:induction false} FeedSplits(st: State, tail: string, input: string)
    requires Ready(st, tail) && Sized(tail, tail + input) && GapsFit(tail + input)
    ensures Feed(st, input).1 == Lines(tail + input) && Ready(Feed(st, input).0, Rest(tail + input))
  {
    var live := tail + input;
    ReceivedHolds(st, tail, input);
    DrainIsSplit(Received(st.memory, st.cur, input), live);
    RestIsUnfinished(live);
    FeedDrains(st, input, Received(st.memory, st.cur, input));
    hide Holds, NewlineBehind, Drain, GapsFit, Lines, Rest, Feed;
  }

  lemma {:induction false} FeedDrains(st: State, input: string, b: string)
    requires st.State? && st.Valid() && st.cur < USERBUF_SIZE - 1 && st.cur + |input| <= USERBUF_SIZE
    requires b == Received(st.memory, st.cur, input)
    ensures var r := Drain(b);
            Feed(st, input) == (State(r.memory, Wrap(st.cur + |input| - r.consumed)), r.lines)
  {
  }

  /** However admissible input is cut into reads, the lines handed out are the lines of the whole stream, and
      the buffer holds the unfinished line with no newline behind it. */
  lemma {:induction false} StreamIsSplitIntoLines(st: State, tail: string, inputs: seq<string>)
    requires Ready(st, tail) && Admissible(tail, inputs)
    ensures var (t, lines) := FeedAll(st, inputs);
            var all := tail + Concat(inputs);
            lines == Lines(all) && Ready(t, Rest(all))
    decreases |inputs|
  {
    if inputs == [] {
      assert tail + "" == tail;
    } else {
      var live, later := tail + inputs[0], Concat(inputs[1..]);
      FeedSplits(st, tail, inputs[0]);
      hide Ready, GapsFit;
      StreamIsSplitIntoLines(Feed(st, inputs[0]).0, Rest(live), inputs[1..]);
      LinesOfConcat(live, later);
      Associative(tail, inputs[0], later);
      assert tail + Concat(inputs) == live + later;
      StreamStep(st, inputs, live, later);
    }
  }

  lemma {:induction false} StreamStep(st: State, inputs: seq<string>, live: string, later: string)
    requires st.Valid() && inputs != [] && Feed(st, inputs[0]).1 == Lines(live)
    requires FeedAll(Feed(st, inputs[0]).0, inputs[1..]).1 == Lines(Rest(live) + later)
    ensures FeedAll(st, inputs) == (FeedAll(Feed(st, inputs[0]).0, inputs[1..]).0, Lines(live + later))
  {
    LinesOfConcat(live, later);
    FeedAllStep(st, inputs);
  }

  lemma {:induction false} FeedAllStep(st: State, inputs: seq<string>)
    requires st.Valid() && inputs != []
    ensures var (st', lines) := Feed(st, inputs[0]);
            FeedAll(st, inputs) == (FeedAll(st', inputs[1..]).0, lines + FeedAll(st', inputs[1..]).1)
  {
  }

  lemma {:induction false} RestIsUnfinished(s: string)
    ensures FirstNewline(Rest(s)) == -1
    decreases |s|
  {
    if FirstNewline(s) >= 0 {
      RestIsUnfinished(s[FirstNewline(s) + 1..]);
    }
  }

  lemma {:induction false} HalfFullGapsFit(live: string)
    requires |live| <= 4096
    ensures GapsFit(live)
    decreases |live|
  {
    if FirstNewline(live) >= 0 {
      HalfFullGapsFit(live[FirstNewline(live) + 1..]);
    }
  }

  lemma {:induction false} HalfFullIsAdmissible(tail: string, inputs: seq<string>)
    requires HalfFull(tail, inputs)
    ensures Admissible(tail, inputs)
    decreases |inputs|
  {
    if inputs != [] {
      HalfFullGapsFit(tail + inputs[0]);
      HalfFullIsAdmissible(Rest(tail + inputs[0]), inputs[1..]);
    }
  }

  lemma {:induction false} HalfFullStream(inputs: seq<string>)
    requires HalfFull("", inputs)
    ensures var (t, lines) := FeedAll(START, inputs);
            lines == Lines(Concat(inputs)) && Ready(t, Rest(Concat(inputs)))
  {
    HalfFullIsAdmissible("", inputs);
    assert Ready(START, "");
    hide Ready, Admissible, HalfFull;
    StreamIsSplitIntoLines(START, "", inputs);
    assert "" + Concat(inputs) == Concat(inputs);
  }

  /** After an admissible stream the next call gives up if and only if the unfinished line has 8190 bytes or more. */
  lemma {:induction false} GivesUpIffLineTooLong(inputs: seq<string>, more: string)
    requires Admissible("", inputs)
    ensures FeedAll(START, inputs).0.Valid()
    ensures Feed(FeedAll(START, inputs).0, more).0.Exited? <==> |Rest(Concat(inputs))| >= 8190
  {
    assert Ready(START, "");
    hide Ready, Admissible;
    StreamIsSplitIntoLines(START, "", inputs);
    assert "" + Concat(inputs) == Concat(inputs);
    hide FeedAll;
    ReadyHolds(FeedAll(START, inputs).0, Rest(Concat(inputs)));
  }

  lemma {:induction false} ReadyHolds(st: State, tail: string)
    requires Ready(st, tail)
    ensures st.State? && st.cur == |tail|
  {
  }

  // ---------------------------------------------------------------------------------------------
  // The condition is exact.
  // ---------------------------------------------------------------------------------------------

  /** A read that brings neither a newline nor a NUL. */
  ghost predicate Plain(input: string) { NulFree(input) && FirstNewline(input) == -1 }

  /** A call hands out the lines of what is in the buffer, and a plain read after it hands out none. */
  ghost predicate Faithful(st: State, live: string, input: string)
    requires st.Valid()
  {
    Feed(st, input).1 == Lines(live) && forall more | Plain(more) :: Feed(Feed(st, input).0, more).1 == []
  }

  lemma {:induction false} PlainHandsOutNothing(st: State, tail: string, more: string)
    requires Ready(st, tail) && NulFree(tail) && Plain(more)
    ensures Feed(st, more).1 == []
  {
    var got := if st.cur + |more| <= USERBUF_SIZE then more else more[..USERBUF_SIZE - st.cur];
    if st.cur < USERBUF_SIZE - 1 {
      var b := Received(st.memory, st.cur, got);
      assert forall i | 0 <= i < |tail| :: tail[i] != '\n';
      assert forall i | 0 <= i < |got| :: got[i] == more[i] && got[i] != '\n';
      assert forall i | 0 <= i < |b| :: b[i] != '\n';
      StrchrFails(b, USERBUF_SIZE);
    }
  }

  /** A newline behind the unfinished line comes out as the end of a line that nobody typed. */
  lemma {:induction false} NewlineComesOut(st: State, tail: string) returns (more: string)
    requires st.State? && st.cur == |tail| < USERBUF_SIZE - 1 && Holds(st.memory, tail)
    requires NulFree(tail) && FirstNewline(tail) == -1 && NewlineBehind(st.memory, |tail|)
    ensures Plain(more) && Feed(st, more).1 != []
  {
    var i :| |tail| <= i < |st.memory| && st.memory[i] == '\n';
    more := Repeat('x', i - |tail|);
    var b := Received(st.memory, st.cur, more);
    assert Plain(more) && b[i] == '\n';
    StrchrIs(b, i);
    FeedDrains(st, more, b);
    DrainStep(b, i);
  }

  lemma {:induction false} RestIsNulFree(s: string)
    requires NulFree(s)
    ensures NulFree(Rest(s))
    decreases |s|
  {
    if FirstNewline(s) >= 0 { RestIsNulFree(s[FirstNewline(s) + 1..]); }
  }

  lemma {:induction false} MisfitShows(st: State, tail: string, input: string)
    requires Ready(st, tail) && Sized(tail, tail + input) && !GapsFit(tail + input)
    ensures !Faithful(st, tail + input, input)
  {
    var live := tail + input;
    var b := Received(st.memory, st.cur, input);
    ReceivedHolds(st, tail, input);
    DrainSpoils(b, live);
    RestIsUnfinished(live);
    RestIsNulFree(live);
    MisfitLeavesRoom(live);
    FeedDrains(st, input, b);
    hide Holds, NewlineBehind, Drain, GapsFit, Lines, Rest, Feed, Received;
    if Feed(st, input).1 == Lines(live) {
      var more := NewlineComesOut(Feed(st, input).0, Rest(live));
    }
  }

  /** One call is faithful if and only if all gaps fit, whatever bytes are behind the unfinished line. */
  lemma {:induction false} FaithfulIffGapsFit(st: State, tail: string, input: string)
    requires Ready(st, tail) && Sized(tail, tail + input)
    ensures Faithful(st, tail + input, input) <==> GapsFit(tail + input)
  {
    var live := tail + input;
    if GapsFit(live) {
      FeedSplits(st, tail, input);
      RestIsNulFree(live);
      hide Ready, Feed, GapsFit, Lines, Plain;
      forall more | Plain(more)
        ensures Feed(Feed(st, input).0, more).1 == []
      {
        PlainHandsOutNothing(Feed(st, input).0, Rest(live), more);
      }
    } else {
      MisfitShows(st, tail, input);
    }
  }

  ghost predicate AllFaithful(st: State, tail: string, inputs: seq<string>)
    requires st.Valid()
    decreases |inputs|
  {
    inputs == [] ||
    (var live := tail + inputs[0];
     Faithful(st, live, inputs[0]) && AllFaithful(Feed(st, inputs[0]).0, Rest(live), inputs[1..]))
  }

  /** A stream that there is room for is handed out as its lines, call by call, if and only if it is admissible. */
  lemma {:induction false} StreamIsFaithfulIffAdmissible(st: State, tail: string, inputs: seq<string>)
    requires Ready(st, tail) && AllSized(tail, inputs)
    ensures st.Valid() && (AllFaithful(st, tail, inputs) <==> Admissible(tail, inputs))
    decreases |inputs|
  {
    if inputs != [] {
      var live := tail + inputs[0];
      FaithfulIffGapsFit(st, tail, inputs[0]);
      if GapsFit(live) {
        FeedSplits(st, tail, inputs[0]);
        StreamIsFaithfulIffAdmissible(Feed(st, inputs[0]).0, Rest(live), inputs[1..]);
      }
      hide Ready, Feed, GapsFit, Faithful, Sized, Holds, Rest;
    }
  }

  /** A NUL in front of the first newline hides every later line, in this call and in all that follow. */
  lemma {:induction false} NulHidesLines(st: State, inputs: seq<string>, z: nat)
    requires st.State? && st.Valid() && z < st.cur <= USERBUF_SIZE
    requires st.memory[z] == NUL && forall i | 0 <= i < z :: st.memory[i] != '\n'
    ensures FeedAll(st, inputs).1 == []
    decreases |inputs|
  {
    if inputs != [] && st.cur < USERBUF_SIZE - 1 {
      NulStays(st, inputs[0], z);
      FeedAllStep(st, inputs);
      NulHidesLines(Feed(st, inputs[0]).0, inputs[1..], z);
    } else {
      ExitedIsSilent(st, inputs);
    }
  }

  lemma {:induction false} NulStays(st: State, input: string, z: nat)
    requires st.State? && st.Valid() && z < st.cur < USERBUF_SIZE - 1
    requires st.memory[z] == NUL && forall i | 0 <= i < z :: st.memory[i] != '\n'
    ensures var (t, lines) := Feed(st, input);
            && lines == [] && t.State? && z < t.cur <= USERBUF_SIZE
            && t.memory[z] == NUL && forall i | 0 <= i < z :: t.memory[i] != '\n'
  {
    var got := if st.cur + |input| <= USERBUF_SIZE then input else input[..USERBUF_SIZE - st.cur];
    var b := Received(st.memory, st.cur, got);
    assert forall i | 0 <= i <= z :: b[i] == st.memory[i];
    StrchrFails(b, z);
  }

  lemma {:induction false} ExitedIsSilent(st: State, inputs: seq<string>)
    requires st.Valid() && (st.Exited? || st.cur >= USERBUF_SIZE - 1 || inputs == [])
    ensures FeedAll(st, inputs).1 == []
    decreases |inputs|
  {
    if inputs != [] {
      ExitedIsSilent(Exited, inputs[1..]);
    }
  }

  // ---------------------------------------------------------------------------------------------
  // Without the room for memmove, bytes of old lines come back as a line that nobody typed.
  // ---------------------------------------------------------------------------------------------

  function Repeat(c: char, n: nat): string { seq(n, _ => c) }

  const FIRST_READ := Repeat('a', 100) + "\n" + Repeat('b', 8019) + "\n" + Repeat('c', 29)

  const SECOND_READ := Repeat('d', 42)

  lemma {:induction false} StaleBytesBecomeALine()
    ensures NulFree(FIRST_READ + SECOND_READ) && |FIRST_READ| == 8150
    ensures Lines(FIRST_READ + SECOND_READ) == [Repeat('a', 100), Repeat('b', 8019)]
    ensures Feed(START, FIRST_READ).1 == [Repeat('a', 100), Repeat('b', 8019)]
    ensures Feed(Feed(START, FIRST_READ).0, SECOND_READ).1 != []
  {
    WhatWasTyped();
    FirstCall();
    SecondCall(Feed(START, FIRST_READ).0);
  }

  lemma {:induction false} WhatWasTyped()
    ensures NulFree(FIRST_READ + SECOND_READ) && |FIRST_READ| == 8150
    ensures Lines(FIRST_READ + SECOND_READ) == [Repeat('a', 100), Repeat('b', 8019)]
  {
    var s := FIRST_READ + SECOND_READ;
    TwoLines(s);
    assert s[..100] == Repeat('a', 100) && s[101..8120] == Repeat('b', 8019);
  }

  lemma {:induction false} FirstCall()
    ensures |FIRST_READ| == 8150
    ensures var r := Feed(START, FIRST_READ);
            && r.1 == [Repeat('a', 100), Repeat('b', 8019)]
            && r.0.State? && r.0.cur == 29 && StaleTail(r.0.memory)
  {
    SameBuffer(Received(START.memory, 0, FIRST_READ), Clean(FIRST_READ));
    FeedDrains(START, FIRST_READ, Clean(FIRST_READ));
    FirstReadLeaves();
  }

  /** 29 bytes of the unfinished line, 42 NULs, and then old bytes with a newline among them. */
  ghost predicate StaleTail(b: string)
  {
    && IsBuffer(b)
    && (forall i | 0 <= i < 29 :: b[i] == 'c')
    && (forall i | 71 <= i < 100 :: b[i] == 'b') && b[100] == '\n'
  }

  lemma {:induction false} SecondCall(st: State)
    requires st.State? && st.cur == 29 && StaleTail(st.memory)
    ensures Feed(st, SECOND_READ).1 != []
  {
    var b := Received(st.memory, 29, SECOND_READ);
    assert forall i | 0 <= i < 100 :: b[i] == (if i < 29 then 'c' else if i < 71 then 'd' else 'b');
    StrchrIs(b, 100);
    DrainStep(b, 100);
    FeedDrains(st, SECOND_READ, b);
  }

  lemma {:induction false} TwoLines(s: string)
    requires |s| >= 8121 && s[100] == s[8120] == '\n'
    requires forall i | 0 <= i < |s| && i != 100 && i != 8120 :: s[i] != '\n'
    ensures Lines(s) == [s[..100], s[101..8120]]
  {
    hide Lines, Rest, FirstNewline;
    LinesStep(s, 100);
    var t := s[101..];
    assert |t| == |s| - 101 && forall i | 0 <= i < |t| :: t[i] == s[i + 101];
    OneLine(t, 8019);
    assert t[..8019] == s[101..8120];
  }

  lemma {:induction false} OneLine(s: string, k: nat)
    requires k < |s| && s[k] == '\n' && forall i | 0 <= i < |s| && i != k :: s[i] != '\n'
    ensures Lines(s) == [s[..k]]
  {
    hide Lines;
    LinesStep(s, k);
    NoLines(s[k + 1..]);
  }

  lemma {:induction false} NoLines(s: string)
    requires forall i | 0 <= i < |s| :: s[i] != '\n'
    ensures Lines(s) == []
  {
  }

  lemma {:induction false} FirstReadLeaves()
    ensures |FIRST_READ| == 8150
    ensures var r := Drain(Clean(FIRST_READ));
            r.lines == [Repeat('a', 100), Repeat('b', 8019)] && r.consumed == 8121 && StaleTail(r.memory)
  {
    var b := Clean(FIRST_READ);
    StrchrIs(b, 100);
    DrainStep(b, 100);
    assert b[..100] == Repeat('a', 100);
    AfterFirstLine(b);
    AfterSecondLine(Shifted(b, 100));
  }

  lemma {:induction false} AfterFirstLine(b: string)
    requires b == Clean(FIRST_READ)
    ensures var r := Shifted(b, 100);
            && (forall i | 0 <= i < 8019 :: r[i] == 'b') && r[8019] == '\n'
            && (forall i | 8020 <= i < 8049 :: r[i] == 'c')
            && (forall i | 8049 <= i < 8091 :: r[i] == NUL)
            && (forall i | 8091 <= i < 8120 :: r[i] == 'b') && r[8120] == '\n'
            && IsBuffer(r)
  {
    ShiftedAt(b, 100);
  }

  lemma {:induction false} AfterSecondLine(b: string)
    requires IsBuffer(b) && (forall i | 0 <= i < 8019 :: b[i] == 'b') && b[8019] == '\n'
    requires forall i | 8020 <= i < 8049 :: b[i] == 'c'
    requires forall i | 8049 <= i < 8091 :: b[i] == NUL
    requires (forall i | 8091 <= i < 8120 :: b[i] == 'b') && b[8120] == '\n'
    ensures var r := Drain(b);
            r.lines == [Repeat('b', 8019)] && r.consumed == 8020 && StaleTail(r.memory)
  {
    StrchrIs(b, 8019);
    DrainStep(b, 8019);
    StaleAfterShift(b);
    LastLine(Shifted(b, 8019));
    assert b[..8019] == Repeat('b', 8019);
  }

  lemma {:induction false} StaleAfterShift(b: string)
    requires IsBuffer(b)
    requires forall i | 8020 <= i < 8049 :: b[i] == 'c'
    requires forall i | 8049 <= i < 8091 :: b[i] == NUL
    requires (forall i | 8091 <= i < 8120 :: b[i] == 'b') && b[8120] == '\n'
    ensures var r := Shifted(b, 8019);
            StaleTail(r) && forall i | 29 <= i < 71 :: r[i] == NUL
  {
    ShiftedAt(b, 8019);
  }

  lemma {:induction false} LastLine(b: string)
    requires StaleTail(b) && b[29] == NUL
    ensures Drain(b) == Drained([], b, 0)
  {
    StrchrFails(b, 29);
  }

  // ---------------------------------------------------------------------------------------------
  // The code.
  // ---------------------------------------------------------------------------------------------

  /** What a loop that has handed out lines and moved the memory by so many bytes comes to in the end. */
  function Onward(lines: seq<string>, r: Drained, moved: nat): Drained
  {
    Drained(lines + r.lines, r.memory, moved + r.consumed)
  }

  lemma {:induction false} LoopStep(start: string, lines: seq<string>, b: string, moved: nat, k: nat)
    requires IsBuffer(start) && IsBuffer(b) && k == Strchr(b)
    requires Drain(start) == Onward(lines, Drain(b), moved)
    ensures k < USERBUF_SIZE && IsBuffer(Shifted(b, k)) && FirstNul(Shifted(b, k)) + k + 1 <= FirstNul(b)
    ensures Drain(start) == Onward(lines + [b[..k]], Drain(Shifted(b, k)), moved + k + 1)
  {
    DrainStep(b, k);
    ShiftShortens(b, k);
    Associative(lines, [b[..k]], Drain(Shifted(b, k)).lines);
  }

  lemma {:induction false} LoopStart(b: string)
    requires IsBuffer(b)
    ensures Drain(b) == Onward([], Drain(b), 0)
  {
    assert [] + Drain(b).lines == Drain(b).lines;
  }

  lemma {:induction false} LoopEnd(start: string, lines: seq<string>, b: string, moved: nat)
    requires IsBuffer(start) && IsBuffer(b) && Strchr(b) == -1
    requires Drain(start) == Onward(lines, Drain(b), moved)
    ensures Drain(start) == Drained(lines, b, moved)
  {
    assert lines + [] == lines;
  }

  class UserIobuf {
    const buf: array<char>
    var cur: nat

    ghost predicate Valid()
      reads this, buf
    {
      IsBuffer(buf[..])
    }

    /** create_userbuf. */
    constructor ()
      ensures Valid() && fresh(buf)
      ensures State(buf[..], cur) == START
    {
      buf := new char[USERBUF_SIZE + 1](_ => NUL);
      cur := 0;
    }

    /** process_user_input: input is what read() puts at cur, lines are the arguments of handle_line, and
        exited reports the call of exit(-1). */
    method ProcessUserInput(input: string) returns (exited: bool, lines: seq<string>)
      requires Valid() && (cur < USERBUF_SIZE - 1 ==> cur + |input| <= USERBUF_SIZE)
      modifies this, buf
      ensures Valid()
      ensures (if exited then Exited else State(buf[..], cur), lines) == Feed(old(State(buf[..], cur)), input)
    {
      lines := [];
      if cur >= USERBUF_SIZE - 1 {
        return true, lines;
      }
      hide Received, Drain, Wrap;
      exited := false;
      ghost var before := old(State(buf[..], cur));
      Read(input);
      lines := HandleLines();
      FeedDrains(before, input, Received(before.memory, before.cur, input));
    }

    /** read() into the buffer from cur on. */
    method Read(input: string)
      requires Valid() && cur + |input| <= USERBUF_SIZE
      modifies this`cur, buf
      ensures Valid() && cur == old(cur) + |input|
      ensures buf[..] == Received(old(buf[..]), old(cur), input)
    {
      forall i | 0 <= i < |input| {
        buf[cur + i] := input[i];
      }
      cur := cur + |input|;
    }

    /** The loop of process_user_input. */
    method HandleLines() returns (lines: seq<string>)
      requires Valid() && cur <= USERBUF_SIZE
      modifies this, buf
      ensures Valid()
      ensures Drain(old(buf[..])) == Drained(lines, buf[..], Drain(old(buf[..])).consumed)
      ensures cur == Wrap(old(cur) - Drain(old(buf[..])).consumed)
    {
      hide Drain, StrchrFrom, NulFrom, Lines, Rest, Clean;
      lines := [];
      ghost var moved, start, mem := 0, buf[..], buf[..];
      LoopStart(start);
      var ret := Strchr(buf[..]);
      while ret >= 0
        invariant mem == buf[..] && IsBuffer(mem) && ret == Strchr(mem)
        invariant Drain(start) == Onward(lines, Drain(mem), moved)
        invariant moved + FirstNul(mem) <= |start|
        invariant cur == Wrap(old(cur) - moved)
        decreases FirstNul(mem)
      {
        LoopStep(start, lines, mem, moved, ret);
        var line := TakeLine(ret);
        lines, moved, mem := lines + [line], moved + ret + 1, Shifted(mem, ret);
        ret := Strchr(buf[..]);
      }
      LoopEnd(start, lines, mem, moved);
    }

    /** The body of the loop of process_user_input: newline at index ret. */
    method TakeLine(ret: nat) returns (line: string)
      requires Valid() && ret < USERBUF_SIZE && cur < TWO_TO_32
      modifies this, buf
      ensures buf[..] == Shifted(old(buf[..]), ret) && line == old(buf[..ret])
      ensures cur == Wrap(old(cur) - (ret + 1))
    {
      buf[ret] := NUL;
      line := buf[..ret];
      assert buf[..] == old(buf[..])[ret := NUL];
      MemMoveToFront(ret + 1, USERBUF_SIZE - ret);
      cur := Wrap(cur - (ret + 1));
    }

    /** memmove(buf, buf + src, n). */
    method MemMoveToFront(src: nat, n: nat)
      requires src + n <= buf.Length
      modifies buf
      ensures buf[..] == old(buf[..])[src..src + n] + old(buf[..])[n..]
    {
      forall i | 0 <= i < n {
        buf[i] := buf[src + i];
      }
    }
  }
}
