/** The streaming SHA-1 of sha.c: a 64-byte buffer, an 80-word schedule and two ways to copy input. */
module Sha1 {
  import opened Words
  import opened Blocks
  import opened Fips180

  /** What a context means: the chaining value, the bytes not yet compressed and the bit count. */
  datatype Context = Context(hash: Vars, tail: seq<Byte>, total: nat) {
    ghost predicate Valid() { |tail| < 64 && total < TWO_TO_64 }
  }

  const INITIAL := Context(H0, [], 0)

  /** Absorbing data in one go, with no buffer: the reference for both versions of SHA1Update. */
  function Absorb(c: Context, data: seq<Byte>): (r: Context)
    ensures r.Valid()
  {
    var all := c.tail + data;
    var whole := Whole(|all|);
    Context(HashBlocks(c.hash, all[..whole]), all[whole..], CountBits(c.total, |data|))
  }

  function AbsorbAll(c: Context, pieces: seq<seq<Byte>>): (r: Context)
    requires c.Valid()
    ensures r.Valid()
    decreases |pieces|
  {
    if pieces == [] then c else AbsorbAll(Absorb(c, pieces[0]), pieces[1..])
  }

  function Concat(pieces: seq<seq<Byte>>): seq<Byte>
  {
    if pieces == [] then [] else pieces[0] + Concat(pieces[1..])
  }

  /** The static array `padding`. */
  function PaddingArray(): seq<Byte> { [0x80] + seq(63, _ => 0) }

  /** What SHA1Final leaves in the context. */
  function Finish(c: Context): Context
    requires c.Valid()
  {
    Absorb(Absorb(c, PaddingArray()[..BytesToPad(|c.tail|)]), LengthField(c.total))
  }

  // ---------------------------------------------------------------------------------------------
  // Splitting the input never matters, and the end result is the FIPS hash.
  // ---------------------------------------------------------------------------------------------

  /** Cutting t + x into whole blocks and a rest, and then rest + y, cuts t + x + y in the same places. */
  lemma {:induction false} CutTwice(t: seq<Byte>, x: seq<Byte>, y: seq<Byte>)
    ensures var first := t + x;
            var cut := Whole(|first|);
            var second := first[cut..] + y;
            var cut' := Whole(|second|);
            var all := t + (x + y);
            && Whole(|all|) == cut + cut'
            && all[..cut + cut'] == first[..cut] + second[..cut']
            && all[cut + cut'..] == second[cut'..]
  {
    var first := t + x;
    var cut := Whole(|first|);
    var second := first[cut..] + y;
    assert t + (x + y) == first[..cut] + second;
    WholeOfSum(cut, |second|);
  }

  lemma {:induction false} AbsorbConcat(c: Context, x: seq<Byte>, y: seq<Byte>)
    ensures Absorb(Absorb(c, x), y) == Absorb(c, x + y)
  {
    var first := c.tail + x;
    var cut := Whole(|first|);
    var second := first[cut..] + y;
    CutTwice(c.tail, x, y);
    HashBlocksConcat(c.hash, first[..cut], second[..Whole(|second|)]);
    CountBitsTwice(c.total, |x|, |y|);
  }

  lemma {:induction false} AnySplitIsOneAbsorb(c: Context, pieces: seq<seq<Byte>>)
    requires c.Valid()
    ensures AbsorbAll(c, pieces) == Absorb(c, Concat(pieces))
    decreases |pieces|
  {
    if pieces == [] {
      AbsorbNothing(c);
    } else {
      AnySplitIsOneAbsorb(Absorb(c, pieces[0]), pieces[1..]);
      AbsorbConcat(c, pieces[0], Concat(pieces[1..]));
    }
  }

  lemma {:induction false} PadBytesArePadding(n: nat)
    requires 8 * n < TWO_TO_64
    ensures PaddingArray()[..BytesToPad(n - Whole(n))] + LengthField(8 * n) == Padding(n)
  {
    BytesToPadIsPadZeros(n);
    assert PaddingArray()[..BytesToPad(n - Whole(n))] == [0x80] + seq(PadZeros(n), _ => 0);
  }

  lemma {:induction false} FinishAbsorbsPadding(msg: seq<Byte>)
    requires 8 * |msg| < TWO_TO_64
    ensures Finish(Absorb(INITIAL, msg)) == Absorb(INITIAL, msg + Padding(|msg|))
  {
    var c := Absorb(INITIAL, msg);
    assert |c.tail| == |msg| - Whole(|msg|) && c.total == 8 * |msg| by {
      assert INITIAL.tail + msg == msg;
      CountBitsExact(0, |msg|);
    }
    PadBytesArePadding(|msg|);
    AbsorbConcat(c, PaddingArray()[..BytesToPad(|c.tail|)], LengthField(c.total));
    AbsorbConcat(INITIAL, msg, Padding(|msg|));
  }

  lemma {:induction false} FinishIsSha1(msg: seq<Byte>)
    requires 8 * |msg| < TWO_TO_64
    ensures var c := Absorb(INITIAL, msg);
            Finish(c).tail == [] && Digest(Finish(c).hash) == Fips180.Sha1(msg)
  {
    hide Absorb, Finish, HashBlocks, Padding;
    FinishAbsorbsPadding(msg);
    AbsorbWhole(msg + Padding(|msg|));
  }

  lemma {:induction false} AbsorbWhole(bytes: seq<Byte>)
    requires |bytes| % 64 == 0
    ensures Absorb(INITIAL, bytes).hash == HashBlocks(H0, bytes) && Absorb(INITIAL, bytes).tail == []
  {
    WholeOfMultiple(|bytes|);
    assert INITIAL.tail + bytes == bytes == bytes[..|bytes|];
  }

  /** The whole pipeline: however a message is cut into SHA1Update calls, SHA1Final yields its FIPS hash. */
  lemma {:induction false} StreamingIsSha1(pieces: seq<seq<Byte>>)
    requires 8 * |Concat(pieces)| < TWO_TO_64
    ensures Digest(Finish(AbsorbAll(INITIAL, pieces)).hash) == Fips180.Sha1(Concat(pieces))
    ensures Finish(AbsorbAll(INITIAL, pieces)).tail == []
  {
    AnySplitIsOneAbsorb(INITIAL, pieces);
    FinishIsSha1(Concat(pieces));
  }

  lemma {:induction false} AbsorbBlock(c: Context, data: seq<Byte>)
    requires |c.tail + data| == 64
    ensures Absorb(c, data) == Context(Compress(c.hash, c.tail + data), [], CountBits(c.total, |data|))
  {
    var all := c.tail + data;
    WholeOfMultiple(64);
    assert all[..64] == all && all[64..] == [];
    assert HashBlocks(c.hash, all) == HashBlocks(Compress(c.hash, all), []);
  }

  lemma {:induction false} AbsorbShort(c: Context, data: seq<Byte>)
    requires |c.tail + data| < 64
    ensures Absorb(c, data) == Context(c.hash, c.tail + data, CountBits(c.total, |data|))
  {
    var all := c.tail + data;
    WholeOfMultiple(|all|);
    assert all[..0] == [] && all[0..] == all;
  }

  /** The memory of the variable lengthPad on a little-endian machine. */
  function LengthInMemory(total: nat): (r: seq<Byte>)
    requires total < TWO_TO_64
    ensures r == LengthField(total)
  {
    SwappedStore64IsBigEndian(total as bv64);
    Store64(ByteSwap64(total as bv64))
  }

  /** One DO_ROUND of the code advances the working variables by one round of section 6.1.2. */
  lemma {:induction false} RoundStep(h: Vars, block: seq<Byte>, t: nat, f: Word)
    requires |block| == 64 && t < 80
    requires var v := Rounds(h, block, t);
             f == (if t < 20 then F_0_19(v.b, v.c, v.d)
                   else if t < 40 then F_20_39(v.b, v.c, v.d)
                   else if t < 60 then F_40_59(v.b, v.c, v.d)
                   else F_60_79(v.b, v.c, v.d))
    ensures DoRound(Rounds(h, block, t), f, K(t), Schedule(block, t)) == Rounds(h, block, t + 1)
  {
    var v := Rounds(h, block, t);
    RewrittenChoice(v.b, v.c, v.d);
    RewrittenMajority(v.b, v.c, v.d);
    DoRoundIsTurn(v, f, K(t), Schedule(block, t));
  }

  // ---------------------------------------------------------------------------------------------
  // The code.
  // ---------------------------------------------------------------------------------------------

  class Sha1Context {
    var totalLength: nat
    var hash: Vars
    var bufferLength: nat
    const buffer: array<Byte>

    ghost predicate Valid()
      reads this
    {
      buffer.Length == 64 && bufferLength < 64 && totalLength < TWO_TO_64
    }

    ghost function Value(): Context
      requires Valid()
      reads this, buffer
    {
      Context(hash, buffer[..bufferLength], totalLength)
    }

    /** Allocation followed by SHA1Init. */
    constructor ()
      ensures Valid() && fresh(buffer)
      ensures Value() == INITIAL
    {
      buffer := new Byte[64];
      totalLength := 0;
      bufferLength := 0;
      hash := Vars(0x67452301, 0xefcdab89, 0x98badcfe, 0x10325476, 0xc3d2e1f0);
    }

    /** SHA1Guts: cbuf is the 64 bytes of memory the pointer of that name points to. */
    method Guts(cbuf: seq<Byte>)
      requires |cbuf| == 64
      modifies this`hash
      ensures hash == Compress(old(hash), cbuf)
    {
      var buf := ExpandSchedule(cbuf);
      var v := RunRounds(hash, cbuf, buf);
      hash := Add(hash, v);
    }

    /** The DO_ROUND part of SHA1Guts. */
    static method RunRounds(h: Vars, ghost cbuf: seq<Byte>, buf: array<Word>) returns (v: Vars)
      requires |cbuf| == 64 && buf.Length == 80
      requires forall t | 0 <= t < 80 :: buf[t] == Schedule(cbuf, t)
      ensures v == Rounds(h, cbuf, ROUNDS)
    {
      v := h;
      for i := 0 to 20
        invariant v == Rounds(h, cbuf, i)
      {
        RoundStep(h, cbuf, i, F_0_19(v.b, v.c, v.d));
        v := DoRound(v, F_0_19(v.b, v.c, v.d), 0x5a827999, buf[i]);
      }
      for i := 20 to 40
        invariant v == Rounds(h, cbuf, i)
      {
        RoundStep(h, cbuf, i, F_20_39(v.b, v.c, v.d));
        v := DoRound(v, F_20_39(v.b, v.c, v.d), 0x6ed9eba1, buf[i]);
      }
      for i := 40 to 60
        invariant v == Rounds(h, cbuf, i)
      {
        RoundStep(h, cbuf, i, F_40_59(v.b, v.c, v.d));
        v := DoRound(v, F_40_59(v.b, v.c, v.d), 0x8f1bbcdc, buf[i]);
      }
      for i := 60 to 80
        invariant v == Rounds(h, cbuf, i)
      {
        RoundStep(h, cbuf, i, F_60_79(v.b, v.c, v.d));
        v := DoRound(v, F_60_79(v.b, v.c, v.d), 0xca62c1d6, buf[i]);
      }
    }

    /** The first half of SHA1Guts, with its four running pointers as indices. */
    static method ExpandSchedule(cbuf: seq<Byte>) returns (buf: array<Word>)
      requires |cbuf| == 64
      ensures fresh(buf) && buf.Length == 80
      ensures forall t | 0 <= t < 80 :: buf[t] == Schedule(cbuf, t)
    {
      buf := new Word[80];
      var W := 0;
      while W < 16
        invariant 0 <= W <= 16
        invariant forall t | 0 <= t < W :: buf[t] == Schedule(cbuf, t)
      {
        SwappedLoadIsBigEndian(cbuf[4 * W], cbuf[4 * W + 1], cbuf[4 * W + 2], cbuf[4 * W + 3]);
        buf[W] := ByteSwap(Load(cbuf[4 * W], cbuf[4 * W + 1], cbuf[4 * W + 2], cbuf[4 * W + 3]));
        W := W + 1;
      }
      var W16, W14, W8, W3 := 0, 2, 8, 13;
      while W < 80
        invariant 16 <= W <= 80
        invariant W16 == W - 16 && W14 == W - 14 && W8 == W - 8 && W3 == W - 3
        invariant forall t | 0 <= t < W :: buf[t] == Schedule(cbuf, t)
      {
        buf[W] := Mix(buf[W3], buf[W8], buf[W14], buf[W16]);
        W, W3, W8, W14, W16 := W + 1, W3 + 1, W8 + 1, W14 + 1, W16 + 1;
      }
    }

    /** memcpy into the buffer, the length bookkeeping, and SHA1Guts when the buffer is full. */
    method CopyIn(data: seq<Byte>)
      requires Valid() && bufferLength + |data| <= 64
      modifies this, buffer
      ensures Valid() && Value() == Absorb(old(Value()), data)
      ensures bufferLength == (old(bufferLength) + |data|) % 64
    {
      ghost var c := Value();
      forall i | 0 <= i < |data| {
        buffer[bufferLength + i] := data[i];
      }
      totalLength := CountBits(totalLength, |data|);
      bufferLength := bufferLength + |data|;
      assert buffer[..bufferLength] == c.tail + data;
      if bufferLength == 64 {
        assert buffer[..] == buffer[..64];
        Guts(buffer[..]);
        bufferLength := 0;
        AbsorbBlock(c, data);
      } else {
        AbsorbShort(c, data);
      }
    }

    /** SHA1Update as compiled by default. */
    method Update(data: seq<Byte>)
      requires Valid()
      modifies this, buffer
      ensures Valid() && Value() == Absorb(old(Value()), data)
    {
      var rest := data;
      while |rest| > 0
        invariant Valid() && Absorb(Value(), rest) == Absorb(old(Value()), data)
        decreases |rest|
      {
        rest := CopyPrefix(rest);
      }
      AbsorbNothing(Value());
    }

    /** One turn of the copying code: as much of rest as the buffer takes. */
    method CopyPrefix(rest: seq<Byte>) returns (rest': seq<Byte>)
      requires Valid()
      modifies this, buffer
      ensures Valid() && Absorb(Value(), rest') == Absorb(old(Value()), rest)
      ensures |rest'| > 0 ==> bufferLength == 0
      ensures |rest| > 0 ==> |rest'| < |rest|
    {
      var bytesToCopy := 64 - bufferLength;
      if bytesToCopy > |rest| {
        bytesToCopy := |rest|;
      }
      AbsorbConcat(Value(), rest[..bytesToCopy], rest[bytesToCopy..]);
      assert rest[..bytesToCopy] + rest[bytesToCopy..] == rest;
      CopyIn(rest[..bytesToCopy]);
      rest' := rest[bytesToCopy..];
    }

    /** SHA1Update under SHA1_FAST_COPY: whole blocks go to SHA1Guts straight from the input. */
    method FastUpdate(data: seq<Byte>)
      requires Valid()
      modifies this, buffer
      ensures Valid() && Value() == Absorb(old(Value()), data)
    {
      var rest := data;
      if bufferLength > 0 {
        rest := CopyPrefix(rest);
      }
      while |rest| > 63
        invariant Valid() && Absorb(Value(), rest) == Absorb(old(Value()), data)
        invariant |rest| > 0 ==> bufferLength == 0
        decreases |rest|
      {
        AbsorbConcat(Value(), rest[..64], rest[64..]);
        assert rest[..64] + rest[64..] == rest;
        CompressInput(rest[..64]);
        rest := rest[64..];
      }
      if |rest| > 0 {
        CopyIn(rest);
      } else {
        AbsorbNothing(Value());
      }
    }

    /** The body of the SHA1_FAST_COPY loop. */
    method CompressInput(block: seq<Byte>)
      requires Valid() && bufferLength == 0 && |block| == 64
      modifies this
      ensures Valid() && bufferLength == 0 && Value() == Absorb(old(Value()), block)
    {
      ghost var c := Value();
      totalLength := CountBits(totalLength, 64);
      Guts(block);
      assert c.tail + block == block;
      AbsorbBlock(c, block);
    }

    /** Either version of SHA1Update. */
    method UpdateWith(data: seq<Byte>, fast: bool)
      requires Valid()
      modifies this, buffer
      ensures Valid() && Value() == Absorb(old(Value()), data)
    {
      if fast {
        FastUpdate(data);
      } else {
        Update(data);
      }
    }

    /** The padding half of SHA1Final: the length is read before the padding changes it. */
    method PadOut(fast: bool)
      requires Valid()
      modifies this, buffer
      ensures Valid() && Value() == Finish(old(Value()))
    {
      var bytesToPad := 120 - bufferLength;
      if bytesToPad > 64 {
        bytesToPad := bytesToPad - 64;
      }
      var lengthPad := LengthInMemory(totalLength);
      UpdateWith(PaddingArray()[..bytesToPad], fast);
      UpdateWith(lengthPad, fast);
    }

    /** SHA1Final; fast stands for SHA1_FAST_COPY. */
    method Final(target: array?<Byte>, fast: bool)
      requires Valid()
      requires target != null ==> target.Length == 20 && target != buffer
      modifies this, buffer
      modifies if target == null then {} else {target}
      ensures Valid() && Value() == Finish(old(Value()))
      ensures target != null ==> target[..] == Digest(Finish(old(Value())).hash)
    {
      PadOut(fast);
      if target != null {
        WriteDigest([hash.a, hash.b, hash.c, hash.d, hash.e], target, fast);
      }
    }

    /** The output loop of SHA1Final, in both its forms. */
    static method WriteDigest(words: seq<Word>, target: array<Byte>, fast: bool)
      requires |words| == 5 && target.Length == 20
      modifies target
      ensures target[..] == AllBytes(words)
    {
      for i := 0 to 5
        invariant target[..4 * i] == AllBytes(words[..i])
      {
        assert words[..i + 1][..i] == words[..i];
        if fast {
          SwappedStoreIsBigEndian(words[i]);
          WriteFour(target, 4 * i, Store(ByteSwap(words[i])));
        } else {
          WriteFour(target, 4 * i, WordBytes(words[i]));
        }
      }
      assert words[..5] == words && target[..20] == target[..];
    }

    static method WriteFour(target: array<Byte>, at: nat, bytes: seq<Byte>)
      requires at + 4 <= target.Length && |bytes| == 4
      modifies target
      ensures target[..at + 4] == old(target[..at]) + bytes
    {
      target[at], target[at + 1], target[at + 2], target[at + 3] := bytes[0], bytes[1], bytes[2], bytes[3];
    }
  }

  lemma {:induction false} AbsorbNothing(c: Context)
    requires c.Valid()
    ensures Absorb(c, []) == c
  {
    AbsorbShort(c, []);
    assert c.tail + [] == c.tail;
    CountBitsExact(c.total, 0);
  }

  /** shahash in chunk.c: the digest that chunks are verified with. */
  method ShaHash(str: seq<Byte>, target: array<Byte>)
    requires target.Length == 20 && 8 * |str| < TWO_TO_64
    modifies target
    ensures target[..] == Fips180.Sha1(str)
  {
    var sha := new Sha1Context();
    sha.Update(str);
    sha.Final(target, false);
    FinishIsSha1(str);
  }
}
