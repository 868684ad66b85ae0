/** SHA-1 as FIPS 180-4 defines it: the reference that the streaming code is proved against. */
module Fips180 {
  import opened Words
  import opened Blocks

  /** Section 5.3.1. */
  const H0 := Vars(0x67452301, 0xefcdab89, 0x98badcfe, 0x10325476, 0xc3d2e1f0)

  /** Section 4.1.1. */
  function F(t: nat, x: Word, y: Word, z: Word): Word
  {
    if t < 20 then Ch(x, y, z)
    else if t < 40 then Parity(x, y, z)
    else if t < 60 then Maj(x, y, z)
    else Parity(x, y, z)
  }

  /** Section 4.2.1. */
  function K(t: nat): Word
  {
    if t < 20 then 0x5a827999
    else if t < 40 then 0x6ed9eba1
    else if t < 60 then 0x8f1bbcdc
    else 0xca62c1d6
  }

  /** Section 5.2.1 for t < 16 and step 1 of section 6.1.2 for the rest. */
  function Schedule(block: seq<Byte>, t: nat): Word
    requires |block| == 64
  {
    if t < 16 then
      BigEndian(block[4 * t], block[4 * t + 1], block[4 * t + 2], block[4 * t + 3])
    else
      Mix(Schedule(block, t - 3), Schedule(block, t - 8), Schedule(block, t - 14), Schedule(block, t - 16))
  }

  /** The working variables after t of the 80 rounds (step 3 of section 6.1.2). */
  function Rounds(h: Vars, block: seq<Byte>, t: nat): Vars
    requires |block| == 64
  {
    if t == 0 then h else
      var v := Rounds(h, block, t - 1);
      Turn(v, F(t - 1, v.b, v.c, v.d), K(t - 1), Schedule(block, t - 1))
  }

  const ROUNDS: nat := 80

  function Compress(h: Vars, block: seq<Byte>): Vars
    requires |block| == 64
  {
    Add(h, Rounds(h, block, ROUNDS))
  }

  function HashBlocks(h: Vars, bytes: seq<Byte>): Vars
    requires |bytes| % 64 == 0
    decreases |bytes|
  {
    if |bytes| == 0 then h else HashBlocks(Compress(h, bytes[..64]), bytes[64..])
  }

  /** A message length in bits as the 64-bit big-endian field of section 5.1.1. */
  function LengthField(bits: nat): (r: seq<Byte>)
    requires bits < TWO_TO_64
    ensures |r| == 8
  {
    DoubleWordBytes(bits as bv64)
  }

  function Padding(n: nat): (r: seq<Byte>)
    requires 8 * n < TWO_TO_64
    ensures (n + |r|) % 64 == 0
  {
    var marker: seq<Byte> := [0x80] + seq(PadZeros(n), _ => 0);
    assert |marker| == 1 + PadZeros(n);
    marker + LengthField(8 * n)
  }

  function AllBytes(words: seq<Word>): (r: seq<Byte>)
    ensures |r| == 4 * |words|
  {
    if words == [] then [] else AllBytes(words[..|words| - 1]) + WordBytes(words[|words| - 1])
  }

  function Digest(h: Vars): seq<Byte>
  {
    AllBytes([h.a, h.b, h.c, h.d, h.e])
  }

  function Sha1(msg: seq<Byte>): seq<Byte>
    requires 8 * |msg| < TWO_TO_64
  {
    Digest(HashBlocks(H0, msg + Padding(|msg|)))
  }

  lemma {:induction false} HashBlocksConcat(h: Vars, p: seq<Byte>, q: seq<Byte>)
    requires |p| % 64 == 0 && |q| % 64 == 0
    ensures HashBlocks(h, p + q) == HashBlocks(HashBlocks(h, p), q)
    decreases |p|
  {
    if p == [] {
      assert p + q == q;
    } else {
      assert (p + q)[..64] == p[..64] && (p + q)[64..] == p[64..] + q;
      HashBlocksConcat(Compress(h, p[..64]), p[64..], q);
    }
  }
}
