/** The 32-bit word operations of SHA-1: the definitions of FIPS 180-4 beside the macros of sha.c. */
module Words {

  type Byte = bv8

  type Word = bv32

  /** The five working variables, and also an intermediate hash value (sections 5.3.1 and 6.1.2). */
  datatype Vars = Vars(a: Word, b: Word, c: Word, d: Word, e: Word)

  function Rotl(x: Word, n: Word): Word
    requires 0 < n < 32
  {
    (x << n) | (x >> (32 - n))
  }

  function Rotr(x: Word, n: Word): Word
    requires 0 < n < 32
  {
    (x >> n) | (x << (32 - n))
  }

  // Section 4.1.1 of FIPS 180-4.

  function Ch(x: Word, y: Word, z: Word): Word { (x & y) ^ (!x & z) }

  function Parity(x: Word, y: Word, z: Word): Word { x ^ y ^ z }

  function Maj(x: Word, y: Word, z: Word): Word { (x & y) ^ (x & z) ^ (y & z) }

  /** One turn of step 3 of section 6.1.2, with f and k already chosen. */
  function Turn(v: Vars, f: Word, k: Word, w: Word): Vars
  {
    Vars(Rotl(v.a, 5) + f + v.e + k + w, v.a, Rotl(v.b, 30), v.c, v.d)
  }

  /** Step 4 of section 6.1.2. */
  function Add(h: Vars, v: Vars): Vars
  {
    Vars(h.a + v.a, h.b + v.b, h.c + v.c, h.d + v.d, h.e + v.e)
  }

  /** A word parsed from four bytes (section 5.2.1). */
  function BigEndian(b0: Byte, b1: Byte, b2: Byte, b3: Byte): Word
  {
    ((b0 as Word) << 24) | ((b1 as Word) << 16) | ((b2 as Word) << 8) | (b3 as Word)
  }

  function WordBytes(w: Word): seq<Byte>
  {
    [((w >> 24) & 0xff) as Byte, ((w >> 16) & 0xff) as Byte, ((w >> 8) & 0xff) as Byte, (w & 0xff) as Byte]
  }

  /** Mixing four schedule words into the next one (step 1 of section 6.1.2). */
  function Mix(w3: Word, w8: Word, w14: Word, w16: Word): Word
  {
    Rotl(w3 ^ w8 ^ w14 ^ w16, 1)
  }

  // The macros.

  function F_0_19(x: Word, y: Word, z: Word): Word { z ^ (x & (y ^ z)) }

  function F_20_39(x: Word, y: Word, z: Word): Word { x ^ y ^ z }

  function F_40_59(x: Word, y: Word, z: Word): Word { (x & (y | z)) | (y & z) }

  function F_60_79(x: Word, y: Word, z: Word): Word { x ^ y ^ z }

  function DoRound(v: Vars, f: Word, k: Word, w: Word): Vars
  {
    var temp := Rotl(v.a, 5) + f + v.e + w + k;
    Vars(temp, v.a, Rotl(v.b, 30), v.c, v.d)
  }

  function ByteSwap(x: Word): Word
  {
    (Rotr(x, 8) & 0xff00ff00) | (Rotl(x, 8) & 0x00ff00ff)
  }

  function ByteSwap64(x: bv64): bv64
  {
    Join(ByteSwap(Low(x)), ByteSwap(High(x)))
  }

  function High(x: bv64): Word { (x >> 32) as Word }

  function Low(x: bv64): Word { (x & 0xffff_ffff) as Word }

  function Join(hi: Word, lo: Word): bv64
  {
    ((hi as bv64) << 32) | (lo as bv64)
  }

  // Memory of a little-endian machine.

  function Load(b0: Byte, b1: Byte, b2: Byte, b3: Byte): Word
  {
    (b0 as Word) | ((b1 as Word) << 8) | ((b2 as Word) << 16) | ((b3 as Word) << 24)
  }

  function Store(w: Word): seq<Byte>
  {
    [(w & 0xff) as Byte, ((w >> 8) & 0xff) as Byte, ((w >> 16) & 0xff) as Byte, ((w >> 24) & 0xff) as Byte]
  }

  function Store64(x: bv64): seq<Byte>
  {
    Store(Low(x)) + Store(High(x))
  }

  /** The most significant byte first: what the length field of section 5.1.1 looks like. */
  function DoubleWordBytes(x: bv64): seq<Byte>
  {
    WordBytes(High(x)) + WordBytes(Low(x))
  }

  // What the rewritten operations compute.

  lemma {:induction false} RewrittenChoice(x: Word, y: Word, z: Word)
    ensures F_0_19(x, y, z) == Ch(x, y, z)
  {
    assert (z ^ (x & (y ^ z))) == ((x & y) ^ (!x & z));
  }

  lemma {:induction false} RewrittenMajority(x: Word, y: Word, z: Word)
    ensures F_40_59(x, y, z) == Maj(x, y, z)
  {
    assert ((x & (y | z)) | (y & z)) == ((x & y) ^ (x & z) ^ (y & z));
  }

  lemma {:induction false} DoRoundIsTurn(v: Vars, f: Word, k: Word, w: Word)
    ensures DoRound(v, f, k, w) == Turn(v, f, k, w)
  {
  }

  lemma {:induction false} SwappedLoadIsBigEndian(b0: Byte, b1: Byte, b2: Byte, b3: Byte)
    ensures ByteSwap(Load(b0, b1, b2, b3)) == BigEndian(b0, b1, b2, b3)
  {
  }

  lemma {:induction false} SwappedStoreIsBigEndian(w: Word)
    ensures Store(ByteSwap(w)) == WordBytes(w)
  {
  }

  lemma {:induction false} JoinHalves(hi: Word, lo: Word)
    ensures High(Join(hi, lo)) == hi && Low(Join(hi, lo)) == lo
  {
  }

  /** Writing the swapped 64-bit count to little-endian memory gives the big-endian field. */
  lemma {:induction false} SwappedStore64IsBigEndian(x: bv64)
    ensures Store64(ByteSwap64(x)) == DoubleWordBytes(x)
  {
    JoinHalves(ByteSwap(Low(x)), ByteSwap(High(x)));
    SwappedStoreIsBigEndian(High(x));
    SwappedStoreIsBigEndian(Low(x));
  }
}
