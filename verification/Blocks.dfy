/** Arithmetic on the 64-byte blocks of SHA-1. */
module Blocks {

  const TWO_TO_64 := 0x1_0000_0000_0000_0000

  /** The 64-bit bit counter after n more bytes, wrap-around included. */
  function CountBits(total: nat, n: nat): (r: nat)
    ensures r < TWO_TO_64
  {
    (total + 8 * n) % TWO_TO_64
  }

  lemma {:induction false} CountBitsTwice(total: nat, m: nat, n: nat)
    ensures CountBits(CountBits(total, m), n) == CountBits(total, m + n)
  {
  }

  lemma {:induction false} CountBitsExact(total: nat, n: nat)
    requires total + 8 * n < TWO_TO_64
    ensures CountBits(total, n) == total + 8 * n
  {
  }

  /** How many of n bytes lie in complete blocks. */
  function Whole(n: nat): (w: nat)
    ensures w <= n < w + 64 && w % 64 == 0
  {
    n / 64 * 64
  }

  lemma {:induction false} WholeOfSum(w: nat, n: nat)
    requires w % 64 == 0
    ensures Whole(w + n) == w + Whole(n)
  {
  }

  lemma {:induction false} WholeOfMultiple(n: nat)
    ensures n % 64 == 0 <==> Whole(n) == n
    ensures n < 64 <==> Whole(n) == 0
  {
  }

  /** The number of zero bytes of section 5.1.1 of FIPS 180-4 in front of the length field. */
  function PadZeros(n: nat): (z: nat)
    ensures z < 64 && (n + 1 + z + 8) % 64 == 0
  {
    (55 - n % 64) % 64
  }

  /** Section 5.1.1 asks for the smallest such number. */
  lemma {:induction false} PadZerosIsSmallest(n: nat, k: nat)
    requires (n + 1 + k + 8) % 64 == 0
    ensures PadZeros(n) <= k
  {
  }

  /** The padding length that SHA1Final computes from the number of buffered bytes. */
  function BytesToPad(buffered: nat): (n: nat)
    requires buffered < 64
    ensures 1 <= n <= 64 && (buffered + n) % 64 == 56
  {
    if 120 - buffered > 64 then 120 - buffered - 64 else 120 - buffered
  }

  lemma {:induction false} BytesToPadIsPadZeros(n: nat)
    ensures BytesToPad(n - Whole(n)) == 1 + PadZeros(n)
  {
  }
}
