/** `Connection::Scramble` (connection.h) on 64-bit words. */
module Scrambling {
  const LOW_56: bv64 := 0x00FF_FFFF_FFFF_FFFF

  /** Exchanges the two halves of each of the seven low bytes and clears the top byte. */
  function SwapNibbles(o: bv64): bv64 {
    ((o & 0x00F0F0F0F0F0F0F0) >> 4) | ((o & 0x000F0F0F0F0F0F0F) << 4)
  }

  function Finish(o: bv64): bv64 {
    o ^ 0xC0DEFACE12345678
  }

  function Scramble(input: bv64): bv64 {
    Finish(SwapNibbles(input ^ 0xDEADBEEFC0DECAFE))
  }

  /** Undoes `Scramble` up to the byte it drops. */
  function Unscramble(output: bv64): bv64 {
    SwapNibbles(Finish(output)) ^ 0x00ADBEEFC0DECAFE
  }

  /** The two half-bytes of each of the seven low bytes change places, and the top byte is cleared. */
  lemma HalfBytesSwap(o: bv64)
    ensures var s := SwapNibbles(o);
            && s & 0xF == (o >> 4) & 0xF && (s >> 4) & 0xF == o & 0xF
            && (s >> 8) & 0xF == (o >> 12) & 0xF && (s >> 12) & 0xF == (o >> 8) & 0xF
            && (s >> 16) & 0xF == (o >> 20) & 0xF && (s >> 20) & 0xF == (o >> 16) & 0xF
            && (s >> 24) & 0xF == (o >> 28) & 0xF && (s >> 28) & 0xF == (o >> 24) & 0xF
            && (s >> 32) & 0xF == (o >> 36) & 0xF && (s >> 36) & 0xF == (o >> 32) & 0xF
            && (s >> 40) & 0xF == (o >> 44) & 0xF && (s >> 44) & 0xF == (o >> 40) & 0xF
            && (s >> 48) & 0xF == (o >> 52) & 0xF && (s >> 52) & 0xF == (o >> 48) & 0xF
            && s >> 56 == 0
  {
  }

  lemma SwapTwice(o: bv64)
    ensures SwapNibbles(SwapNibbles(o)) == o & LOW_56
  {
  }

  lemma XorTwice(x: bv64, k: bv64)
    ensures (x ^ k) ^ k == x
  {
  }

  lemma LowOfXor(x: bv64)
    ensures (x ^ 0xDEADBEEFC0DECAFE) & LOW_56 == (x & LOW_56) ^ 0x00ADBEEFC0DECAFE
  {
  }

  lemma UnscrambleScramble(x: bv64)
    ensures Unscramble(Scramble(x)) == x & LOW_56
  {
    XorTwice(SwapNibbles(x ^ 0xDEADBEEFC0DECAFE), 0xC0DEFACE12345678);
    SwapTwice(x ^ 0xDEADBEEFC0DECAFE);
    LowOfXor(x);
    XorTwice(x & LOW_56, 0x00ADBEEFC0DECAFE);
  }

  /** `Scramble` computed from the low 56 bits alone. */
  function ScrambleLow(low: bv64): bv64 {
    Finish(SwapNibbles(low ^ 0x00ADBEEFC0DECAFE))
  }

  lemma SwapDropsTop(x: bv64)
    ensures SwapNibbles(x ^ 0xDEADBEEFC0DECAFE) == SwapNibbles((x & LOW_56) ^ 0x00ADBEEFC0DECAFE)
  {
  }

  lemma ScrambleIsLow(x: bv64)
    ensures Scramble(x) == ScrambleLow(x & LOW_56)
  {
    SwapDropsTop(x);
  }

  /** Two answers. */
  lemma KnownAnswers()
    ensures Scramble(0) == 0xC00411301ED9FA97 && Scramble(0x0123456789ABCDEF) == 0xC036454686632669
  {
  }

  /** An answer identifies its challenge up to the top byte, and no further. */
  lemma ScrambleCollision(x: bv64, y: bv64)
    ensures Scramble(x) == Scramble(y) <==> x & LOW_56 == y & LOW_56
  {
    if x & LOW_56 == y & LOW_56 {
      ScrambleIsLow(x);
      ScrambleIsLow(y);
    }
    if Scramble(x) == Scramble(y) {
      UnscrambleScramble(x);
      UnscrambleScramble(y);
    }
  }
}
