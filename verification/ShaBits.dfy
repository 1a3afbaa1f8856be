/**
 What the logical functions of SHA-256 do to each bit (section 4.1.2 of FIPS 180-4).  A bit index
 is a bv5, so that its sums are modulo 32; bit 0 is the least significant.
 */
module ShaBits {
  import opened Sha

  function Bit(w: bv32, k: bv5): bool {
    (w >> k) & 1 != 0
  }

  lemma PlainXorBit(a: bv32, b: bv32, k: bv5)
    ensures Bit(a ^ b, k) == (Bit(a, k) != Bit(b, k))
  {
  }

  lemma XorBit(a: bv32, b: bv32, k: bv5)
    ensures Bit(XorWord(a, b), k) == (Bit(a, k) != Bit(b, k))
  {
    hide Bit;
    PlainXorBit(a, b, k);
  }

  lemma PlainOrBit(a: bv32, b: bv32, k: bv5)
    ensures Bit(a | b, k) == (Bit(a, k) || Bit(b, k))
  {
  }

  lemma OrBit(a: bv32, b: bv32, k: bv5)
    ensures Bit(OrWord(a, b), k) == (Bit(a, k) || Bit(b, k))
  {
    hide Bit;
    PlainOrBit(a, b, k);
  }

  lemma AndBit(a: bv32, b: bv32, k: bv5)
    ensures Bit(AndWord(a, b), k) == (Bit(a, k) && Bit(b, k))
  {
  }

  lemma NotBit(a: bv32, k: bv5)
    ensures Bit(!a, k) == !Bit(a, k)
  {
  }

  lemma Xor3Bit(a: bv32, b: bv32, c: bv32, k: bv5)
    ensures Bit(Xor3(a, b, c), k) == ((Bit(a, k) != Bit(b, k)) != Bit(c, k))
  {
    hide Bit, XorWord;
    XorBit(a, b, k);
    XorBit(XorWord(a, b), c, k);
  }

  lemma ShiftedBit(v: bv32, k: bv5, n: bv6)
    requires 0 < n < 32
    ensures Bit(ShiftRight(v, n), k) == (k as bv6 + n < 32 && Bit(v, k + n as bv5))
  {
  }

  lemma LeftBit(v: bv32, k: bv5, n: bv6)
    requires 0 < n < 32
    ensures Bit(ShiftLeft(v, n), k) == (k as bv6 >= n && Bit(v, k - n as bv5))
  {
  }

  lemma RotatedBit(v: bv32, n: bv6, k: bv5)
    requires 0 < n < 32
    ensures Bit(RotateRight(v, n), k) == Bit(v, k + n as bv5)
  {
    hide Bit, ShiftRight, ShiftLeft, OrWord;
    ShiftedBit(v, k, n);
    LeftBit(v, k, 32 - n);
    OrBit(ShiftRight(v, n), ShiftLeft(v, 32 - n), k);
  }

  lemma BigSigma0Bits(v: bv32, k: bv5)
    ensures Bit(BigSigma0(v), k) == ((Bit(v, k + 2) != Bit(v, k + 13)) != Bit(v, k + 22))
  {
    hide Bit, RotateRight, Xor3;
    RotatedBit(v, 2, k);
    RotatedBit(v, 13, k);
    RotatedBit(v, 22, k);
    Xor3Bit(RotateRight(v, 2), RotateRight(v, 13), RotateRight(v, 22), k);
  }

  lemma BigSigma1Bits(v: bv32, k: bv5)
    ensures Bit(BigSigma1(v), k) == ((Bit(v, k + 6) != Bit(v, k + 11)) != Bit(v, k + 25))
  {
    hide Bit, RotateRight, Xor3;
    RotatedBit(v, 6, k);
    RotatedBit(v, 11, k);
    RotatedBit(v, 25, k);
    Xor3Bit(RotateRight(v, 6), RotateRight(v, 11), RotateRight(v, 25), k);
  }

  lemma SmallSigma0Bits(v: bv32, k: bv5)
    ensures Bit(SmallSigma0(v), k) == ((Bit(v, k + 7) != Bit(v, k + 18)) != (k < 29 && Bit(v, k + 3)))
  {
    hide Bit, RotateRight, ShiftRight, Xor3;
    RotatedBit(v, 7, k);
    RotatedBit(v, 18, k);
    ShiftedBit(v, k, 3);
    Xor3Bit(RotateRight(v, 7), RotateRight(v, 18), ShiftRight(v, 3), k);
  }

  lemma SmallSigma1Bits(v: bv32, k: bv5)
    ensures Bit(SmallSigma1(v), k) == ((Bit(v, k + 17) != Bit(v, k + 19)) != (k < 22 && Bit(v, k + 10)))
  {
    hide Bit, RotateRight, ShiftRight, Xor3;
    RotatedBit(v, 17, k);
    RotatedBit(v, 19, k);
    ShiftedBit(v, k, 10);
    Xor3Bit(RotateRight(v, 17), RotateRight(v, 19), ShiftRight(v, 10), k);
  }

  /** Each bit of x chooses between the bits of y and z. */
  lemma ChSelects(x: bv32, y: bv32, z: bv32, k: bv5)
    ensures Bit(Ch(x, y, z), k) == if Bit(x, k) then Bit(y, k) else Bit(z, k)
  {
    hide Bit, XorWord, AndWord;
    NotBit(x, k);
    AndBit(x, y, k);
    AndBit(!x, z, k);
    XorBit(AndWord(x, y), AndWord(!x, z), k);
  }

  /** Each bit is the one that at least two of the arguments have. */
  lemma MajIsMajority(x: bv32, y: bv32, z: bv32, k: bv5)
    ensures Bit(Maj(x, y, z), k) == if Bit(x, k) == Bit(y, k) then Bit(x, k) else Bit(z, k)
  {
    hide Bit, Xor3, AndWord;
    AndBit(x, y, k);
    AndBit(x, z, k);
    AndBit(y, z, k);
    Xor3Bit(AndWord(x, y), AndWord(x, z), AndWord(y, z), k);
  }
}
