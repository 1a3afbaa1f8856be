/**
 The substitution table of the C++ AES cipher and the arithmetic of GF(2^8) that FIPS 197
 defines it by: every entry is the affine image of the multiplicative inverse (section 5.1.1).
 */
module AesTables {
  // kSbox[b]: one row of the table per value of the high four bits.
  function Sbox(b: bv8): bv8 {
    var h, l := b >> 4, b & 0x0F;
    if h == 0 then (
      if l < 4 then if l < 2 then if l < 1 then 0x63 else 0x7C else if l < 3 then 0x77 else 0x7B
      else if l < 8 then if l < 6 then if l < 5 then 0xF2 else 0x6B else if l < 7 then 0x6F else 0xC5
      else if l < 12 then if l < 10 then if l < 9 then 0x30 else 0x01 else if l < 11 then 0x67 else 0x2B
      else if l < 14 then if l < 13 then 0xFE else 0xD7 else if l < 15 then 0xAB else 0x76)
    else if h == 1 then (
      if l < 4 then if l < 2 then if l < 1 then 0xCA else 0x82 else if l < 3 then 0xC9 else 0x7D
      else if l < 8 then if l < 6 then if l < 5 then 0xFA else 0x59 else if l < 7 then 0x47 else 0xF0
      else if l < 12 then if l < 10 then if l < 9 then 0xAD else 0xD4 else if l < 11 then 0xA2 else 0xAF
      else if l < 14 then if l < 13 then 0x9C else 0xA4 else if l < 15 then 0x72 else 0xC0)
    else if h == 2 then (
      if l < 4 then if l < 2 then if l < 1 then 0xB7 else 0xFD else if l < 3 then 0x93 else 0x26
      else if l < 8 then if l < 6 then if l < 5 then 0x36 else 0x3F else if l < 7 then 0xF7 else 0xCC
      else if l < 12 then if l < 10 then if l < 9 then 0x34 else 0xA5 else if l < 11 then 0xE5 else 0xF1
      else if l < 14 then if l < 13 then 0x71 else 0xD8 else if l < 15 then 0x31 else 0x15)
    else if h == 3 then (
      if l < 4 then if l < 2 then if l < 1 then 0x04 else 0xC7 else if l < 3 then 0x23 else 0xC3
      else if l < 8 then if l < 6 then if l < 5 then 0x18 else 0x96 else if l < 7 then 0x05 else 0x9A
      else if l < 12 then if l < 10 then if l < 9 then 0x07 else 0x12 else if l < 11 then 0x80 else 0xE2
      else if l < 14 then if l < 13 then 0xEB else 0x27 else if l < 15 then 0xB2 else 0x75)
    else if h == 4 then (
      if l < 4 then if l < 2 then if l < 1 then 0x09 else 0x83 else if l < 3 then 0x2C else 0x1A
      else if l < 8 then if l < 6 then if l < 5 then 0x1B else 0x6E else if l < 7 then 0x5A else 0xA0
      else if l < 12 then if l < 10 then if l < 9 then 0x52 else 0x3B else if l < 11 then 0xD6 else 0xB3
      else if l < 14 then if l < 13 then 0x29 else 0xE3 else if l < 15 then 0x2F else 0x84)
    else if h == 5 then (
      if l < 4 then if l < 2 then if l < 1 then 0x53 else 0xD1 else if l < 3 then 0x00 else 0xED
      else if l < 8 then if l < 6 then if l < 5 then 0x20 else 0xFC else if l < 7 then 0xB1 else 0x5B
      else if l < 12 then if l < 10 then if l < 9 then 0x6A else 0xCB else if l < 11 then 0xBE else 0x39
      else if l < 14 then if l < 13 then 0x4A else 0x4C else if l < 15 then 0x58 else 0xCF)
    else if h == 6 then (
      if l < 4 then if l < 2 then if l < 1 then 0xD0 else 0xEF else if l < 3 then 0xAA else 0xFB
      else if l < 8 then if l < 6 then if l < 5 then 0x43 else 0x4D else if l < 7 then 0x33 else 0x85
      else if l < 12 then if l < 10 then if l < 9 then 0x45 else 0xF9 else if l < 11 then 0x02 else 0x7F
      else if l < 14 then if l < 13 then 0x50 else 0x3C else if l < 15 then 0x9F else 0xA8)
    else if h == 7 then (
      if l < 4 then if l < 2 then if l < 1 then 0x51 else 0xA3 else if l < 3 then 0x40 else 0x8F
      else if l < 8 then if l < 6 then if l < 5 then 0x92 else 0x9D else if l < 7 then 0x38 else 0xF5
      else if l < 12 then if l < 10 then if l < 9 then 0xBC else 0xB6 else if l < 11 then 0xDA else 0x21
      else if l < 14 then if l < 13 then 0x10 else 0xFF else if l < 15 then 0xF3 else 0xD2)
    else if h == 8 then (
      if l < 4 then if l < 2 then if l < 1 then 0xCD else 0x0C else if l < 3 then 0x13 else 0xEC
      else if l < 8 then if l < 6 then if l < 5 then 0x5F else 0x97 else if l < 7 then 0x44 else 0x17
      else if l < 12 then if l < 10 then if l < 9 then 0xC4 else 0xA7 else if l < 11 then 0x7E else 0x3D
      else if l < 14 then if l < 13 then 0x64 else 0x5D else if l < 15 then 0x19 else 0x73)
    else if h == 9 then (
      if l < 4 then if l < 2 then if l < 1 then 0x60 else 0x81 else if l < 3 then 0x4F else 0xDC
      else if l < 8 then if l < 6 then if l < 5 then 0x22 else 0x2A else if l < 7 then 0x90 else 0x88
      else if l < 12 then if l < 10 then if l < 9 then 0x46 else 0xEE else if l < 11 then 0xB8 else 0x14
      else if l < 14 then if l < 13 then 0xDE else 0x5E else if l < 15 then 0x0B else 0xDB)
    else if h == 10 then (
      if l < 4 then if l < 2 then if l < 1 then 0xE0 else 0x32 else if l < 3 then 0x3A else 0x0A
      else if l < 8 then if l < 6 then if l < 5 then 0x49 else 0x06 else if l < 7 then 0x24 else 0x5C
      else if l < 12 then if l < 10 then if l < 9 then 0xC2 else 0xD3 else if l < 11 then 0xAC else 0x62
      else if l < 14 then if l < 13 then 0x91 else 0x95 else if l < 15 then 0xE4 else 0x79)
    else if h == 11 then (
      if l < 4 then if l < 2 then if l < 1 then 0xE7 else 0xC8 else if l < 3 then 0x37 else 0x6D
      else if l < 8 then if l < 6 then if l < 5 then 0x8D else 0xD5 else if l < 7 then 0x4E else 0xA9
      else if l < 12 then if l < 10 then if l < 9 then 0x6C else 0x56 else if l < 11 then 0xF4 else 0xEA
      else if l < 14 then if l < 13 then 0x65 else 0x7A else if l < 15 then 0xAE else 0x08)
    else if h == 12 then (
      if l < 4 then if l < 2 then if l < 1 then 0xBA else 0x78 else if l < 3 then 0x25 else 0x2E
      else if l < 8 then if l < 6 then if l < 5 then 0x1C else 0xA6 else if l < 7 then 0xB4 else 0xC6
      else if l < 12 then if l < 10 then if l < 9 then 0xE8 else 0xDD else if l < 11 then 0x74 else 0x1F
      else if l < 14 then if l < 13 then 0x4B else 0xBD else if l < 15 then 0x8B else 0x8A)
    else if h == 13 then (
      if l < 4 then if l < 2 then if l < 1 then 0x70 else 0x3E else if l < 3 then 0xB5 else 0x66
      else if l < 8 then if l < 6 then if l < 5 then 0x48 else 0x03 else if l < 7 then 0xF6 else 0x0E
      else if l < 12 then if l < 10 then if l < 9 then 0x61 else 0x35 else if l < 11 then 0x57 else 0xB9
      else if l < 14 then if l < 13 then 0x86 else 0xC1 else if l < 15 then 0x1D else 0x9E)
    else if h == 14 then (
      if l < 4 then if l < 2 then if l < 1 then 0xE1 else 0xF8 else if l < 3 then 0x98 else 0x11
      else if l < 8 then if l < 6 then if l < 5 then 0x69 else 0xD9 else if l < 7 then 0x8E else 0x94
      else if l < 12 then if l < 10 then if l < 9 then 0x9B else 0x1E else if l < 11 then 0x87 else 0xE9
      else if l < 14 then if l < 13 then 0xCE else 0x55 else if l < 15 then 0x28 else 0xDF)
    else (
      if l < 4 then if l < 2 then if l < 1 then 0x8C else 0xA1 else if l < 3 then 0x89 else 0x0D
      else if l < 8 then if l < 6 then if l < 5 then 0xBF else 0xE6 else if l < 7 then 0x42 else 0x68
      else if l < 12 then if l < 10 then if l < 9 then 0x41 else 0x99 else if l < 11 then 0x2D else 0x0F
      else if l < 14 then if l < 13 then 0xB0 else 0x54 else if l < 15 then 0xBB else 0x16)
  }

  // kRcon[1..10]
  function Rcon(i: nat): bv8
    requires 1 <= i <= 10
  {
    [0x01, 0x02, 0x04, 0x08, 0x10, 0x20, 0x40, 0x80, 0x1B, 0x36][i - 1]
  }

  // Multiplication by {02}.
  function Xtime(b: bv8): bv8 {
    if b & 0x80 != 0 then (b << 1) ^ 0x1B else b << 1
  }

  // x^n in GF(2^8).
  function XPower(n: nat): bv8 {
    if n == 0 then 1 else Xtime(XPower(n - 1))
  }

  function When(bit: bv8, b: bv8): bv8 {
    if bit != 0 then b else 0
  }

  // Multiplication in GF(2^8) (section 4.2): the multiples of a selected by the bits of b.
  function GMul(a: bv8, b: bv8): bv8 {
    var a1 := Xtime(a);
    var a2 := Xtime(a1);
    var a3 := Xtime(a2);
    var a4 := Xtime(a3);
    var a5 := Xtime(a4);
    var a6 := Xtime(a5);
    var a7 := Xtime(a6);
    When(b & 0x01, a) ^ When(b & 0x02, a1) ^ When(b & 0x04, a2) ^ When(b & 0x08, a3) ^
    When(b & 0x10, a4) ^ When(b & 0x20, a5) ^ When(b & 0x40, a6) ^ When(b & 0x80, a7)
  }

  // The affine transformation (5.2) and its inverse.
  function Affine(b: bv8): bv8 {
    b ^ ((b << 1) | (b >> 7)) ^ ((b << 2) | (b >> 6)) ^ ((b << 3) | (b >> 5)) ^ ((b << 4) | (b >> 4)) ^ 0x63
  }

  function InverseAffine(y: bv8): bv8 {
    ((y << 1) | (y >> 7)) ^ ((y << 3) | (y >> 5)) ^ ((y << 6) | (y >> 2)) ^ 0x05
  }

  // The field inverse read off the table.
  function Inverse(b: bv8): bv8 {
    InverseAffine(Sbox(b))
  }

  lemma AffineInverts(b: bv8)
    ensures Affine(InverseAffine(b)) == b
  {
  }

  lemma TableInverse(b: bv8)
    ensures if b == 0 then Inverse(b) == 0 else GMul(b, Inverse(b)) == 1
  {
  }

  /** kSbox is the affine image of the multiplicative inverse, with 0 its own inverse. */
  lemma SboxIsAffineOfInverse(b: bv8)
    ensures Sbox(b) == Affine(Inverse(b))
    ensures if b == 0 then Inverse(b) == 0 else GMul(b, Inverse(b)) == 1
  {
    hide GMul, Sbox;
    AffineInverts(Sbox(b));
    TableInverse(b);
  }

  lemma InverseInverts(b: bv8)
    ensures Inverse(Inverse(b)) == b
  {
  }

  lemma SboxOneToOne(a: bv8, b: bv8)
    requires Sbox(a) == Sbox(b)
    ensures a == b
  {
    InverseInverts(a);
    InverseInverts(b);
  }

  // The round constants are the successive powers of x (section 5.2).
  lemma RconIsPower(i: nat)
    requires 1 <= i <= 10
    ensures Rcon(i) == XPower(i - 1)
  {
    if i > 1 {
      RconIsPower(i - 1);
      RconStep(i);
    }
  }

  lemma RconStep(i: nat)
    requires 2 <= i <= 10
    ensures Rcon(i) == Xtime(Rcon(i - 1))
  {
  }

  /** Multiplication by {02} is linear. */
  lemma XtimeXor(a: bv8, b: bv8)
    ensures Xtime(a ^ b) == Xtime(a) ^ Xtime(b)
  {
    if a & 0x80 != 0 {
      if b & 0x80 != 0 {
        assert (a ^ b) & 0x80 == 0;
      } else {
        assert (a ^ b) & 0x80 != 0;
      }
    } else if b & 0x80 != 0 {
      assert (a ^ b) & 0x80 != 0;
    } else {
      assert (a ^ b) & 0x80 == 0;
    }
  }
}
