/** Fixed-width integers as bytes: the little-endian fields both envelope formats are made of. */
module Words {
  import opened Bytes

  const U32: nat := 0x1_0000_0000
  const U64: nat := 0x1_0000_0000_0000_0000

  // A binary numeral extended by one digit.
  function Digit(n: nat, bit: bool): nat {
    2 * n + if bit then 1 else 0
  }

  function Odd(n: nat): bool {
    n % 2 == 1
  }

  lemma DigitLaws(n: nat, bit: bool)
    ensures Digit(n, bit) / 2 == n && Odd(Digit(n, bit)) == bit
    ensures Digit(n / 2, Odd(n)) == n
  {
  }

  function Numeral(b0: bool, b1: bool, b2: bool, b3: bool, b4: bool, b5: bool, b6: bool, b7: bool): nat {
    Digit(Digit(Digit(Digit(Digit(Digit(Digit(Digit(0, b0), b1), b2), b3), b4), b5), b6), b7)
  }

  lemma NumeralBound(b0: bool, b1: bool, b2: bool, b3: bool, b4: bool, b5: bool, b6: bool, b7: bool)
    ensures Numeral(b0, b1, b2, b3, b4, b5, b6, b7) < 256
  {
  }

  // The unsigned value of a byte.
  function ByteInt(b: bv8): (n: nat)
    ensures n < 256
  {
    NumeralBound(BitOf(b, 0), BitOf(b, 1), BitOf(b, 2), BitOf(b, 3), BitOf(b, 4), BitOf(b, 5), BitOf(b, 6), BitOf(b, 7));
    Numeral(BitOf(b, 0), BitOf(b, 1), BitOf(b, 2), BitOf(b, 3), BitOf(b, 4), BitOf(b, 5), BitOf(b, 6), BitOf(b, 7))
  }

  function IntByte(n: nat): bv8
    requires n < 256
  {
    var n6 := n / 2;
    var n5 := n6 / 2;
    var n4 := n5 / 2;
    var n3 := n4 / 2;
    var n2 := n3 / 2;
    var n1 := n2 / 2;
    ByteOfBits(Odd(n1 / 2), Odd(n1), Odd(n2), Odd(n3), Odd(n4), Odd(n5), Odd(n6), Odd(n))
  }

  lemma ByteIntOfInt(n: nat)
    requires n < 256
    ensures ByteInt(IntByte(n)) == n
  {
    hide BitOf, ByteOfBits, Odd, Digit;
    var n6 := n / 2;
    var n5 := n6 / 2;
    var n4 := n5 / 2;
    var n3 := n4 / 2;
    var n2 := n3 / 2;
    var n1 := n2 / 2;
    var n0 := n1 / 2;
    BitsOfByte(Odd(n0), Odd(n1), Odd(n2), Odd(n3), Odd(n4), Odd(n5), Odd(n6), Odd(n));
    assert n0 / 2 == 0;
    DigitLaws(n0, false);
    DigitLaws(n1, false);
    DigitLaws(n2, false);
    DigitLaws(n3, false);
    DigitLaws(n4, false);
    DigitLaws(n5, false);
    DigitLaws(n6, false);
    DigitLaws(n, false);
  }

  lemma IntByteOfByte(b: bv8)
    ensures IntByte(ByteInt(b)) == b
  {
    hide BitOf, ByteOfBits, Odd, Digit;
    var m0 := Digit(0, BitOf(b, 0));
    var m1 := Digit(m0, BitOf(b, 1));
    var m2 := Digit(m1, BitOf(b, 2));
    var m3 := Digit(m2, BitOf(b, 3));
    var m4 := Digit(m3, BitOf(b, 4));
    var m5 := Digit(m4, BitOf(b, 5));
    var m6 := Digit(m5, BitOf(b, 6));
    DigitLaws(0, BitOf(b, 0));
    DigitLaws(m0, BitOf(b, 1));
    DigitLaws(m1, BitOf(b, 2));
    DigitLaws(m2, BitOf(b, 3));
    DigitLaws(m3, BitOf(b, 4));
    DigitLaws(m4, BitOf(b, 5));
    DigitLaws(m5, BitOf(b, 6));
    DigitLaws(m6, BitOf(b, 7));
    ByteRoundTrip(b, BitOf(b, 0), BitOf(b, 1), BitOf(b, 2), BitOf(b, 3),
                  BitOf(b, 4), BitOf(b, 5), BitOf(b, 6), BitOf(b, 7));
  }

  function Pow256(n: nat): (p: nat)
    ensures p >= 1
  {
    if n == 0 then 1 else 256 * Pow256(n - 1)
  }

  // The low n bytes of v, least significant first.
  function LE(v: nat, n: nat): (s: Bytes)
    ensures |s| == n
  {
    if n == 0 then [] else [IntByte(v % 256)] + LE(v / 256, n - 1)
  }

  function LEValue(s: Bytes): nat {
    if s == [] then 0 else ByteInt(s[0]) + 256 * LEValue(s[1..])
  }

  lemma LEValueOf4(a: bv8, b: bv8, c: bv8, d: bv8)
    ensures LEValue([a, b, c, d]) == ByteInt(a) + ByteInt(b) * 0x100 + ByteInt(c) * 0x10000 + ByteInt(d) * 0x1000000
  {
    hide ByteInt;
    assert [a, b, c, d][1..] == [b, c, d];
    assert [b, c, d][1..] == [c, d];
    assert [c, d][1..] == [d];
    assert LEValue([d]) == ByteInt(d);
    assert LEValue([c, d]) == ByteInt(c) + 256 * LEValue([d]);
    assert LEValue([b, c, d]) == ByteInt(b) + 256 * LEValue([c, d]);
  }

  // v as eight bytes, most significant first; values of 2^64 and more wrap.
  function BE64(v: nat): (s: Bytes)
    ensures |s| == 8
  {
    var w := LE(v, 8);
    [w[7], w[6], w[5], w[4], w[3], w[2], w[1], w[0]]
  }

  lemma BE64At(v: nat, i: nat)
    requires i < 8
    ensures BE64(v)[i] == IntByte(v / Pow256(7 - i) % 256)
  {
    hide IntByte, LE;
    LEAt(v, 8, 7 - i);
  }

  lemma BE64OneToOne(v: nat, u: nat)
    requires v < U64 && u < U64 && BE64(v) == BE64(u)
    ensures v == u
  {
    hide LE, LEValue;
    Widths();
    LEValueOfLE(v, 8);
    LEValueOfLE(u, 8);
    forall i | 0 <= i < 8
      ensures LE(v, 8)[i] == LE(u, 8)[i]
    {
      assert BE64(v)[7 - i] == BE64(u)[7 - i];
    }
    assert LE(v, 8) == LE(u, 8);
  }

  lemma Widths()
    ensures Pow256(4) == U32 && Pow256(8) == U64
  {
  }

  /** Writing a value keeps it modulo the field width. */
  lemma {:induction false} LEValueOfLE(v: nat, n: nat)
    ensures LEValue(LE(v, n)) == v % Pow256(n)
  {
    hide IntByte, ByteInt;
    if n > 0 {
      LEValueOfLE(v / 256, n - 1);
      ByteIntOfInt(v % 256);
      assert LE(v, n)[1..] == LE(v / 256, n - 1);
      SplitModulo(v, Pow256(n - 1));
    }
  }

  lemma SplitModulo(v: nat, p: nat)
    requires p >= 1
    ensures v % (256 * p) == v % 256 + 256 * (v / 256 % p)
  {
    var q, r := v / 256, v % 256;
    var a, b := q / p, q % p;
    assert v == 256 * (a * p + b) + r;
    assert v == (256 * p) * a + (256 * b + r);
    assert 256 * b + r < 256 * p;
    DivModUnique(v, 256 * p, a, 256 * b + r);
  }

  lemma DivModUnique(v: nat, d: nat, q: nat, r: nat)
    requires d >= 1 && v == d * q + r && r < d
    ensures v % d == r && v / d == q
  {
    var q', r' := v / d, v % d;
    assert v == d * q' + r';
    if q > q' {
      MulMono(d, q' + 1, q);
    } else if q < q' {
      MulMono(d, q + 1, q');
    }
  }

  lemma MulMono(d: nat, a: nat, b: nat)
    requires a <= b
    ensures d * a <= d * b
    ensures a >= 1 ==> d * a == d * (a - 1) + d
  {
  }

  /** Reading a field and writing it back restores the bytes. */
  lemma {:induction false} LEOfLEValue(s: Bytes)
    ensures LEValue(s) < Pow256(|s|)
    ensures LE(LEValue(s), |s|) == s
  {
    hide IntByte, ByteInt;
    if s != [] {
      LEOfLEValue(s[1..]);
      IntByteOfByte(s[0]);
      var v := LEValue(s);
      assert v % 256 == ByteInt(s[0]) && v / 256 == LEValue(s[1..]);
      assert s == [s[0]] + s[1..];
    }
  }

  // Byte k of the field, as the shift-and-mask loops of the source compute it.
  lemma {:induction false} LEAt(v: nat, n: nat, k: nat)
    requires k < n
    ensures LE(v, n)[k] == IntByte(v / Pow256(k) % 256)
  {
    hide IntByte;
    if k > 0 {
      LEAt(v / 256, n - 1, k - 1);
      assert LE(v, n)[k] == LE(v / 256, n - 1)[k - 1];
      DivDiv(v, Pow256(k - 1));
    }
  }

  lemma DivDiv(v: nat, p: nat)
    requires p >= 1
    ensures v / 256 / p == v / (256 * p)
  {
    var q := v / 256;
    var a, b := q / p, q % p;
    assert v == (256 * p) * a + (256 * b + v % 256);
    DivModUnique(v, 256 * p, a, 256 * b + v % 256);
  }

  // ----- 32-bit words, most significant byte first

  function WordByte(w: bv32, j: nat): bv8
    requires j < 4
  {
    if j == 0 then ((w >> 24) & 0xFF) as bv8
    else if j == 1 then ((w >> 16) & 0xFF) as bv8
    else if j == 2 then ((w >> 8) & 0xFF) as bv8
    else (w & 0xFF) as bv8
  }

  function WordOf(b0: bv8, b1: bv8, b2: bv8, b3: bv8): bv32 {
    (b0 as bv32 << 24) | (b1 as bv32 << 16) | (b2 as bv32 << 8) | b3 as bv32
  }

  lemma ByteOfWord0(b0: bv8, b1: bv8, b2: bv8, b3: bv8) ensures WordByte(WordOf(b0, b1, b2, b3), 0) == b0 {}
  lemma ByteOfWord1(b0: bv8, b1: bv8, b2: bv8, b3: bv8) ensures WordByte(WordOf(b0, b1, b2, b3), 1) == b1 {}
  lemma ByteOfWord2(b0: bv8, b1: bv8, b2: bv8, b3: bv8) ensures WordByte(WordOf(b0, b1, b2, b3), 2) == b2 {}
  lemma ByteOfWord3(b0: bv8, b1: bv8, b2: bv8, b3: bv8) ensures WordByte(WordOf(b0, b1, b2, b3), 3) == b3 {}

  lemma BytesOfWord(b0: bv8, b1: bv8, b2: bv8, b3: bv8)
    ensures var w := WordOf(b0, b1, b2, b3);
            WordByte(w, 0) == b0 && WordByte(w, 1) == b1 && WordByte(w, 2) == b2 && WordByte(w, 3) == b3
  {
    hide WordOf, WordByte;
    ByteOfWord0(b0, b1, b2, b3);
    ByteOfWord1(b0, b1, b2, b3);
    ByteOfWord2(b0, b1, b2, b3);
    ByteOfWord3(b0, b1, b2, b3);
  }
}
