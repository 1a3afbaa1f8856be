/**
 The hand-written SHA-256, HMAC and HKDF of the C++ security codec.  Each loop is proved against
 the recursive definition of its standard: section 6.2.2 of FIPS 180-4, RFC 2104 and section 2.3
 of RFC 5869.
 */
module Sha {
  import opened Bytes
  import opened Words
  import opened ShaConstants

  // ----- 32-bit arithmetic

  function ShiftRight(v: bv32, n: bv6): bv32
    requires 0 < n < 32
  {
    v >> n
  }

  function ShiftLeft(v: bv32, n: bv6): bv32
    requires 0 < n < 32
  {
    v << n
  }

  function OrWord(x: bv32, y: bv32): bv32 {
    x | y
  }

  function RotateRight(v: bv32, n: bv6): bv32
    requires 0 < n < 32
  {
    OrWord(ShiftRight(v, n), ShiftLeft(v, 32 - n))
  }

  function XorWord(x: bv32, y: bv32): bv32 {
    x ^ y
  }

  function AndWord(x: bv32, y: bv32): bv32 {
    x & y
  }

  function Xor3(x: bv32, y: bv32, z: bv32): bv32 {
    XorWord(XorWord(x, y), z)
  }

  function SmallSigma0(v: bv32): bv32 {
    Xor3(RotateRight(v, 7), RotateRight(v, 18), ShiftRight(v, 3))
  }

  function SmallSigma1(v: bv32): bv32 {
    Xor3(RotateRight(v, 17), RotateRight(v, 19), ShiftRight(v, 10))
  }

  function BigSigma0(v: bv32): bv32 {
    Xor3(RotateRight(v, 2), RotateRight(v, 13), RotateRight(v, 22))
  }

  function BigSigma1(v: bv32): bv32 {
    Xor3(RotateRight(v, 6), RotateRight(v, 11), RotateRight(v, 25))
  }

  function Ch(x: bv32, y: bv32, z: bv32): bv32 {
    XorWord(AndWord(x, y), AndWord(!x, z))
  }

  function Maj(x: bv32, y: bv32, z: bv32): bv32 {
    Xor3(AndWord(x, y), AndWord(x, z), AndWord(y, z))
  }

  // Addition modulo 2^32.
  function Plus(x: bv32, y: bv32): bv32 {
    x + y
  }

  // ----- Padding (section 5.1.1)

  // The zero bytes between the 0x80 marker and the length field.
  function PadZeros(n: nat): (k: nat)
    ensures k < 64
    ensures (n + 1 + k) % 64 == 56
  {
    (55 - n) % 64
  }

  function Padded(data: Bytes): (r: Bytes)
    ensures |r| == |data| + PadZeros(|data|) + 9
  {
    data + [0x80] + Zeros(PadZeros(|data|)) + BE64(|data| * 8 % U64)
  }

  lemma PaddedLength(data: Bytes)
    ensures |Padded(data)| % 64 == 0
  {
    hide Padded;
    var x := |data| + 1 + PadZeros(|data|);
    assert x % 64 == 56 ==> (x + 8) % 64 == 0;
  }

  lemma PadZerosLeast(n: nat, k: nat)
    requires (n + 1 + k) % 64 == 56
    ensures PadZeros(n) <= k && (k < 64 ==> k == PadZeros(n))
  {
  }

  // The marker and the zero-fill loop.
  method MarkAndFill(data: Bytes) returns (padded: Bytes)
    ensures padded == data + [0x80] + Zeros(PadZeros(|data|))
  {
    padded := data + [0x80];
    ghost var k := 0;
    while |padded| % 64 != 56
      invariant k <= PadZeros(|data|)
      invariant padded == data + [0x80] + Zeros(k)
      decreases PadZeros(|data|) - k
    {
      padded := padded + [0];
      k := k + 1;
    }
    PadZerosLeast(|data|, k);
  }

  method Pad(data: Bytes) returns (padded: Bytes)
    ensures padded == Padded(data)
  {
    hide IntByte, BE64;
    var bitLen := |data| * 8 % U64;
    padded := MarkAndFill(data);
    ghost var marked := padded;
    for i := 0 to 8
      invariant padded == marked + BE64(bitLen)[..i]
    {
      BE64At(bitLen, i);
      padded := padded + [IntByte(bitLen / Pow256(7 - i) % 256)];
    }
  }

  /** The padded length is the least multiple of 64 that holds the data, the marker and the length. */
  lemma PaddedLengthLeast(data: Bytes, m: nat)
    requires m % 64 == 0 && m >= |data| + 9
    ensures |Padded(data)| <= m && |Padded(data)| % 64 == 0
  {
    hide Padded;
    PaddedLength(data);
    MultiplesOf64(|Padded(data)|, m);
  }

  lemma MultiplesOf64(p: nat, m: nat)
    requires p % 64 == 0 && m % 64 == 0 && p <= m + 63
    ensures p <= m
  {
  }

  /** Padding is injective on every input the 64-bit length field can describe. */
  lemma PaddedInjective(a: Bytes, b: Bytes)
    requires |a| < 0x2000_0000_0000_0000 && |b| < 0x2000_0000_0000_0000
    requires Padded(a) == Padded(b)
    ensures a == b
  {
    hide BE64;
    var p := Padded(a);
    assert p[|p| - 8..] == BE64(|a| * 8);
    assert Padded(b)[|p| - 8..] == BE64(|b| * 8);
    BE64OneToOne(|a| * 8, |b| * 8);
    assert p[..|a|] == a;
    assert p[..|b|] == b;
  }

  // ----- The compression function (section 6.2.2)

  datatype State = State(a: bv32, b: bv32, c: bv32, d: bv32, e: bv32, f: bv32, g: bv32, h: bv32)

  function BlockWord(block: Bytes, t: nat): bv32
    requires |block| == 64 && t < 16
  {
    WordOf(block[4 * t], block[4 * t + 1], block[4 * t + 2], block[4 * t + 3])
  }

  function Schedule(block: Bytes, t: nat): bv32
    requires |block| == 64
  {
    if t < 16 then BlockWord(block, t)
    else Plus(Plus(Plus(Schedule(block, t - 16), SmallSigma0(Schedule(block, t - 15))),
                   Schedule(block, t - 7)), SmallSigma1(Schedule(block, t - 2)))
  }

  function Round(s: State, k: bv32, w: bv32): State {
    var t1 := Plus(Plus(Plus(Plus(s.h, BigSigma1(s.e)), Ch(s.e, s.f, s.g)), k), w);
    var t2 := Plus(BigSigma0(s.a), Maj(s.a, s.b, s.c));
    State(Plus(t1, t2), s.a, s.b, s.c, Plus(s.d, t1), s.e, s.f, s.g)
  }

  function Rounds(s: State, block: Bytes, t: nat): State
    requires |block| == 64 && t <= 64
  {
    if t == 0 then s else Round(Rounds(s, block, t - 1), K(t - 1), Schedule(block, t - 1))
  }

  function AddStates(s: State, r: State): State {
    State(Plus(s.a, r.a), Plus(s.b, r.b), Plus(s.c, r.c), Plus(s.d, r.d),
          Plus(s.e, r.e), Plus(s.f, r.f), Plus(s.g, r.g), Plus(s.h, r.h))
  }

  function Compressed(s: State, block: Bytes): State
    requires |block| == 64
  {
    AddStates(s, Rounds(s, block, 64))
  }

  function InitialState(): State {
    State(WordFrom(HTable(0)), WordFrom(HTable(1)), WordFrom(HTable(2)), WordFrom(HTable(3)),
          WordFrom(HTable(4)), WordFrom(HTable(5)), WordFrom(HTable(6)), WordFrom(HTable(7)))
  }

  // The hash value after the first k blocks.
  function Hashed(padded: Bytes, k: nat): State
    requires 64 * k <= |padded|
  {
    if k == 0 then InitialState()
    else Compressed(Hashed(padded, k - 1), padded[64 * (k - 1)..64 * k])
  }

  function WordBytes(w: bv32): (r: Bytes)
    ensures |r| == 4
  {
    [WordByte(w, 0), WordByte(w, 1), WordByte(w, 2), WordByte(w, 3)]
  }

  function Digest(s: State): (r: Bytes)
    ensures |r| == 32
  {
    WordBytes(s.a) + WordBytes(s.b) + WordBytes(s.c) + WordBytes(s.d) +
    WordBytes(s.e) + WordBytes(s.f) + WordBytes(s.g) + WordBytes(s.h)
  }

  function Hash(data: Bytes): (r: Bytes)
    ensures |r| == 32
  {
    PaddedLength(data);
    Digest(Hashed(Padded(data), |Padded(data)| / 64))
  }

  function ArrayState(s: seq<bv32>): State
    requires |s| == 8
  {
    State(s[0], s[1], s[2], s[3], s[4], s[5], s[6], s[7])
  }

  lemma ScheduleGiven(block: Bytes, t: nat)
    requires |block| == 64 && t < 16
    ensures Schedule(block, t) == WordOf(block[4 * t], block[4 * t + 1], block[4 * t + 2], block[4 * t + 3])
  {
    hide WordOf;
  }

  lemma ScheduleStep(block: Bytes, t: nat)
    requires |block| == 64 && t >= 16
    ensures Schedule(block, t)
         == Plus(Plus(Plus(Schedule(block, t - 16), SmallSigma0(Schedule(block, t - 15))),
                      Schedule(block, t - 7)), SmallSigma1(Schedule(block, t - 2)))
  {
    hide WordOf, SmallSigma0, SmallSigma1, Plus;
  }

  method ExpandBlock(padded: Bytes, offset: nat) returns (w: array<bv32>)
    requires offset + 64 <= |padded|
    ensures fresh(w) && w.Length == 64
    ensures forall t :: 0 <= t < 64 ==> w[t] == Schedule(padded[offset..offset + 64], t)
  {
    hide WordOf, SmallSigma0, SmallSigma1, Plus, Schedule;
    ghost var block := padded[offset..offset + 64];
    w := new bv32[64](_ => 0);
    for index := 0 to 16
      invariant forall t :: 0 <= t < index ==> w[t] == Schedule(block, t)
    {
      var base := offset + index * 4;
      ScheduleGiven(block, index);
      w[index] := WordOf(padded[base], padded[base + 1], padded[base + 2], padded[base + 3]);
    }
    for index := 16 to 64
      invariant forall t :: 0 <= t < index ==> w[t] == Schedule(block, t)
    {
      ScheduleStep(block, index);
      var s0 := SmallSigma0(w[index - 15]);
      var s1 := SmallSigma1(w[index - 2]);
      w[index] := Plus(Plus(Plus(w[index - 16], s0), w[index - 7]), s1);
    }
  }

  /** One pass of the block loop: the in-place rounds and the final additions. */
  method CompressBlock(h: array<bv32>, padded: Bytes, offset: nat)
    requires h.Length == 8 && offset + 64 <= |padded|
    modifies h
    ensures ArrayState(h[..]) == Compressed(ArrayState(old(h[..])), padded[offset..offset + 64])
  {
    hide Schedule, BigSigma0, BigSigma1, Ch, Maj, Plus, K;
    ghost var block := padded[offset..offset + 64];
    ghost var initial := ArrayState(h[..]);
    var w := ExpandBlock(padded, offset);
    var a, b, c, d, e, f, g, hh := h[0], h[1], h[2], h[3], h[4], h[5], h[6], h[7];
    for index := 0 to 64
      invariant State(a, b, c, d, e, f, g, hh) == Rounds(initial, block, index)
    {
      var s1 := BigSigma1(e);
      var ch := Ch(e, f, g);
      var temp1 := Plus(Plus(Plus(Plus(hh, s1), ch), K(index)), w[index]);
      var s0 := BigSigma0(a);
      var maj := Maj(a, b, c);
      var temp2 := Plus(s0, maj);
      hh := g;
      g := f;
      f := e;
      e := Plus(d, temp1);
      d := c;
      c := b;
      b := a;
      a := Plus(temp1, temp2);
    }
    h[0] := Plus(h[0], a);
    h[1] := Plus(h[1], b);
    h[2] := Plus(h[2], c);
    h[3] := Plus(h[3], d);
    h[4] := Plus(h[4], e);
    h[5] := Plus(h[5], f);
    h[6] := Plus(h[6], g);
    h[7] := Plus(h[7], hh);
  }

  // The digest of the first n words.
  function WordsOut(h: seq<bv32>, n: nat): (r: Bytes)
    requires n <= |h|
    ensures |r| == 4 * n
  {
    if n == 0 then [] else WordsOut(h, n - 1) + WordBytes(h[n - 1])
  }

  lemma WordsOutIsDigest(h: seq<bv32>)
    requires |h| == 8
    ensures WordsOut(h, 8) == Digest(ArrayState(h))
  {
    hide WordBytes;
    assert WordsOut(h, 1) == WordBytes(h[0]);
    assert WordsOut(h, 2) == WordsOut(h, 1) + WordBytes(h[1]);
    assert WordsOut(h, 3) == WordsOut(h, 2) + WordBytes(h[2]);
    assert WordsOut(h, 4) == WordsOut(h, 3) + WordBytes(h[3]);
    assert WordsOut(h, 5) == WordsOut(h, 4) + WordBytes(h[4]);
    assert WordsOut(h, 6) == WordsOut(h, 5) + WordBytes(h[5]);
    assert WordsOut(h, 7) == WordsOut(h, 6) + WordBytes(h[6]);
  }

  method DigestOut(h: array<bv32>) returns (out: Bytes)
    requires h.Length == 8
    ensures out == Digest(ArrayState(h[..]))
  {
    hide WordByte;
    out := [];
    for i := 0 to 8
      invariant out == WordsOut(h[..], i)
    {
      out := out + [WordByte(h[i], 0)];
      out := out + [WordByte(h[i], 1)];
      out := out + [WordByte(h[i], 2)];
      out := out + [WordByte(h[i], 3)];
      assert out == WordsOut(h[..], i) + WordBytes(h[i]);
    }
    WordsOutIsDigest(h[..]);
  }

  /** SHA-256 as FIPS 180-4 defines it. */
  method Sha256(data: Bytes) returns (out: Bytes)
    ensures out == Hash(data)
  {
    hide Compressed, WordFrom, HTable, Digest, Padded;
    var h := new bv32[8](i requires 0 <= i < 8 => WordFrom(HTable(i)));
    assert ArrayState(h[..]) == InitialState();
    var padded := Pad(data);
    PaddedLength(data);
    var offset := 0;
    ghost var k := 0;
    while offset < |padded|
      invariant offset == 64 * k && offset <= |padded|
      invariant fresh(h) && ArrayState(h[..]) == Hashed(padded, k)
    {
      CompressBlock(h, padded, offset);
      offset := offset + 64;
      k := k + 1;
    }
    out := DigestOut(h);
  }
}
