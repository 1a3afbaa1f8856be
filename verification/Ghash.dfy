/**
 GfMul and GHash of the C++ security codec: byte-array multiplication in GF(2^128) and the
 keyed hash of sections 6.3 and 6.4 of NIST SP 800-38D.
 */
module Ghash {
  import opened Bytes
  import opened GaloisField
  import opened Words

  // ----- Blocks as field elements, most significant bit of byte 0 first

  function BlockBits(x: Block): (e: Elem)
    ensures forall i :: 0 <= i < 128 ==> e[i] == BitOf(x[i / 8], i % 8)
  {
    seq(128, i requires 0 <= i < 128 => BitOf(x[i / 8], i % 8))
  }

  function BitsBlock(e: Elem): (x: Block)
    ensures forall k :: 0 <= k < 16 ==>
      x[k] == ByteOfBits(e[8*k], e[8*k+1], e[8*k+2], e[8*k+3], e[8*k+4], e[8*k+5], e[8*k+6], e[8*k+7])
  {
    seq(16, k requires 0 <= k < 16 =>
      ByteOfBits(e[8*k], e[8*k+1], e[8*k+2], e[8*k+3], e[8*k+4], e[8*k+5], e[8*k+6], e[8*k+7]))
  }

  lemma BitIndex(x: Block, k: nat, j: nat)
    requires k < 16 && j < 8
    ensures BlockBits(x)[8 * k + j] == BitOf(x[k], j)
  {
  }

  lemma BlockByteRoundTrip(x: Block, k: nat)
    requires k < 16
    ensures BitsBlock(BlockBits(x))[k] == x[k]
  {
    hide BitOf, ByteOfBits;
    var e := BlockBits(x);
    BitIndex(x, k, 0);
    BitIndex(x, k, 1);
    BitIndex(x, k, 2);
    BitIndex(x, k, 3);
    BitIndex(x, k, 4);
    BitIndex(x, k, 5);
    BitIndex(x, k, 6);
    BitIndex(x, k, 7);
    ByteRoundTrip(x[k], e[8*k], e[8*k+1], e[8*k+2], e[8*k+3], e[8*k+4], e[8*k+5], e[8*k+6], e[8*k+7]);
  }

  lemma BlockRoundTrip(x: Block)
    ensures BitsBlock(BlockBits(x)) == x
  {
    forall k | 0 <= k < 16
      ensures BitsBlock(BlockBits(x))[k] == x[k]
    {
      BlockByteRoundTrip(x, k);
    }
  }

  lemma BitOfXor(a: bv8, b: bv8, j: nat)
    requires j < 8
    ensures BitOf(XorByte(a, b), j) == (BitOf(a, j) != BitOf(b, j))
  {
    assert j == 0 || j == 1 || j == 2 || j == 3 || j == 4 || j == 5 || j == 6 || j == 7;
  }

  lemma BlockBitsXor(a: Block, b: Block)
    ensures BlockBits(Xor(a, b)) == Add(BlockBits(a), BlockBits(b))
  {
  }

  // ----- ShiftRightOne

  lemma ByteShiftBits(b: bv8, carry: bv8, j: nat)
    requires carry == 0 || carry == 1
    requires j < 8
    ensures BitOf((b >> 1) | (carry << 7), j) == if j == 0 then carry == 1 else BitOf(b, j - 1)
  {
  }

  lemma LowBit(b: bv8)
    ensures BitOf(b, 7) == (b & 1 == 1)
    ensures b & 1 == 0 || b & 1 == 1
  {
  }

  // The block with every byte shifted right and the bit before it shifted in.
  function ShiftedByte(x: Block, i: nat): bv8
    requires i < 16
  {
    (x[i] >> 1) | ((if i == 0 then 0 else x[i - 1] & 1) << 7)
  }

  lemma ShiftedIsShiftUp(x: Block, y: Block)
    requires forall i :: 0 <= i < 16 ==> y[i] == ShiftedByte(x, i)
    ensures BlockBits(y) == ShiftUp(BlockBits(x))
  {
    hide BitOf;
    forall i | 0 <= i < 128
      ensures BlockBits(y)[i] == ShiftUp(BlockBits(x))[i]
    {
      var k, j := i / 8, i % 8;
      var carry := if k == 0 then 0 else x[k - 1] & 1;
      if k > 0 {
        LowBit(x[k - 1]);
      }
      ByteShiftBits(x[k], carry, j);
      if i > 0 {
        assert (i - 1) / 8 == (if j == 0 then k - 1 else k) && (i - 1) % 8 == (if j == 0 then 7 else j - 1);
      }
    }
  }

  /** Shifts the 128-bit value held in the array right by one bit, byte by byte. */
  method ShiftRightOne(value: array<bv8>)
    requires value.Length == 16
    modifies value
    ensures BlockBits(value[..]) == ShiftUp(BlockBits(old(value[..])))
  {
    ghost var was: Block := value[..];
    var carry: bv8 := 0;
    for i := 0 to 16
      invariant carry == if i == 0 then 0 else was[i - 1] & 1
      invariant forall k :: 0 <= k < i ==> value[k] == ShiftedByte(was, k)
      invariant forall k :: i <= k < 16 ==> value[k] == was[k]
    {
      var nextCarry := value[i] & 1;
      value[i] := (value[i] >> 1) | (carry << 7);
      carry := nextCarry;
    }
    ShiftedIsShiftUp(was, value[..]);
  }

  // ----- GfMul

  lemma ReductionBits(j: nat)
    requires j < 8
    ensures BitOf(0xE1, j) == R[j]
  {
  }

  lemma ReductionByte(x: Block, y: Block)
    requires y == x[0 := XorByte(x[0], 0xE1)]
    ensures BlockBits(y) == Add(BlockBits(x), R)
  {
    forall i | 0 <= i < 128
      ensures BlockBits(y)[i] == (BlockBits(x)[i] != R[i])
    {
      if i < 8 {
        BitIndex(x, 0, i);
        BitIndex(y, 0, i);
        BitOfXor(x[0], 0xE1, i);
        ReductionBits(i);
      } else {
        assert y[i / 8] == x[i / 8];
      }
    }
  }

  lemma MulXOnBytes(was: Block, shifted: Block, now: Block)
    requires BlockBits(shifted) == ShiftUp(BlockBits(was))
    requires now == if was[15] & 1 != 0 then shifted[0 := XorByte(shifted[0], 0xE1)] else shifted
    ensures BlockBits(now) == MulX(BlockBits(was))
  {
    LowBit(was[15]);
    BitIndex(was, 15, 7);
    if was[15] & 1 != 0 {
      ReductionByte(shifted, now);
    }
  }

  // The second half of GfMul's loop body: v := v * x.
  method MultiplyByX(v: array<bv8>)
    requires v.Length == 16
    modifies v
    ensures BlockBits(v[..]) == MulX(BlockBits(old(v[..])))
  {
    ghost var was: Block := v[..];
    var lsb := v[15] & 1 != 0;
    ShiftRightOne(v);
    ghost var shifted: Block := v[..];
    if lsb {
      v[0] := XorByte(v[0], 0xE1);
      assert v[..] == shifted[0 := XorByte(shifted[0], 0xE1)];
    }
    MulXOnBytes(was, shifted, v[..]);
  }

  lemma AddWhen(z: Block, v: Block, c: bool)
    ensures BlockBits(if c then Xor(z, v) else z) == Add(BlockBits(z), Scale(c, BlockBits(v)))
  {
  }

  // GfMul's loop invariant: what is accumulated in z plus what bits [bit..] of x still add.
  ghost predicate Accumulated(x: Block, v0: Block, bit: nat, z: Block, v: Block)
    requires bit <= 128
  {
    Mul(BlockBits(x), BlockBits(v0)) == Add(BlockBits(z), Act(BlockBits(x)[bit..], BlockBits(v)))
  }

  lemma AccumulateFirst(x: Block, v: Block)
    ensures Accumulated(x, v, 0, Zeros(16), v)
  {
    assert BlockBits(Zeros(16)) == ZERO;
    assert BlockBits(x)[0..] == BlockBits(x);
    AddLaws(Mul(BlockBits(x), BlockBits(v)), ZERO, ZERO, ZERO);
  }

  lemma AccumulateStep(x: Block, v0: Block, bit: nat, z: Block, v: Block, vNext: Block)
    requires bit < 128 && Accumulated(x, v0, bit, z, v)
    requires BlockBits(vNext) == MulX(BlockBits(v))
    ensures Accumulated(x, v0, bit + 1, if BlockBits(x)[bit] then Xor(z, v) else z, vNext)
  {
    var p, vBits := BlockBits(x), BlockBits(v);
    assert p[bit..][1..] == p[bit + 1..];
    AddWhen(z, v, p[bit]);
    AddLaws(BlockBits(z), Scale(p[bit], vBits), Act(p[bit + 1..], MulX(vBits)), ZERO);
  }

  lemma AccumulateLast(x: Block, v0: Block, z: Block, v: Block)
    requires Accumulated(x, v0, 128, z, v)
    ensures BlockBits(z) == Mul(BlockBits(x), BlockBits(v0))
  {
    hide Mul;
    AddLaws(BlockBits(z), ZERO, ZERO, ZERO);
  }

  /** The shift-and-xor product is the product in GF(2^128). */
  method GfMul(x: Block, vIn: Block) returns (z: Block)
    ensures BlockBits(z) == Mul(BlockBits(x), BlockBits(vIn))
  {
    hide Accumulated, Mul, MulX;
    var v := new bv8[16](i requires 0 <= i < 16 => vIn[i]);
    assert v[..] == vIn;
    z := Zeros(16);
    AccumulateFirst(x, vIn);
    for bit := 0 to 128
      invariant fresh(v)
      invariant Accumulated(x, vIn, bit, z, v[..])
    {
      ghost var was: Block, zWas := v[..], z;
      if (x[bit / 8] >> (7 - bit % 8)) & 1 != 0 {
        z := Xor(z, v[..]);
      }
      MultiplyByX(v);
      AccumulateStep(x, vIn, bit, zWas, was, v[..]);
    }
    AccumulateLast(x, vIn, z, v[..]);
  }

  // ----- GHash

  function CeilDiv16(n: nat): nat {
    (n + 15) / 16
  }

  // The k-th 16-byte block of data, zero-padded.
  function BlockAt(data: Bytes, k: nat): (b: Block)
    ensures forall j :: 0 <= j < 16 ==> b[j] == if 16 * k + j < |data| then data[16 * k + j] else 0
  {
    seq(16, j requires 0 <= j < 16 => if 16 * k + j < |data| then data[16 * k + j] else 0)
  }

  function BlocksOf(data: Bytes): (bs: seq<Block>)
    ensures |bs| == CeilDiv16(|data|)
    ensures forall k :: 0 <= k < |bs| ==> bs[k] == BlockAt(data, k)
  {
    seq(CeilDiv16(|data|), k requires 0 <= k => BlockAt(data, k))
  }

  method GHashBlocks(data: Bytes) returns (blocks: seq<Block>)
    ensures blocks == BlocksOf(data)
  {
    blocks := [];
    var offset := 0;
    while offset < |data|
      invariant offset == 16 * |blocks|
      invariant |blocks| <= CeilDiv16(|data|)
      invariant forall k :: 0 <= k < |blocks| ==> blocks[k] == BlockAt(data, k)
      decreases |data| - offset
    {
      var blockSize := if |data| - offset < 16 then |data| - offset else 16;
      var block := data[offset..offset + blockSize] + Zeros(16 - blockSize);
      assert block == BlockAt(data, |blocks|);
      blocks := blocks + [block];
      offset := offset + 16;
    }
  }

  method WriteBE64(out: array<bv8>, offset: nat, value: nat)
    requires offset + 8 <= out.Length
    modifies out
    ensures out[..] == old(out[..offset]) + BE64(value) + old(out[offset + 8..])
  {
    hide IntByte, BE64;
    for i := 0 to 8
      invariant forall k :: 0 <= k < i ==> out[offset + k] == BE64(value)[k]
      invariant forall k :: 0 <= k < offset || offset + i <= k < out.Length ==> out[k] == old(out[k])
    {
      BE64At(value, i);
      out[offset + i] := IntByte(value / Pow256(7 - i) % 256);
    }
  }

  // A length in bits as the 64-bit counter the code casts it to.
  function BitLength(n: nat): nat {
    n * 8 % U64
  }

  function LengthBlock(aad: nat, ciphertext: nat): Block {
    BE64(BitLength(aad)) + BE64(BitLength(ciphertext))
  }

  // The blocks hashed: padded AAD, padded ciphertext and the length block.
  function HashedBlocks(aad: Bytes, ciphertext: Bytes): seq<Block> {
    BlocksOf(aad) + BlocksOf(ciphertext) + [LengthBlock(|aad|, |ciphertext|)]
  }

  // The chain Y(i) = (Y(i-1) + X(i)) * H of section 6.4.
  function Chain(y: Elem, xs: seq<Block>, h: Elem): Elem
    decreases |xs|
  {
    if xs == [] then y else Chain(Mul(Add(y, BlockBits(xs[0])), h), xs[1..], h)
  }

  function Power(h: Elem, n: nat): Elem {
    if n == 0 then ONE else Mul(Power(h, n - 1), h)
  }

  // X(1) * H^m + X(2) * H^(m-1) + ... + X(m) * H.
  function PowerSum(xs: seq<Block>, h: Elem): Elem {
    if xs == [] then ZERO else Add(Mul(BlockBits(xs[0]), Power(h, |xs|)), PowerSum(xs[1..], h))
  }

  lemma PowerStep(a: Elem, h: Elem, n: nat)
    ensures Mul(Mul(a, h), Power(h, n)) == Mul(a, Power(h, n + 1))
  {
    MulCommutes(h, Power(h, n));
    MulAssociates(a, h, Power(h, n));
  }

  lemma MulOne(a: Elem)
    ensures Mul(a, ONE) == a
  {
    ClassOfElem(a);
  }

  lemma HornerStep(y: Elem, x: Elem, h: Elem, n: nat, rest: Elem)
    ensures Add(Mul(Mul(Add(y, x), h), Power(h, n)), rest)
         == Add(Mul(y, Power(h, n + 1)), Add(Mul(x, Power(h, n + 1)), rest))
  {
    PowerStep(Add(y, x), h, n);
    MulDistributes(y, x, Power(h, n + 1));
    AddLaws(Mul(y, Power(h, n + 1)), Mul(x, Power(h, n + 1)), rest, ZERO);
  }

  lemma {:induction false} ChainIsPowerSum(y: Elem, xs: seq<Block>, h: Elem)
    ensures Chain(y, xs, h) == Add(Mul(y, Power(h, |xs|)), PowerSum(xs, h))
    decreases |xs|
  {
    hide Act;
    if xs == [] {
      MulOne(y);
      AddLaws(y, ZERO, ZERO, ZERO);
    } else {
      var x := BlockBits(xs[0]);
      ChainIsPowerSum(Mul(Add(y, x), h), xs[1..], h);
      HornerStep(y, x, h, |xs| - 1, PowerSum(xs[1..], h));
    }
  }

  lemma {:induction false} ChainConcat(y: Elem, xs: seq<Block>, zs: seq<Block>, h: Elem)
    ensures Chain(y, xs + zs, h) == Chain(Chain(y, xs, h), zs, h)
    decreases |xs|
  {
    if xs == [] {
      assert xs + zs == zs;
    } else {
      assert (xs + zs)[1..] == xs[1..] + zs;
      ChainConcat(Mul(Add(y, BlockBits(xs[0])), h), xs[1..], zs, h);
    }
  }

  lemma ChainSnoc(y: Elem, xs: seq<Block>, x: Block, h: Elem)
    ensures Chain(y, xs + [x], h) == Mul(Add(Chain(y, xs, h), BlockBits(x)), h)
  {
    hide Mul, Add, BlockBits;
    ChainConcat(y, xs, [x], h);
    assert [x][1..] == [];
  }

  function GHashSpec(h: Block, aad: Bytes, ciphertext: Bytes): Block {
    BitsBlock(PowerSum(HashedBlocks(aad, ciphertext), BlockBits(h)))
  }

  method Absorb(y: Block, blocks: seq<Block>, h: Block) returns (r: Block)
    ensures BlockBits(r) == Chain(BlockBits(y), blocks, BlockBits(h))
  {
    hide Act, Mul, XorByte;
    r := y;
    for i := 0 to |blocks|
      invariant BlockBits(r) == Chain(BlockBits(y), blocks[..i], BlockBits(h))
    {
      ChainSnoc(BlockBits(y), blocks[..i], blocks[i], BlockBits(h));
      assert blocks[..i] + [blocks[i]] == blocks[..i + 1];
      BlockBitsXor(r, blocks[i]);
      r := GfMul(Xor(r, blocks[i]), h);
    }
    assert blocks[..|blocks|] == blocks;
  }

  /** The authentication hash is the sum of the blocks times descending powers of H. */
  method GHash(h: Block, aad: Bytes, ciphertext: Bytes) returns (y: Block)
    ensures y == GHashSpec(h, aad, ciphertext)
  {
    hide Act, Mul, Chain, PowerSum, BE64;
    y := Zeros(16);
    ghost var e := BlockBits(h);
    assert BlockBits(y) == ZERO;
    var aadBlocks := GHashBlocks(aad);
    y := Absorb(y, aadBlocks, h);
    var ciphertextBlocks := GHashBlocks(ciphertext);
    y := Absorb(y, ciphertextBlocks, h);
    var lengthBlock := new bv8[16](_ => 0);
    WriteBE64(lengthBlock, 0, |aad| * 8 % U64);
    WriteBE64(lengthBlock, 8, |ciphertext| * 8 % U64);
    var last: Block := lengthBlock[..];
    assert last == LengthBlock(|aad|, |ciphertext|);
    BlockBitsXor(y, last);
    y := GfMul(Xor(y, last), h);
    ChainConcat(ZERO, BlocksOf(aad), BlocksOf(ciphertext), e);
    ChainSnoc(ZERO, BlocksOf(aad) + BlocksOf(ciphertext), last, e);
    ChainIsPowerSum(ZERO, HashedBlocks(aad, ciphertext), e);
    ZeroTimes(Power(e, |HashedBlocks(aad, ciphertext)|));
    AddLaws(PowerSum(HashedBlocks(aad, ciphertext), e), ZERO, ZERO, ZERO);
    BlockRoundTrip(y);
  }

  lemma ZeroTimes(a: Elem)
    ensures Mul(ZERO, a) == ZERO
  {
    MulCommutes(ZERO, a);
    ActZero(a);
  }
}
