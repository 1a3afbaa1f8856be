/** Byte strings, 16-byte blocks and the result type shared by the models. */
module Bytes {
  type Bytes = seq<bv8>

  type Block = s: seq<bv8> | |s| == 16 witness seq(16, _ => 0)

  datatype Option<+T> = None | Some(value: T)

  datatype Result<+T> = Success(value: T) | Failure(error: string) {
    predicate IsFailure() {
      Failure?
    }

    function PropagateFailure<U>(): Result<U>
      requires Failure?
    {
      Failure(error)
    }

    function Extract(): T
      requires Success?
    {
      value
    }
  }

  function Zeros(n: nat): (s: Bytes)
    ensures |s| == n
    ensures forall i :: 0 <= i < n ==> s[i] == 0
  {
    seq(n, _ => 0)
  }

  // Bit j of a byte, the most significant first.
  function BitOf(b: bv8, j: nat): bool
    requires j < 8
  {
    (b >> (7 - j)) & 1 != 0
  }

  function Weight(bit: bool, j: nat): bv8
    requires j < 8
  {
    if bit then 1 << (7 - j) else 0
  }

  function ByteOfBits(b0: bool, b1: bool, b2: bool, b3: bool, b4: bool, b5: bool, b6: bool, b7: bool): bv8 {
    Weight(b0, 0) | Weight(b1, 1) | Weight(b2, 2) | Weight(b3, 3) |
    Weight(b4, 4) | Weight(b5, 5) | Weight(b6, 6) | Weight(b7, 7)
  }

  lemma ByteRoundTrip(b: bv8, b0: bool, b1: bool, b2: bool, b3: bool, b4: bool, b5: bool, b6: bool, b7: bool)
    requires b0 == BitOf(b, 0) && b1 == BitOf(b, 1) && b2 == BitOf(b, 2) && b3 == BitOf(b, 3)
    requires b4 == BitOf(b, 4) && b5 == BitOf(b, 5) && b6 == BitOf(b, 6) && b7 == BitOf(b, 7)
    ensures b == ByteOfBits(b0, b1, b2, b3, b4, b5, b6, b7)
  {
  }

  lemma BitsOfByte(b0: bool, b1: bool, b2: bool, b3: bool, b4: bool, b5: bool, b6: bool, b7: bool)
    ensures var b := ByteOfBits(b0, b1, b2, b3, b4, b5, b6, b7);
            && BitOf(b, 0) == b0 && BitOf(b, 1) == b1 && BitOf(b, 2) == b2 && BitOf(b, 3) == b3
            && BitOf(b, 4) == b4 && BitOf(b, 5) == b5 && BitOf(b, 6) == b6 && BitOf(b, 7) == b7
  {
  }

  function XorByte(a: bv8, b: bv8): bv8 {
    a ^ b
  }

  function Xor(a: Bytes, b: Bytes): (c: Bytes)
    requires |a| == |b|
    ensures |c| == |a|
    ensures forall i :: 0 <= i < |a| ==> c[i] == XorByte(a[i], b[i])
  {
    seq(|a|, i requires 0 <= i < |a| => XorByte(a[i], b[i]))
  }

  lemma XorByteCancels(a: bv8, b: bv8)
    ensures XorByte(XorByte(a, b), b) == a
  {
  }

  lemma XorAssociates(a: bv8, b: bv8, c: bv8)
    ensures XorByte(XorByte(a, b), c) == XorByte(a, XorByte(b, c))
  {
  }

  lemma XorUnits(a: bv8, b: bv8)
    ensures XorByte(a, b) == XorByte(b, a)
    ensures XorByte(a, 0) == a
    ensures XorByte(a, b) == 0 <==> a == b
  {
  }

  lemma XorSwaps(a: bv8, b: bv8, c: bv8, d: bv8)
    ensures XorByte(XorByte(a, b), XorByte(c, d)) == XorByte(XorByte(a, c), XorByte(b, d))
  {
    hide XorByte;
    XorUnits(b, c);
    XorAssociates(a, b, XorByte(c, d));
    XorAssociates(b, c, d);
    XorAssociates(c, b, d);
    XorAssociates(a, c, XorByte(b, d));
  }

}
