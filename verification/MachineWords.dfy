/** The C++ shift-and-mask loops over 16-, 32- and 64-bit unsigned words, and the numbers they carry. */
module MachineWords {
  import opened Bytes
  import opened Words

  function Shifted(value: bv64, b: bv8): bv64 {
    (value << 8) | b as bv64
  }

  // The word whose bytes, least significant first, are s.
  function Packed(s: Bytes): bv64 {
    if s == [] then 0 else Shifted(Packed(s[1..]), s[0])
  }

  function Octet(value: bv64, shift: nat): bv8
    requires shift < 64
  {
    ((value >> shift) & 0xFF) as bv8
  }

  function Octets(value: bv64): (s: Bytes)
    ensures |s| == 8
  {
    [Octet(value, 0), Octet(value, 8), Octet(value, 16), Octet(value, 24),
     Octet(value, 32), Octet(value, 40), Octet(value, 48), Octet(value, 56)]
  }

  function Octet32(value: bv32, shift: nat): bv8
    requires shift < 32
  {
    ((value >> shift) & 0xFF) as bv8
  }

  function Octets32(value: bv32): (s: Bytes)
    ensures |s| == 4
  {
    [Octet32(value, 0), Octet32(value, 8), Octet32(value, 16), Octet32(value, 24)]
  }

  function Packed32(a: bv8, b: bv8, c: bv8, d: bv8): bv32 {
    a as bv32 | (b as bv32 << 8) | (c as bv32 << 16) | (d as bv32 << 24)
  }

  // The number a word stands for, and the word that a number is cast to.
  function Value64(value: bv64): nat {
    LEValue(Octets(value))
  }

  function Word64(n: nat): bv64 {
    Packed(LE(n, 8))
  }

  function Value32(value: bv32): nat {
    LEValue(Octets32(value))
  }

  function Word32(n: nat): bv32 {
    var s := LE(n, 4);
    Packed32(s[0], s[1], s[2], s[3])
  }

  lemma LowOctet(value: bv64, b: bv8)
    ensures Octet(Shifted(value, b), 0) == b
  {
  }

  lemma NextOctet(value: bv64, b: bv8)
    ensures Octet(Shifted(value, b), 8) == Octet(value, 0)
    ensures Octet(Shifted(value, b), 16) == Octet(value, 8)
    ensures Octet(Shifted(value, b), 24) == Octet(value, 16)
    ensures Octet(Shifted(value, b), 32) == Octet(value, 24)
    ensures Octet(Shifted(value, b), 40) == Octet(value, 32)
    ensures Octet(Shifted(value, b), 48) == Octet(value, 40)
    ensures Octet(Shifted(value, b), 56) == Octet(value, 48)
  {
  }

  lemma OctetsOfShifted(value: bv64, b: bv8)
    ensures Octets(Shifted(value, b)) == [b] + Octets(value)[..7]
  {
    hide Shifted, Octet;
    LowOctet(value, b);
    NextOctet(value, b);
  }

  // The first bytes of a packed word are the bytes packed last.
  lemma {:induction false} OctetsOfPacked(s: Bytes)
    requires |s| <= 8
    ensures Octets(Packed(s))[..|s|] == s
  {
    hide Shifted, Octet;
    if s != [] {
      OctetsOfPacked(s[1..]);
      OctetsOfShifted(Packed(s[1..]), s[0]);
      assert s == [s[0]] + s[1..];
    }
  }

  lemma OctetsOfPacked32(a: bv8, b: bv8, c: bv8, d: bv8)
    ensures Octet32(Packed32(a, b, c, d), 0) == a
    ensures Octet32(Packed32(a, b, c, d), 8) == b
    ensures Octet32(Packed32(a, b, c, d), 16) == c
    ensures Octet32(Packed32(a, b, c, d), 24) == d
  {
  }

  /** Casting keeps a number modulo the width, and the word's bytes are the number's. */
  lemma CastKeeps(n: nat)
    ensures Octets(Word64(n)) == LE(n, 8) && Value64(Word64(n)) == n % U64
    ensures Octets32(Word32(n)) == LE(n, 4) && Value32(Word32(n)) == n % U32
  {
    hide LE, LEValue, Octet, Octet32, Packed, Packed32;
    OctetsOfPacked(LE(n, 8));
    var s := LE(n, 4);
    OctetsOfPacked32(s[0], s[1], s[2], s[3]);
    assert s == [s[0], s[1], s[2], s[3]];
    LEValueOfLE(n, 8);
    LEValueOfLE(n, 4);
    Widths();
  }

  // ----- The loops

  method AppendLE16(prefix: Bytes, value: bv16) returns (out: Bytes)
    ensures out == prefix + [(value & 0xFF) as bv8, ((value >> 8) & 0xFF) as bv8]
  {
    out := prefix + [(value & 0xFF) as bv8];
    out := out + [((value >> 8) & 0xFF) as bv8];
  }

  method AppendLE32(prefix: Bytes, value: bv32) returns (out: Bytes)
    ensures out == prefix + Octets32(value)
  {
    hide Octet32;
    out := prefix;
    var shift := 0;
    while shift < 32
      invariant 0 <= shift <= 32 && shift % 8 == 0
      invariant out == prefix + Octets32(value)[..shift / 8]
    {
      assert shift == 0 || shift == 8 || shift == 16 || shift == 24;
      out := out + [Octet32(value, shift)];
      shift := shift + 8;
    }
  }

  method AppendLE64(prefix: Bytes, value: bv64) returns (out: Bytes)
    ensures out == prefix + Octets(value)
  {
    hide Octet;
    out := prefix;
    var shift := 0;
    while shift < 64
      invariant 0 <= shift <= 64 && shift % 8 == 0
      invariant out == prefix + Octets(value)[..shift / 8]
    {
      assert shift == 0 || shift == 8 || shift == 16 || shift == 24 || shift == 32 || shift == 40 || shift == 48 || shift == 56;
      out := out + [Octet(value, shift)];
      shift := shift + 8;
    }
  }

  method ReadLE32(data: Bytes, offset: nat) returns (value: bv32)
    requires offset + 4 <= |data|
    ensures Value32(value) == LEValue(data[offset..offset + 4])
  {
    hide Octet32, Packed32, LEValue;
    value := Packed32(data[offset], data[offset + 1], data[offset + 2], data[offset + 3]);
    OctetsOfPacked32(data[offset], data[offset + 1], data[offset + 2], data[offset + 3]);
    assert Octets32(value) == data[offset..offset + 4];
  }

  method ReadLE64(data: Bytes, offset: nat) returns (value: bv64)
    requires offset + 8 <= |data|
    ensures Value64(value) == LEValue(data[offset..offset + 8])
  {
    hide Shifted, Octet, LEValue;
    value := 0;
    var index := 7;
    assert data[offset + 8..offset + 8] == [];
    while index >= 0
      invariant -1 <= index <= 7
      invariant value == Packed(data[offset + index + 1..offset + 8])
    {
      value := Shifted(value, data[offset + index]);
      assert data[offset + index..offset + 8][1..] == data[offset + index + 1..offset + 8];
      index := index - 1;
    }
    OctetsOfPacked(data[offset..offset + 8]);
    assert Octets(value) == data[offset..offset + 8];
  }
}
