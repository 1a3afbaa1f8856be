/**
 Counter mode and authenticated encryption of the C++ security codec (sections 6.2, 6.5, 7.1 and
 7.2 of NIST SP 800-38D): Gctr is its own inverse, its counter blocks never repeat, and
 AesGcmDecrypt accepts exactly what AesGcmEncrypt produces.
 */
module Gcm {
  import opened Bytes
  import opened Words
  import opened Aes
  import opened Ghash

  type Nonce = s: seq<bv8> | |s| == 12 witness seq(12, _ => 0)

  // ----- Counter blocks

  // The 32-bit counter in the last four bytes, most significant first.
  function CounterOf(b: Block): nat {
    LEValue([b[15], b[14], b[13], b[12]])
  }

  lemma CounterBound(b: Block)
    ensures CounterOf(b) < U32
  {
    LEOfLEValue([b[15], b[14], b[13], b[12]]);
    Widths();
  }

  // block with its counter replaced by value modulo 2^32.
  function WithCounter(b: Block, value: nat): Block {
    var w := LE(value, 4);
    b[..12] + [w[3], w[2], w[1], w[0]]
  }

  lemma CounterOfWithCounter(b: Block, value: nat)
    ensures CounterOf(WithCounter(b, value)) == value % U32
    ensures WithCounter(b, value)[..12] == b[..12]
  {
    var w := LE(value, 4);
    assert [w[0], w[1], w[2], w[3]] == w;
    LEValueOfLE(value, 4);
    Widths();
  }

  lemma SameCounter(a: Block, b: Block)
    requires a[..12] == b[..12] && CounterOf(a) == CounterOf(b)
    ensures a == b
  {
    LEOfLEValue([a[15], a[14], a[13], a[12]]);
    LEOfLEValue([b[15], b[14], b[13], b[12]]);
    forall i | 0 <= i < 16
      ensures a[i] == b[i]
    {
      if i < 12 {
        assert a[i] == a[..12][i];
      } else {
        assert a[i] == [a[15], a[14], a[13], a[12]][15 - i];
      }
    }
  }

  lemma CounterDigits(b: Block)
    ensures CounterOf(b) == ByteInt(b[12]) * 0x1000000 + ByteInt(b[13]) * 0x10000 + ByteInt(b[14]) * 0x100 + ByteInt(b[15])
  {
    hide ByteInt, LEValue;
    LEValueOf4(b[15], b[14], b[13], b[12]);
  }

  lemma WithCounterBytes(b: Block, v: nat)
    ensures WithCounter(b, v) == b[..12] + [IntByte(v / 0x1000000 % 256), IntByte(v / 0x10000 % 256),
                                            IntByte(v / 0x100 % 256), IntByte(v % 256)]
  {
    hide IntByte, LE;
    LEAt(v, 4, 0);
    LEAt(v, 4, 1);
    LEAt(v, 4, 2);
    LEAt(v, 4, 3);
    assert Pow256(0) == 1;
    assert Pow256(1) == 0x100;
    assert Pow256(2) == 0x10000;
    assert Pow256(3) == 0x1000000;
  }

  /** Adds one to the counter modulo 2^32; the top 96 bits are kept. */
  method Inc32(block: Block) returns (next: Block)
    ensures next == Next(block)
    ensures next[..12] == block[..12]
    ensures CounterOf(next) == (CounterOf(block) + 1) % U32
  {
    hide ByteInt, IntByte, CounterOf, WithCounter;
    var value := ByteInt(block[12]) * 0x1000000 + ByteInt(block[13]) * 0x10000 + ByteInt(block[14]) * 0x100 + ByteInt(block[15]);
    CounterDigits(block);
    value := (value + 1) % U32;
    next := block[..12] + [IntByte(value / 0x1000000 % 256), IntByte(value / 0x10000 % 256),
                           IntByte(value / 0x100 % 256), IntByte(value % 256)];
    WithCounterBytes(block, value);
    CounterOfWithCounter(block, value);
    CounterOfWithCounter(block, CounterOf(block) + 1);
    SameCounter(next, Next(block));
  }

  function Next(b: Block): Block {
    WithCounter(b, CounterOf(b) + 1)
  }

  // The i-th counter block from icb.
  function Counter(icb: Block, i: nat): Block {
    if i == 0 then icb else Next(Counter(icb, i - 1))
  }

  lemma {:induction false} CounterValue(icb: Block, i: nat)
    ensures Counter(icb, i)[..12] == icb[..12]
    ensures CounterOf(Counter(icb, i)) == (CounterOf(icb) + i) % U32
  {
    hide LE, LEValue;
    CounterBound(icb);
    if i > 0 {
      CounterValue(icb, i - 1);
      var b := Counter(icb, i - 1);
      CounterOfWithCounter(b, CounterOf(b) + 1);
    }
  }

  // The pre-counter block of a 96-bit nonce.
  function J0(nonce: Nonce): Block {
    nonce + [0, 0, 0, 1]
  }

  lemma J0Counter(nonce: Nonce)
    ensures CounterOf(J0(nonce)) == 1
    ensures CounterOf(Next(J0(nonce))) == 2 && Next(J0(nonce))[..12] == nonce == J0(nonce)[..12]
  {
    hide ByteInt, CounterOf, WithCounter;
    var b := J0(nonce);
    CounterDigits(b);
    SmallBytes();
    CounterOfWithCounter(b, 2);
  }

  lemma SmallBytes()
    ensures ByteInt(0) == 0 && ByteInt(1) == 1
  {
  }

  /** For every length a 32-bit byte count can carry, the counter blocks of one message are pairwise
      distinct and differ from J0, and so are the keystream blocks they encrypt to. */
  lemma CountersDistinct(c: Cipher, nonce: Nonce, i: nat, j: nat)
    requires c.Valid()
    requires i < j && 16 * j < U32
    ensures Counter(Next(J0(nonce)), i) != Counter(Next(J0(nonce)), j)
    ensures Counter(Next(J0(nonce)), i) != J0(nonce) && Counter(Next(J0(nonce)), j) != J0(nonce)
    ensures Encrypted(c, Counter(Next(J0(nonce)), i)) != Encrypted(c, Counter(Next(J0(nonce)), j))
    ensures Encrypted(c, Counter(Next(J0(nonce)), i)) != Encrypted(c, J0(nonce))
  {
    hide Encrypted, Next, J0, CounterOf;
    var icb := Next(J0(nonce));
    J0Counter(nonce);
    CounterValue(icb, i);
    CounterValue(icb, j);
    if Encrypted(c, Counter(icb, i)) == Encrypted(c, Counter(icb, j)) {
      EncryptedOneToOne(c, Counter(icb, i), Counter(icb, j));
    }
    if Encrypted(c, Counter(icb, i)) == Encrypted(c, J0(nonce)) {
      EncryptedOneToOne(c, Counter(icb, i), J0(nonce));
    }
  }

  // ----- Gctr

  function KeystreamByte(c: Cipher, icb: Block, i: nat): bv8
    requires c.Valid()
  {
    Encrypted(c, Counter(icb, i / 16))[i % 16]
  }

  function Keystream(c: Cipher, icb: Block, n: nat): (s: Bytes)
    requires c.Valid()
    ensures |s| == n
  {
    seq(n, i requires 0 <= i => KeystreamByte(c, icb, i))
  }

  function GctrSpec(c: Cipher, icb: Block, data: Bytes): (r: Bytes)
    requires c.Valid()
    ensures |r| == |data|
  {
    Xor(data, Keystream(c, icb, |data|))
  }

  method Gctr(c: Cipher, icb: Block, data: Bytes) returns (out: Bytes)
    requires c.Valid()
    ensures out == GctrSpec(c, icb, data)
  {
    hide Encrypted, Next, XorByte;
    out := [];
    var counter := icb;
    var offset := 0;
    ghost var k := 0;
    while offset < |data|
      invariant offset == 16 * k && counter == Counter(icb, k)
      invariant |out| == if offset < |data| then offset else |data|
      invariant forall i :: 0 <= i < |out| ==> out[i] == XorByte(data[i], KeystreamByte(c, icb, i))
      decreases |data| - offset
    {
      var stream := EncryptBlock(c, counter);
      var blockSize := if |data| - offset < 16 then |data| - offset else 16;
      for index := 0 to blockSize
        invariant |out| == offset + index
        invariant forall i :: 0 <= i < |out| ==> out[i] == XorByte(data[i], KeystreamByte(c, icb, i))
      {
        assert (offset + index) / 16 == k && (offset + index) % 16 == index;
        out := out + [XorByte(data[offset + index], stream[index])];
      }
      counter := Inc32(counter);
      offset := offset + 16;
      k := k + 1;
    }
  }

  /** Gctr is its own inverse. */
  lemma GctrInvolutive(c: Cipher, icb: Block, data: Bytes)
    requires c.Valid()
    ensures GctrSpec(c, icb, GctrSpec(c, icb, data)) == data
  {
  }

  // ----- Authenticated encryption

  function Tag(c: Cipher, nonce: Nonce, ciphertext: Bytes, aad: Bytes): Block
    requires c.Valid()
  {
    Xor(Encrypted(c, J0(nonce)), GHashSpec(Encrypted(c, Zeros(16)), aad, ciphertext))
  }

  function Seal(c: Cipher, nonce: Nonce, plaintext: Bytes, aad: Bytes): (r: Bytes)
    requires c.Valid()
    ensures |r| == |plaintext| + 16
  {
    var ciphertext := GctrSpec(c, Next(J0(nonce)), plaintext);
    ciphertext + Tag(c, nonce, ciphertext, aad)
  }

  function Open(c: Cipher, nonce: Nonce, encrypted: Bytes, aad: Bytes): Result<Bytes>
    requires c.Valid()
  {
    if |encrypted| < 16 then Failure("ciphertext is shorter than GCM tag")
    else
      var ciphertext := encrypted[..|encrypted| - 16];
      if encrypted[|encrypted| - 16..] != Tag(c, nonce, ciphertext, aad) then Failure("security decrypt failed")
      else Success(GctrSpec(c, Next(J0(nonce)), ciphertext))
  }

  lemma OpenSeal(c: Cipher, nonce: Nonce, plaintext: Bytes, aad: Bytes)
    requires c.Valid()
    ensures Open(c, nonce, Seal(c, nonce, plaintext, aad), aad) == Success(plaintext)
  {
    hide Tag, GctrSpec, Next, J0;
    var sealed := Seal(c, nonce, plaintext, aad);
    assert sealed[..|sealed| - 16] == GctrSpec(c, Next(J0(nonce)), plaintext);
    GctrInvolutive(c, Next(J0(nonce)), plaintext);
  }

  // Nothing but a sealed plaintext opens.
  lemma SealOpen(c: Cipher, nonce: Nonce, encrypted: Bytes, aad: Bytes)
    requires c.Valid()
    requires Open(c, nonce, encrypted, aad).Success?
    ensures Seal(c, nonce, Open(c, nonce, encrypted, aad).value, aad) == encrypted
  {
    hide Tag, GctrSpec, Next, J0;
    GctrInvolutive(c, Next(J0(nonce)), encrypted[..|encrypted| - 16]);
  }

  // The cipher of a key, when the key has a length the code accepts.
  function CipherOf(key: Bytes): Result<Cipher> {
    if |key| == 16 || |key| == 32 then Success(KeyCipher(key))
    else Failure("AES key must be 16 or 32 bytes")
  }

  method InitialBlock(nonce: Nonce) returns (j0: Block)
    ensures j0 == J0(nonce)
  {
    var block := new bv8[16](i requires 0 <= i < 16 => if i < 12 then nonce[i] else 0);
    block[15] := 1;
    j0 := block[..];
  }

  method AesGcmEncrypt(key: Bytes, nonce: Nonce, plaintext: Bytes, aad: Bytes) returns (r: Result<Bytes>)
    requires (|key| / 4 == 4 || |key| / 4 == 8) ==> |key| % 4 == 0
    ensures r == match CipherOf(key)
                 case Failure(e) => Failure(e)
                 case Success(c) => Success(Seal(c, nonce, plaintext, aad))
  {
    hide GHashSpec, GctrSpec, Next, J0, Encrypted, KeyCipher;
    var expanded := ExpandKey(key);
    if expanded.Failure? {
      return Failure(expanded.error);
    }
    var cipher := expanded.value;
    var h := EncryptBlock(cipher, Zeros(16));
    var j0 := InitialBlock(nonce);
    var icb := Inc32(j0);
    var ciphertext := Gctr(cipher, icb, plaintext);
    var mask := EncryptBlock(cipher, j0);
    var hash := GHash(h, aad, ciphertext);
    return Success(ciphertext + Xor(mask, hash));
  }

  method AesGcmDecrypt(key: Bytes, nonce: Nonce, encrypted: Bytes, aad: Bytes) returns (r: Result<Bytes>)
    requires (|key| / 4 == 4 || |key| / 4 == 8) ==> |key| % 4 == 0
    ensures |encrypted| < 16 ==> r == Failure("ciphertext is shorter than GCM tag")
    ensures |encrypted| >= 16 ==> r == match CipherOf(key)
                                      case Failure(e) => Failure(e)
                                      case Success(c) => Open(c, nonce, encrypted, aad)
  {
    hide GHashSpec, GctrSpec, Next, J0, Encrypted, KeyCipher;
    if |encrypted| < 16 {
      return Failure("ciphertext is shorter than GCM tag");
    }
    var expanded := ExpandKey(key);
    if expanded.Failure? {
      return Failure(expanded.error);
    }
    var cipher := expanded.value;
    var ciphertext := encrypted[..|encrypted| - 16];
    var tag := encrypted[|encrypted| - 16..];
    var h := EncryptBlock(cipher, Zeros(16));
    var j0 := InitialBlock(nonce);
    var mask := EncryptBlock(cipher, j0);
    var hash := GHash(h, aad, ciphertext);
    if tag != Xor(mask, hash) {
      return Failure("security decrypt failed");
    }
    var icb := Inc32(j0);
    var plaintext := Gctr(cipher, icb, ciphertext);
    return Success(plaintext);
  }
}
