/** HMAC-SHA-256 (RFC 2104) and HKDF-SHA-256 (RFC 5869) of the C++ security codec. */
module Hkdf {
  import opened Bytes
  import opened Words
  import opened Sha

  // ----- HMAC

  function Repeated(b: bv8, n: nat): (s: Bytes)
    ensures |s| == n
  {
    seq(n, _ => b)
  }

  // The key hashed when longer than a block, then zero-padded to the block size.
  function KeyBlock(key: Bytes): (k: Bytes)
    ensures |k| == 64
  {
    var short := if |key| > 64 then Hash(key) else key;
    short + Zeros(64 - |short|)
  }

  function Hmac(key: Bytes, data: Bytes): (r: Bytes)
    ensures |r| == 32
  {
    Hash(Xor(Repeated(0x5c, 64), KeyBlock(key)) + Hash(Xor(Repeated(0x36, 64), KeyBlock(key)) + data))
  }

  method HmacSha256(key: Bytes, data: Bytes) returns (r: Bytes)
    ensures r == Hmac(key, data)
  {
    hide Hash, XorByte;
    var hmacKey := key;
    if |hmacKey| > 64 {
      hmacKey := Sha256(hmacKey);
    }
    hmacKey := hmacKey + Zeros(64 - |hmacKey|);
    var outer := new bv8[64](_ => 0x5c);
    var inner := new bv8[64](_ => 0x36);
    for index := 0 to 64
      invariant forall k :: 0 <= k < index ==> outer[k] == XorByte(0x5c, hmacKey[k]) && inner[k] == XorByte(0x36, hmacKey[k])
      invariant forall k :: index <= k < 64 ==> outer[k] == 0x5c && inner[k] == 0x36
    {
      outer[index] := XorByte(outer[index], hmacKey[index]);
      inner[index] := XorByte(inner[index], hmacKey[index]);
    }
    assert outer[..] == Xor(Repeated(0x5c, 64), hmacKey);
    assert inner[..] == Xor(Repeated(0x36, 64), hmacKey);
    var innerHash := Sha256(inner[..] + data);
    r := Sha256(outer[..] + innerHash);
  }

  /** Zero bytes appended to a key that still fits the block do not change the code: an empty salt
      and a salt of 32 zero bytes derive the same keys, whichever of them an implementation uses. */
  lemma ZeroPaddedKey(key: Bytes, zeros: nat, data: Bytes)
    requires |key| + zeros <= 64
    ensures Hmac(key + Zeros(zeros), data) == Hmac(key, data)
  {
    hide Hash;
    assert KeyBlock(key + Zeros(zeros)) == KeyBlock(key);
  }

  // ----- HKDF

  // Output block i; the counter is a single byte, so block 256 would reuse counter value 0.
  function T(prk: Bytes, info: Bytes, i: nat): (r: Bytes)
    ensures |r| == if i == 0 then 0 else 32
  {
    if i == 0 then [] else Hmac(prk, T(prk, info, i - 1) + info + [IntByte(i % 256)])
  }

  // T(1) || T(2) || ... || T(n)
  function Okm(prk: Bytes, info: Bytes, n: nat): (r: Bytes)
    ensures |r| == 32 * n
  {
    if n == 0 then [] else Okm(prk, info, n - 1) + T(prk, info, n)
  }

  function BlocksFor(length: nat): (n: nat)
    ensures 32 * n >= length
  {
    (length + 31) / 32
  }

  lemma BlocksExact(length: nat, n: nat)
    requires 32 * n >= length && (n == 0 || 32 * (n - 1) < length)
    ensures n == BlocksFor(length)
  {
  }

  lemma OkmStep(prk: Bytes, info: Bytes, n: nat)
    ensures Okm(prk, info, 0) == T(prk, info, 0) == []
    ensures T(prk, info, n + 1) == Hmac(prk, T(prk, info, n) + info + [IntByte((n + 1) % 256)])
    ensures Okm(prk, info, n + 1) == Okm(prk, info, n) + T(prk, info, n + 1)
  {
  }

  function Extracted(secret: Bytes, salt: Bytes): (prk: Bytes)
    ensures |prk| == 32
  {
    Hmac(if |salt| == 0 then Zeros(32) else salt, secret)
  }

  function Derived(secret: Bytes, salt: Bytes, info: Bytes, length: nat): (r: Bytes)
    ensures |r| == length
  {
    Okm(Extracted(secret, salt), info, BlocksFor(length))[..length]
  }

  lemma DerivedIsOkm(secret: Bytes, salt: Bytes, info: Bytes, length: nat, n: nat)
    requires 32 * n >= length && (n == 0 || 32 * (n - 1) < length)
    ensures Okm(Extracted(secret, salt), info, n)[..length] == Derived(secret, salt, info, length)
  {
    hide Okm, Extracted;
    BlocksExact(length, n);
  }

  /** Returns the first `length` bytes of T(1) || T(2) || ... */
  method HkdfSha256(secret: Bytes, salt: Bytes, info: Bytes, length: nat) returns (out: Bytes)
    ensures out == Derived(secret, salt, info, length)
  {
    hide Hmac, IntByte, T, Okm, BlocksFor, Derived;
    var effectiveSalt := if |salt| == 0 then Zeros(32) else salt;
    var prk := HmacSha256(effectiveSalt, secret);
    out := [];
    var previous: Bytes := [];
    var counter := 1;
    ghost var n := 0;
    OkmStep(prk, info, 0);
    while |out| < length
      invariant n == 0 || 32 * (n - 1) < length
      invariant out == Okm(prk, info, n) && previous == T(prk, info, n)
      invariant counter == (n + 1) % 256
    {
      OkmStep(prk, info, n);
      var input := previous + info + [IntByte(counter)];
      counter := (counter + 1) % 256;
      previous := HmacSha256(prk, input);
      out := out + previous;
      n := n + 1;
    }
    DerivedIsOkm(secret, salt, info, length, n);
    out := out[..length];
  }

  lemma {:induction false} OkmPrefix(prk: Bytes, info: Bytes, m: nat, n: nat)
    requires m <= n
    ensures Okm(prk, info, m) == Okm(prk, info, n)[..32 * m]
  {
    hide T;
    if m < n {
      OkmPrefix(prk, info, m, n - 1);
      assert Okm(prk, info, n)[..32 * (n - 1)] == Okm(prk, info, n - 1);
    }
  }

  /** A shorter output is a prefix of every longer one. */
  lemma DerivedPrefix(secret: Bytes, salt: Bytes, info: Bytes, short: nat, long: nat)
    requires short <= long
    ensures Derived(secret, salt, info, short) == Derived(secret, salt, info, long)[..short]
  {
    hide Okm, Extracted;
    OkmPrefix(Extracted(secret, salt), info, BlocksFor(short), BlocksFor(long));
  }

  // RFC 5869's T(i), whose counter octet is i itself and so exists only up to 255.
  function RfcT(prk: Bytes, info: Bytes, i: nat): Bytes
    requires i <= 255
  {
    if i == 0 then [] else Hmac(prk, RfcT(prk, info, i - 1) + info + [IntByte(i)])
  }

  lemma {:induction false} TIsRfcT(prk: Bytes, info: Bytes, i: nat)
    requires i <= 255
    ensures T(prk, info, i) == RfcT(prk, info, i)
  {
    hide Hmac, IntByte;
    if i > 0 {
      TIsRfcT(prk, info, i - 1);
    }
  }

  /** Up to 8160 bytes of output, byte k comes from the RFC's block k / 32 + 1: no counter wraps. */
  lemma DerivedByte(secret: Bytes, salt: Bytes, info: Bytes, length: nat, k: nat)
    requires k < length <= 8160
    ensures |RfcT(Extracted(secret, salt), info, k / 32 + 1)| == 32
    ensures Derived(secret, salt, info, length)[k] == RfcT(Extracted(secret, salt), info, k / 32 + 1)[k % 32]
  {
    hide T, RfcT, Extracted;
    var prk, i := Extracted(secret, salt), k / 32 + 1;
    TIsRfcT(prk, info, i);
    OkmPrefix(prk, info, i, BlocksFor(length));
    assert Okm(prk, info, i)[k] == T(prk, info, i)[k - 32 * (i - 1)];
  }
}
