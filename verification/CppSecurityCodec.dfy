/**
 SecurityCodec of the C++ library over the hand-written primitives: what Encrypt produces Decrypt
 returns, and Decrypt accepts nothing but what EncryptWithOptions can produce.
 */
module CppSecurityCodec {
  import opened Bytes
  import opened Words
  import opened Gcm
  import opened Sha
  import opened Hkdf
  import opened SecurityEnvelope
  import opened SecurityModel

  const ALGORITHM_MISMATCH := "security algorithm mismatch"
  const AAD_MISMATCH := "security AAD hash mismatch"
  const NO_DECRYPT_KEY := "security key is not configured"
  const NO_ENCRYPT_KEY := "security encrypt key is not configured"

  function First16(h: Bytes): Block
    requires |h| >= 16
  {
    h[..16]
  }

  function RouteKey(b: SecurityBinding, key: SecurityKey): (k: Bytes)
    ensures |k| == b.profile.algorithm.KeyLength()
  {
    Derived(key.masterKey, key.salt, RouteKeyInfo(b), b.profile.algorithm.KeyLength())
  }

  function RouteCipher(b: SecurityBinding, key: SecurityKey): (c: Aes.Cipher)
    ensures c.Valid()
  {
    Aes.KeyCipher(RouteKey(b, key))
  }

  // The envelope of a plaintext sealed under a given key.
  function SealedEnvelope(b: SecurityBinding, key: SecurityKey, plaintext: Bytes, direction: Bytes,
                          senderId: nat, sequence: nat, nonce: Nonce): Envelope
  {
    var aad := Aad(b, direction);
    var sealed := Seal(RouteCipher(b, key), nonce, plaintext, aad);
    Envelope(b.profile.algorithm.Code(), key.keyId, senderId, sequence, nonce, First16(Hash(aad)),
             sealed[..|plaintext|], sealed[|plaintext|..])
  }

  function Encrypted(b: SecurityBinding, plaintext: Bytes, direction: Bytes,
                     senderId: nat, sequence: nat, nonce: Nonce): Result<Bytes>
  {
    if b.profile.encryptKeyId !in b.profile.keys then Failure(NO_ENCRYPT_KEY)
    else
      var key := b.profile.keys[b.profile.encryptKeyId];
      if |key.keyId| > 255 then Failure(KEY_ID_TOO_LONG)
      else Success(Marshalled(SealedEnvelope(b, key, plaintext, direction, senderId, sequence, nonce)))
  }

  function Decrypted(b: SecurityBinding, data: Bytes, direction: Bytes): Result<Bytes> {
    var envelope :- CppError(Parsed(data));
    var aad := Aad(b, direction);
    if envelope.algorithm != b.profile.algorithm.Code() then Failure(ALGORITHM_MISMATCH)
    else if First16(Hash(aad)) != envelope.aadHash then Failure(AAD_MISMATCH)
    else if envelope.keyId !in b.profile.keys then Failure(NO_DECRYPT_KEY)
    else Open(RouteCipher(b, b.profile.keys[envelope.keyId]), envelope.nonce, envelope.ciphertext + envelope.tag, aad)
  }

  class SecurityCodec {
    const binding: SecurityBinding
    const senderId: nat
    var sequence: nat

    ghost predicate Valid()
      reads this
    {
      senderId < U64 && sequence < U64
    }

    constructor (binding: SecurityBinding, randomId: nat)
      requires randomId < U64
      ensures this.binding == binding && senderId == (if randomId == 0 then 1 else randomId)
      ensures Valid() && sequence == 0
    {
      this.binding := binding;
      this.senderId := if randomId == 0 then 1 else randomId;
      this.sequence := 0;
    }

    method DeriveRouteKey(key: SecurityKey) returns (k: Bytes)
      ensures k == RouteKey(binding, key)
    {
      var length := if binding.profile.algorithm == Aes128Gcm then 16 else 32;
      k := HkdfSha256(key.masterKey, key.salt, RouteKeyInfo(binding), length);
    }

    method EncryptWithOptions(plaintext: Bytes, direction: Bytes, sender: nat, number: nat, nonce: Nonce)
      returns (r: Result<Bytes>)
      ensures r == Encrypted(binding, plaintext, direction, sender, number, nonce)
    {
      hide Seal, Hash, Marshalled, Aad, RouteKey, Aes.KeyCipher;
      if binding.profile.encryptKeyId !in binding.profile.keys {
        return Failure(NO_ENCRYPT_KEY);
      }
      var key := binding.profile.keys[binding.profile.encryptKeyId];
      var routeKey := DeriveRouteKey(key);
      var aad := Aad(binding, direction);
      var sealed := AesGcmEncrypt(routeKey, nonce, plaintext, aad);
      var encrypted := sealed.value;
      var ciphertext := encrypted[..|encrypted| - 16];
      var tag := encrypted[|encrypted| - 16..];
      var hash := Sha256(aad);
      r := MarshalCpp(Envelope(binding.profile.algorithm.Code(), key.keyId, sender, number, nonce,
                               First16(hash), ciphertext, tag));
    }

    /** Bumps the 64-bit message counter and seals under it; the random nonce is an argument. */
    method Encrypt(plaintext: Bytes, direction: Bytes, nonce: Nonce) returns (r: Result<Bytes>)
      requires Valid()
      modifies this
      ensures Valid() && sequence == (old(sequence) + 1) % U64
      ensures r == Encrypted(binding, plaintext, direction, senderId, sequence, nonce)
    {
      sequence := (sequence + 1) % U64;
      r := EncryptWithOptions(plaintext, direction, senderId, sequence, nonce);
    }

    method Decrypt(encrypted: Bytes, direction: Bytes) returns (r: Result<Bytes>)
      ensures r == Decrypted(binding, encrypted, direction)
    {
      hide Open, Hash, Aad, RouteKey, Aes.KeyCipher, Parsed;
      var parsed := ParseCpp(encrypted);
      if parsed.Failure? {
        return Failure(parsed.error);
      }
      var envelope := parsed.value;
      if envelope.algorithm != binding.profile.algorithm.Code() {
        return Failure(ALGORITHM_MISMATCH);
      }
      var aad := Aad(binding, direction);
      var hash := Sha256(aad);
      if First16(hash) != envelope.aadHash {
        return Failure(AAD_MISMATCH);
      }
      if envelope.keyId !in binding.profile.keys {
        return Failure(NO_DECRYPT_KEY);
      }
      var routeKey := DeriveRouteKey(binding.profile.keys[envelope.keyId]);
      ParsedTag(encrypted);
      r := AesGcmDecrypt(routeKey, envelope.nonce, envelope.ciphertext + envelope.tag, aad);
    }
  }

  lemma ParsedTag(data: Bytes)
    requires Parsed(data).Success?
    ensures |Parsed(data).value.tag| == 16
  {
  }

  /** With keys stored under their own ids and the encrypt key present, decrypting what was encrypted
      returns the plaintext exactly when the key id fits its length byte and the plaintext the 32-bit
      length field; every other case ends in an error on one side. */
  lemma DecryptOfEncrypt(b: SecurityBinding, plaintext: Bytes, direction: Bytes,
                         senderId: nat, sequence: nat, nonce: Nonce)
    requires b.profile.KeysUnderOwnIds() && b.profile.encryptKeyId in b.profile.keys
    requires senderId < U64 && sequence < U64
    ensures var sent := Encrypted(b, plaintext, direction, senderId, sequence, nonce);
            (sent.Success? && Decrypted(b, sent.value, direction) == Success(plaintext))
            <==> (1 <= |b.profile.encryptKeyId| <= 255 && |plaintext| < U32)
    ensures var sent := Encrypted(b, plaintext, direction, senderId, sequence, nonce);
            sent.Success? && |plaintext| >= U32 ==> Decrypted(b, sent.value, direction).Failure?
  {
    hide Seal, Open, Hash, Marshalled, Parsed, Aad, RouteCipher;
    var key := b.profile.keys[b.profile.encryptKeyId];
    if |key.keyId| <= 255 {
      var e := SealedEnvelope(b, key, plaintext, direction, senderId, sequence, nonce);
      ParseOfMarshal(e);
      if e.WellFormed() {
        var sealed := Seal(RouteCipher(b, key), nonce, plaintext, Aad(b, direction));
        assert e.ciphertext + e.tag == sealed;
        OpenSeal(RouteCipher(b, key), nonce, plaintext, Aad(b, direction));
      }
    }
  }

  lemma DecryptedParses(b: SecurityBinding, data: Bytes, direction: Bytes)
    requires Decrypted(b, data, direction).Success?
    ensures Parsed(data).Success? && Parsed(data).value.keyId in b.profile.keys
  {
    hide Open, Hash, Parsed, Aad, RouteCipher;
  }

  /** Decrypt accepts only envelopes that sealing under the named key produces: re-encrypting the
      returned plaintext with the envelope's own key, sender, number and nonce gives the received
      bytes, up to the two reserved ones. */
  lemma EncryptOfDecrypt(b: SecurityBinding, data: Bytes, direction: Bytes, plaintext: Bytes, e: Envelope)
    requires b.profile.KeysUnderOwnIds()
    requires Decrypted(b, data, direction) == Success(plaintext) && Parsed(data) == Success(e)
    ensures e.keyId in b.profile.keys
    ensures Marshalled(SealedEnvelope(b, b.profile.keys[e.keyId], plaintext, direction, e.senderId, e.sequence, e.nonce))
         == data[..6] + [0, 0] + data[8..]
  {
    hide Seal, Open, Hash, Marshalled, Parsed, Aad, RouteCipher;
    var key := b.profile.keys[e.keyId];
    MarshalOfParse(data);
    assert data[6 := 0][7 := 0] == data[..6] + [0, 0] + data[8..];
    SealOpen(RouteCipher(b, key), e.nonce, e.ciphertext + e.tag, Aad(b, direction));
    var sealed := Seal(RouteCipher(b, key), e.nonce, plaintext, Aad(b, direction));
    assert sealed[..|plaintext|] == e.ciphertext;
    assert sealed[|plaintext|..] == e.tag;
  }
}
