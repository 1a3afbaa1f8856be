/**
 The two languages' codecs against each other: with Go's abstract primitives taken to be the ones the
 C++ codec writes out, both produce the same bytes and accept the same messages.
 */
module Interop {
  import opened Bytes
  import opened Words
  import opened Text
  import opened Gcm
  import opened SecurityModel
  import opened SecurityEnvelope
  import Aes
  import Sha
  import Hkdf
  import Go = GoSecurityCodec
  import Cpp = CppSecurityCodec

  // The cipher of a route key, which has 16 or 32 bytes.
  function CipherFor(k: Bytes): (c: Aes.Cipher)
    ensures c.Valid()
  {
    if |k| == 16 || |k| == 32 then Aes.KeyCipher(k) else Aes.KeyCipher(Zeros(16))
  }

  function OpenFor(k: Bytes, nonce: Nonce, encrypted: Bytes, aad: Bytes): Option<Bytes> {
    var r := Open(CipherFor(k), nonce, encrypted, aad);
    if r.Success? then Some(r.value) else None
  }

  const Written := Go.Crypto(
    (k: Bytes, n: Nonce, p: Bytes, a: Bytes) => Seal(CipherFor(k), n, p, a),
    (k: Bytes, n: Nonce, e: Bytes, a: Bytes) => OpenFor(k, n, e, a),
    (d: Bytes) => Sha.Hash(d),
    (m: Bytes, s: Bytes, i: Bytes, n: nat) => Hkdf.Derived(m, s, i, n))

  lemma WrittenLawful()
    ensures Written.Lawful()
  {
    hide Seal, Open, Sha.Hash, CipherFor, Hkdf.Derived;
    forall k, n, p, a
      ensures |Written.seal(k, n, p, a)| == |p| + 16 && Written.open(k, n, Written.seal(k, n, p, a), a) == Some(p)
    {
      OpenSeal(CipherFor(k), n, p, a);
    }
  }

  lemma InfosAgree(b: SecurityBinding)
    ensures Go.RouteInfo(b) == RouteKeyInfo(b)
  {
    InfoJoins(b);
    hide Ascii, RouteKeyInfo, Join;
  }

  lemma SameRouteKey(b: SecurityBinding, key: SecurityKey)
    ensures Go.RouteKey(Written, b, key) == Cpp.RouteKey(b, key)
    ensures CipherFor(Cpp.RouteKey(b, key)) == Cpp.RouteCipher(b, key)
  {
    hide Hkdf.Derived, RouteKeyInfo, Go.RouteInfo, Aes.KeyCipher;
    InfosAgree(b);
  }

  /** For a resolved profile both languages put the same bytes on the wire. */
  lemma SameBytes(b: SecurityBinding, plaintext: Bytes, direction: Bytes, senderId: nat, sequence: nat, nonce: Nonce)
    requires b.profile.KeysUnderOwnIds() && b.profile.encryptKeyId in b.profile.keys && 1 <= |b.profile.encryptKeyId| <= 255
    requires TrimBytes(b.profile.aadContext) == b.profile.aadContext
    ensures Written.Lawful()
    ensures Go.Sealed(Written, b, plaintext, direction, senderId, sequence, nonce)
         == Cpp.Encrypted(b, plaintext, direction, senderId, sequence, nonce)
  {
    hide Seal, Open, Sha.Hash, Marshalled, Go.GoAad, Aad, Go.RouteKey, Cpp.RouteCipher, Cpp.RouteKey, CipherFor, TrimBytes;
    WrittenLawful();
    Go.AadAgrees(b, direction);
    SameRouteKey(b, b.profile.keys[b.profile.encryptKeyId]);
  }

  /** And both open exactly the same messages, to the same plaintext; only the Go codec then asks its
      replay window. */
  lemma SameOpening(b: SecurityBinding, data: Bytes, direction: Bytes)
    requires b.profile.KeysUnderOwnIds() && TrimBytes(b.profile.aadContext) == b.profile.aadContext
    ensures Written.Lawful()
    ensures var opening, decrypted := Go.Opened(Written, b, data, direction), Cpp.Decrypted(b, data, direction);
            && (opening.Success? <==> decrypted.Success?)
            && (opening.Success? ==> decrypted == Success(opening.value.plaintext))
  {
    hide Seal, Open, Sha.Hash, Go.GoAad, Aad, Go.RouteKey, Cpp.RouteCipher, Cpp.RouteKey, CipherFor, TrimBytes, Fields;
    WrittenLawful();
    Go.AadAgrees(b, direction);
    var parsed := Parsed(data);
    if parsed.Success? {
      MarshalOfParse(data);
      if parsed.value.keyId in b.profile.keys {
        SameRouteKey(b, b.profile.keys[parsed.value.keyId]);
      }
    }
  }
}
