/**
 SecurityCodec and SecureMessageBus of the Go library.  The AEAD, the hash and the key derivation
 of Go's crypto packages are an abstract Crypto with their inverse and length laws.
 */
module GoSecurityCodec {
  import opened Bytes
  import opened Words
  import opened Text
  import opened Gcm
  import opened SecurityEnvelope
  import opened SecurityModel
  import RW = ReplayWindow

  const KEY_MISSING := "security key is missing"
  const ALGORITHM_MISMATCH := "security algorithm mismatch"
  const AAD_MISMATCH := "security AAD hash mismatch"
  const DECRYPT_FAILED := "security decrypt failed"
  const REPLAY_REJECTED := "security replay rejected"

  // seal and open take the route key, nonce, text and additional data.
  datatype Crypto = Crypto(
    seal: (Bytes, Nonce, Bytes, Bytes) -> Bytes,
    open: (Bytes, Nonce, Bytes, Bytes) -> Option<Bytes>,
    sum256: Bytes -> Bytes,
    derive: (Bytes, Bytes, Bytes, nat) -> Bytes)
  {
    ghost predicate Lawful() {
      && (forall k, n, p, a :: |seal(k, n, p, a)| == |p| + 16 && open(k, n, seal(k, n, p, a), a) == Some(p))
      && (forall d :: |sum256(d)| == 32)
    }
  }

  // ----- Additional data

  function Lines(b: SecurityBinding, direction: Bytes): seq<Bytes> {
    [Ascii("pacific-rim|comm-security|v1"),
     Field("profile=", b.profile.name),
     Field("route=", b.route),
     Field("binding=", b.binding),
     Field("transport=", b.transport),
     Field("address=", b.address),
     Field("message_type=", b.messageType),
     Field("direction=", direction)]
  }

  function GoAad(b: SecurityBinding, direction: Bytes): Bytes {
    var context := TrimBytes(b.profile.aadContext);
    Join(Lines(b, direction) + if context == [] then [] else [Field("context=", context)], Ascii("\n"))
  }

  // ----- The codec on values

  // securityAlgorithmAES256GCM and securityAlgorithmAES128GCM.
  function AlgorithmCode(a: SecurityAlgorithm): bv8 {
    match a
    case Aes256Gcm => 1
    case Aes128Gcm => 2
  }

  function KeyLengthOf(a: SecurityAlgorithm): nat {
    match a
    case Aes256Gcm => 32
    case Aes128Gcm => 16
  }

  function RouteInfo(b: SecurityBinding): Bytes {
    Ascii("pacific-rim:comm-security:v1:") + Join([b.profile.name, b.route, b.messageType], Ascii(":"))
  }

  function RouteKey(crypto: Crypto, b: SecurityBinding, key: SecurityKey): Bytes {
    crypto.derive(key.masterKey, key.salt, RouteInfo(b), KeyLengthOf(b.profile.algorithm))
  }

  // A Go map lookup of an absent key yields the zero value, whose key id is empty.
  predicate Usable(b: SecurityBinding, id: Bytes) {
    id in b.profile.keys && b.profile.keys[id].keyId != []
  }

  function Sealed(crypto: Crypto, b: SecurityBinding, plaintext: Bytes, direction: Bytes,
                  senderId: nat, sequence: nat, nonce: Nonce): Result<Bytes>
    requires crypto.Lawful()
  {
    if !Usable(b, b.profile.encryptKeyId) then Failure(KEY_MISSING)
    else
      var key := b.profile.keys[b.profile.encryptKeyId];
      var aad := GoAad(b, direction);
      var sealed := crypto.seal(RouteKey(crypto, b, key), nonce, plaintext, aad);
      Success(Marshalled(Envelope(AlgorithmCode(b.profile.algorithm), key.keyId, senderId, sequence, nonce,
                                  crypto.sum256(aad)[..16], sealed[..|sealed| - 16], sealed[|sealed| - 16..])))
  }

  datatype Opening = Opening(plaintext: Bytes, senderId: nat, sequence: nat)

  // Decrypt up to the replay check.
  function Opened(crypto: Crypto, b: SecurityBinding, data: Bytes, direction: Bytes): Result<Opening>
    requires crypto.Lawful()
  {
    var e :- Parsed(data);
    var aad := GoAad(b, direction);
    if e.algorithm != AlgorithmCode(b.profile.algorithm) then Failure(ALGORITHM_MISMATCH)
    else if e.aadHash != crypto.sum256(aad)[..16] then Failure(AAD_MISMATCH)
    else if !Usable(b, e.keyId) then Failure(KEY_MISSING)
    else match crypto.open(RouteKey(crypto, b, b.profile.keys[e.keyId]), e.nonce, e.ciphertext + e.tag, aad)
      case None => Failure(DECRYPT_FAILED)
      case Some(plaintext) => Success(Opening(plaintext, e.senderId, e.sequence))
  }

  // The replay check over the calls accepted or refused so far.
  function Judged(o: Opening, unseen: bool): Result<Bytes> {
    if unseen then Success(o.plaintext) else Failure(REPLAY_REJECTED)
  }

  // ----- The codec object

  class SecurityCodec {
    const crypto: Crypto
    const binding: SecurityBinding
    const senderId: nat
    var sequence: nat
    const replayWindow: RW.ReplayWindow

    ghost predicate Valid()
      reads this, replayWindow
    {
      crypto.Lawful() && senderId < U64 && sequence < U64 && replayWindow.Valid()
    }

    constructor (crypto: Crypto, binding: SecurityBinding, randomId: nat)
      requires crypto.Lawful() && randomId < U64
      ensures Valid() && fresh(replayWindow) && sequence == 0 && replayWindow.history == []
      ensures this.crypto == crypto && this.binding == binding
    {
      this.crypto := crypto;
      this.binding := binding;
      this.senderId := if randomId == 0 then 1 else randomId;
      this.sequence := 0;
      this.replayWindow := new RW.ReplayWindow(binding.profile.replayWindow);
    }

    /** Counts the message and seals it under the new number. */
    method Encrypt(plaintext: Bytes, direction: Bytes, nonce: Nonce) returns (r: Result<Bytes>)
      requires Valid()
      modifies this
      ensures Valid() && sequence == (old(sequence) + 1) % U64
      ensures r == Sealed(crypto, binding, plaintext, direction, senderId, sequence, nonce)
    {
      sequence := (sequence + 1) % U64;
      if !Usable(binding, binding.profile.encryptKeyId) {
        return Failure(KEY_MISSING);
      }
      var key := binding.profile.keys[binding.profile.encryptKeyId];
      var aad := GoAad(binding, direction);
      var sealed := crypto.seal(RouteKey(crypto, binding, key), nonce, plaintext, aad);
      var ciphertextLen := |sealed| - 16;
      var out := MarshalGo(Envelope(AlgorithmCode(binding.profile.algorithm), key.keyId, senderId, sequence, nonce,
                                    crypto.sum256(aad)[..16], sealed[..ciphertextLen], sealed[ciphertextLen..]));
      return Success(out);
    }

    /** Opens the envelope and then asks the replay window; nothing reaches the window before the
        authentication succeeded. */
    method Decrypt(encrypted: Bytes, direction: Bytes) returns (r: Result<Bytes>)
      requires Valid()
      modifies replayWindow
      ensures Valid()
      ensures match Opened(crypto, binding, encrypted, direction)
              case Failure(e) => r == Failure(e) && replayWindow.history == old(replayWindow.history)
              case Success(o) =>
                var was := old(replayWindow.history);
                && replayWindow.history == was + [RW.Call(o.senderId, o.sequence)]
                && r == Judged(o, o.sequence !in old(replayWindow.SeenBy(o.senderId)))
                && (RW.Positive(was, o.senderId) ==>
                      r == Judged(o, o.sequence !in RW.Window(replayWindow.limit, was, o.senderId)))
    {
      hide Parsed, GoAad;
      var parsed := UnmarshalGo(encrypted);
      if parsed.Failure? {
        return Failure(parsed.error);
      }
      var e := parsed.value;
      if e.algorithm != AlgorithmCode(binding.profile.algorithm) {
        return Failure(ALGORITHM_MISMATCH);
      }
      var aad := GoAad(binding, direction);
      if e.aadHash != crypto.sum256(aad)[..16] {
        return Failure(AAD_MISMATCH);
      }
      if !Usable(binding, e.keyId) {
        return Failure(KEY_MISSING);
      }
      var plaintext := crypto.open(RouteKey(crypto, binding, binding.profile.keys[e.keyId]), e.nonce, e.ciphertext + e.tag, aad);
      if plaintext.None? {
        return Failure(DECRYPT_FAILED);
      }
      var ok := replayWindow.Accept(e.senderId, e.sequence);
      if !ok {
        return Failure(REPLAY_REJECTED);
      }
      return Success(plaintext.value);
    }
  }

  // ----- Laws

  // The text holds the first n lines, each ended by a newline.
  ghost predicate Holds(lines: seq<Bytes>, n: nat, text: Bytes)
    requires n <= |lines|
  {
    text == if n == 0 then [] else Join(lines[..n], Ascii("\n")) + Ascii("\n")
  }

  lemma LineStep(lines: seq<Bytes>, n: nat, text: Bytes)
    requires n < |lines| && Holds(lines, n, text)
    ensures Holds(lines, n + 1, WithLine(text, lines[n]))
    ensures text + lines[n] == Join(lines[..n + 1], Ascii("\n"))
  {
    hide Ascii;
    if n == 0 {
      assert lines[..1] == [lines[0]];
    } else {
      assert lines[..n + 1] == lines[..n] + [lines[n]];
      JoinSnoc(lines[..n], lines[n], Ascii("\n"));
    }
  }

  lemma LinesJoined(b: SecurityBinding, direction: Bytes)
    ensures Join(Lines(b, direction), Ascii("\n")) == AadText(b, direction)
  {
    hide Ascii, Join, WithLine, Field, Holds;
    var ls := Lines(b, direction);
    HoldsNone(ls);
    LineStep(ls, 0, []);
    var t0 := WithLine([], ls[0]);
    LineStep(ls, 1, t0);
    var t1 := WithLine(t0, ls[1]);
    LineStep(ls, 2, t1);
    var t2 := WithLine(t1, ls[2]);
    LineStep(ls, 3, t2);
    var t3 := WithLine(t2, ls[3]);
    LineStep(ls, 4, t3);
    var t4 := WithLine(t3, ls[4]);
    LineStep(ls, 5, t4);
    var t5 := WithLine(t4, ls[5]);
    LineStep(ls, 6, t5);
    LineStep(ls, 7, WithLine(t5, ls[6]));
    assert ls[..8] == ls;
  }

  lemma HoldsNone(lines: seq<Bytes>)
    ensures Holds(lines, 0, [])
  {
  }

  lemma FieldBinds(tag: string, v: Bytes, w: Bytes)
    ensures Field(tag, v) == Field(tag, w) <==> v == w
  {
    hide Ascii;
    if Field(tag, v) == Field(tag, w) {
      assert Field(tag, v)[|tag|..] == v && Field(tag, w)[|tag|..] == w;
    }
  }

  // The texts that a binding puts into its additional data, context last.
  function Parts(b: SecurityBinding, direction: Bytes): seq<Bytes> {
    [b.profile.name, b.route, b.binding, b.transport, b.address, b.messageType, direction, TrimBytes(b.profile.aadContext)]
  }

  lemma FieldFree(tag: string, value: Bytes)
    requires '\n' !in tag && (forall d :: d in tag ==> d as int < 256) && Ascii("\n")[0] !in value
    ensures Ascii("\n")[0] !in Field(tag, value)
  {
    hide Ascii;
    AsciiFree(tag, '\n');
  }

  lemma LinesFree(b: SecurityBinding, direction: Bytes)
    requires Free(Parts(b, direction), Ascii("\n")[0])
    ensures Free(Lines(b, direction) + [Field("context=", TrimBytes(b.profile.aadContext))], Ascii("\n")[0])
  {
    hide Ascii, Field, TrimmedOf, Free;
    var nl, parts := Ascii("\n")[0], Parts(b, direction);
    FreeAt(parts, nl);
    AsciiFree("pacific-rim|comm-security|v1", '\n');
    FieldFree("profile=", parts[0]);
    FieldFree("route=", parts[1]);
    FieldFree("binding=", parts[2]);
    FieldFree("transport=", parts[3]);
    FieldFree("address=", parts[4]);
    FieldFree("message_type=", parts[5]);
    FieldFree("direction=", parts[6]);
    FieldFree("context=", parts[7]);
    FreeNine(Ascii("pacific-rim|comm-security|v1"), Field("profile=", parts[0]), Field("route=", parts[1]),
             Field("binding=", parts[2]), Field("transport=", parts[3]), Field("address=", parts[4]),
             Field("message_type=", parts[5]), Field("direction=", parts[6]), Field("context=", parts[7]), nl);
    assert Lines(b, direction) + [Field("context=", parts[7])]
        == [Ascii("pacific-rim|comm-security|v1"), Field("profile=", parts[0]), Field("route=", parts[1]),
            Field("binding=", parts[2]), Field("transport=", parts[3]), Field("address=", parts[4]),
            Field("message_type=", parts[5]), Field("direction=", parts[6]), Field("context=", parts[7])];
  }

  lemma FreeAt(parts: seq<Bytes>, c: bv8)
    requires Free(parts, c)
    ensures forall i :: 0 <= i < |parts| ==> c !in parts[i]
  {
  }

  lemma FreeNine(a: Bytes, b: Bytes, d: Bytes, e: Bytes, f: Bytes, g: Bytes, h: Bytes, i: Bytes, j: Bytes, c: bv8)
    requires c !in a && c !in b && c !in d && c !in e && c !in f && c !in g && c !in h && c !in i && c !in j
    ensures Free([a, b, d, e, f, g, h, i, j], c)
  {
  }

  lemma LinesBind(b: SecurityBinding, direction: Bytes, d: SecurityBinding, other: Bytes)
    ensures Lines(b, direction) == Lines(d, other) <==> Parts(b, direction)[..7] == Parts(d, other)[..7]
  {
    hide Ascii, Field, TrimmedOf;
    var x, y := Lines(b, direction), Lines(d, other);
    FieldBinds("profile=", b.profile.name, d.profile.name);
    FieldBinds("route=", b.route, d.route);
    FieldBinds("binding=", b.binding, d.binding);
    FieldBinds("transport=", b.transport, d.transport);
    FieldBinds("address=", b.address, d.address);
    FieldBinds("message_type=", b.messageType, d.messageType);
    FieldBinds("direction=", direction, other);
    if x == y {
      assert x[1] == y[1] && x[2] == y[2] && x[3] == y[3] && x[4] == y[4] && x[5] == y[5] && x[6] == y[6] && x[7] == y[7];
    }
    if Parts(b, direction)[..7] == Parts(d, other)[..7] {
      var p, q := Parts(b, direction)[..7], Parts(d, other)[..7];
      assert p[0] == q[0] && p[1] == q[1] && p[2] == q[2] && p[3] == q[3] && p[4] == q[4] && p[5] == q[5] && p[6] == q[6];
    }
  }

  /** The additional data binds everything it is made of: without line ends in the parts, two bindings and
      directions have the same additional data exactly when profile name, route, binding, transport,
      address, message type, direction and context all agree. */
  lemma AadBinds(b: SecurityBinding, direction: Bytes, d: SecurityBinding, other: Bytes)
    requires Free(Parts(b, direction), Ascii("\n")[0]) && Free(Parts(d, other), Ascii("\n")[0])
    ensures GoAad(b, direction) == GoAad(d, other) <==> Parts(b, direction) == Parts(d, other)
  {
    hide Ascii, Field, TrimmedOf, Join, Lines;
    var nl := Ascii("\n")[0];
    assert Ascii("\n") == [nl];
    var p, q := TrimBytes(b.profile.aadContext), TrimBytes(d.profile.aadContext);
    var x := Lines(b, direction) + if p == [] then [] else [Field("context=", p)];
    var y := Lines(d, other) + if q == [] then [] else [Field("context=", q)];
    LinesFree(b, direction);
    LinesFree(d, other);
    LinesLength(b, direction);
    LinesLength(d, other);
    JoinOneToOne(x, y, nl);
    LinesBind(b, direction, d, other);
    FieldBinds("context=", p, q);
    assert x[..8] == Lines(b, direction) && y[..8] == Lines(d, other);
    assert x == x[..8] + x[8..] && y == y[..8] + y[8..];
    assert Parts(b, direction) == Parts(b, direction)[..7] + [p] && Parts(d, other) == Parts(d, other)[..7] + [q];
    if x == y {
      assert p == [] <==> q == [];
      if p != [] {
        assert x[8] == y[8];
      }
    }
  }

  lemma LinesLength(b: SecurityBinding, direction: Bytes)
    ensures |Lines(b, direction)| == 8
  {
  }

  /** Go and C++ authenticate the same additional data exactly when the configured context carries no
      surrounding white space. */
  lemma AadAgrees(b: SecurityBinding, direction: Bytes)
    ensures GoAad(b, direction) == Aad(b, direction) <==> TrimBytes(b.profile.aadContext) == b.profile.aadContext
  {
    hide Ascii, Join, AadText, TrimmedOf;
    var context := TrimBytes(b.profile.aadContext);
    LinesJoined(b, direction);
    TrimmedShortens(b.profile.aadContext, IsSpaceByte);
    if context == [] {
      assert Lines(b, direction) + [] == Lines(b, direction);
    } else {
      JoinSnoc(Lines(b, direction), Field("context=", context), Ascii("\n"));
      AsciiConcat("\n", "context=");
      assert "\n" + "context=" == "\ncontext=";
      assert GoAad(b, direction) == AadText(b, direction) + (Ascii("\ncontext=") + context);
    }
  }

  /** Opening what was sealed yields the plaintext, the sender and its number, exactly when the
      plaintext fits the 32-bit length field (for a key id that fits its length byte). */
  lemma OpenedOfSealed(crypto: Crypto, b: SecurityBinding, plaintext: Bytes, direction: Bytes,
                       senderId: nat, sequence: nat, nonce: Nonce)
    requires crypto.Lawful() && b.profile.KeysUnderOwnIds() && b.profile.encryptKeyId in b.profile.keys
    requires 1 <= |b.profile.encryptKeyId| <= 255 && senderId < U64 && sequence < U64
    ensures var sent := Sealed(crypto, b, plaintext, direction, senderId, sequence, nonce);
            && sent.Success?
            && if |plaintext| < U32
               then Opened(crypto, b, sent.value, direction) == Success(Opening(plaintext, senderId, sequence))
               else Opened(crypto, b, sent.value, direction).Failure?
  {
    hide Marshalled, Parsed, GoAad, RouteKey;
    var key := b.profile.keys[b.profile.encryptKeyId];
    var aad := GoAad(b, direction);
    var sealed := crypto.seal(RouteKey(crypto, b, key), nonce, plaintext, aad);
    var e := Envelope(AlgorithmCode(b.profile.algorithm), key.keyId, senderId, sequence, nonce,
                      crypto.sum256(aad)[..16], sealed[..|sealed| - 16], sealed[|sealed| - 16..]);
    ParseOfMarshal(e);
    assert e.ciphertext + e.tag == sealed;
  }

  /** Whatever is sealed can be parsed, whatever the profile's keys say of themselves: a key that carries
      no id seals nothing. */
  lemma SealedParses(crypto: Crypto, b: SecurityBinding, plaintext: Bytes, direction: Bytes,
                     senderId: nat, sequence: nat, nonce: Nonce)
    requires crypto.Lawful() && senderId < U64 && sequence < U64 && |plaintext| < U32
    requires forall id :: id in b.profile.keys ==> |b.profile.keys[id].keyId| <= 255
    ensures var sent := Sealed(crypto, b, plaintext, direction, senderId, sequence, nonce);
            sent.Success? ==> Parsed(sent.value).Success? && Parsed(sent.value).value.keyId == b.profile.keys[b.profile.encryptKeyId].keyId
  {
    hide Marshalled, Parsed, GoAad, RouteKey;
    if Usable(b, b.profile.encryptKeyId) {
      var key := b.profile.keys[b.profile.encryptKeyId];
      var aad := GoAad(b, direction);
      var sealed := crypto.seal(RouteKey(crypto, b, key), nonce, plaintext, aad);
      var e := Envelope(AlgorithmCode(b.profile.algorithm), key.keyId, senderId, sequence, nonce,
                        crypto.sum256(aad)[..16], sealed[..|sealed| - 16], sealed[|sealed| - 16..]);
      ParseOfMarshal(e);
    }
  }

  /** What is sealed under one algorithm is refused under the other. */
  lemma OtherAlgorithmRefused(crypto: Crypto, b: SecurityBinding, d: SecurityBinding, plaintext: Bytes, direction: Bytes, other: Bytes,
                              senderId: nat, sequence: nat, nonce: Nonce)
    requires crypto.Lawful() && b.profile.KeysUnderOwnIds() && b.profile.encryptKeyId in b.profile.keys
    requires 1 <= |b.profile.encryptKeyId| <= 255 && senderId < U64 && sequence < U64 && |plaintext| < U32
    requires b.profile.algorithm != d.profile.algorithm
    ensures var sent := Sealed(crypto, b, plaintext, direction, senderId, sequence, nonce);
            sent.Success? && Opened(crypto, d, sent.value, other) == Failure(ALGORITHM_MISMATCH)
  {
    hide Marshalled, Parsed, GoAad, RouteKey;
    var key := b.profile.keys[b.profile.encryptKeyId];
    var aad := GoAad(b, direction);
    var sealed := crypto.seal(RouteKey(crypto, b, key), nonce, plaintext, aad);
    var e := Envelope(AlgorithmCode(b.profile.algorithm), key.keyId, senderId, sequence, nonce,
                      crypto.sum256(aad)[..16], sealed[..|sealed| - 16], sealed[|sealed| - 16..]);
    ParseOfMarshal(e);
  }
}
