/** Keys, profiles and bindings, and the two texts derived from them, for both codecs. */
module SecurityModel {
  import opened Bytes
  import opened Words
  import opened Text

  datatype SecurityAlgorithm = Aes256Gcm | Aes128Gcm {
    // The enumerator's value in the envelope.
    function Code(): bv8 {
      if Aes256Gcm? then 1 else 2
    }

    function KeyLength(): nat {
      if Aes128Gcm? then 16 else 32
    }
  }

  datatype SecurityKey = SecurityKey(keyId: Bytes, masterKey: Bytes, salt: Bytes)

  datatype SecurityProfile = SecurityProfile(
    name: Bytes,
    algorithm: SecurityAlgorithm,
    aadContext: Bytes,
    replayWindow: nat,
    encryptKeyId: Bytes,
    keys: map<Bytes, SecurityKey>)
  {
    // What resolving a configuration establishes: every key is stored under its own id.
    ghost predicate KeysUnderOwnIds() {
      forall id :: id in keys ==> keys[id].keyId == id
    }
  }

  datatype SecurityBinding = SecurityBinding(
    profile: SecurityProfile,
    route: Bytes,
    binding: Bytes,
    transport: Bytes,
    address: Bytes,
    messageType: Bytes)

  function Field(tag: string, value: Bytes): Bytes {
    Ascii(tag) + value
  }

  function WithLine(text: Bytes, line: Bytes): Bytes {
    text + (line + Ascii("\n"))
  }

  // The additional data up to the direction, appended line by line as the C++ codec does.
  function AadText(b: SecurityBinding, direction: Bytes): Bytes {
    var t0 := WithLine([], Ascii("pacific-rim|comm-security|v1"));
    var t1 := WithLine(t0, Field("profile=", b.profile.name));
    var t2 := WithLine(t1, Field("route=", b.route));
    var t3 := WithLine(t2, Field("binding=", b.binding));
    var t4 := WithLine(t3, Field("transport=", b.transport));
    var t5 := WithLine(t4, Field("address=", b.address));
    var t6 := WithLine(t5, Field("message_type=", b.messageType));
    t6 + Field("direction=", direction)
  }

  function Aad(b: SecurityBinding, direction: Bytes): Bytes {
    AadText(b, direction) +
    if b.profile.aadContext == [] then [] else Ascii("\ncontext=") + b.profile.aadContext
  }

  function RouteKeyInfo(b: SecurityBinding): Bytes {
    Ascii("pacific-rim:comm-security:v1:") + b.profile.name + Ascii(":") + b.route + Ascii(":") + b.messageType
  }

  lemma InfoJoins(b: SecurityBinding)
    ensures RouteKeyInfo(b) == Ascii("pacific-rim:comm-security:v1:") + Join([b.profile.name, b.route, b.messageType], Ascii(":"))
  {
    hide Ascii;
    var parts := [b.profile.name, b.route, b.messageType];
    assert parts[1..] == [b.route, b.messageType] && parts[1..][1..] == [b.messageType];
    assert Join(parts[1..], Ascii(":")) == b.route + Ascii(":") + b.messageType;
  }

  /** Routes derive from different texts: the derivation info of two bindings whose names hold no colon
      agrees exactly when profile name, route and message type do. */
  lemma RouteKeyInfoBinds(b: SecurityBinding, d: SecurityBinding)
    requires var colon := Ascii(":")[0];
             Free([b.profile.name, b.route, b.messageType], colon) && Free([d.profile.name, d.route, d.messageType], colon)
    ensures RouteKeyInfo(b) == RouteKeyInfo(d) <==>
              b.profile.name == d.profile.name && b.route == d.route && b.messageType == d.messageType
  {
    hide Ascii, RouteKeyInfo, Join;
    var colon := Ascii(":")[0];
    var head := Ascii("pacific-rim:comm-security:v1:");
    var x, y := [b.profile.name, b.route, b.messageType], [d.profile.name, d.route, d.messageType];
    InfoJoins(b);
    InfoJoins(d);
    assert Ascii(":") == [colon];
    JoinOneToOne(x, y, colon);
    assert RouteKeyInfo(b)[|head|..] == Join(x, [colon]) && RouteKeyInfo(d)[|head|..] == Join(y, [colon]);
    assert x == y <==> x[0] == y[0] && x[1] == y[1] && x[2] == y[2];
  }
}
