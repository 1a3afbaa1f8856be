/** How configured security profiles are resolved, and which endpoints they bind, in Go and in C++. */
module SecurityResolution {
  import opened Bytes
  import W = Words
  import opened Text
  import opened SecurityModel
  import opened GoSecurityCodec
  import opened BusSelection
  import SB = SecureBus

  // ----- Profiles (Go)

  datatype KeyConfig = KeyConfig(keyId: Bytes, keyEnv: Bytes, saltEnv: Bytes, decryptOnly: bool)

  datatype ProfileConfig = ProfileConfig(
    enabled: Option<bool>,
    algorithm: Bytes,
    keyId: Bytes,
    encryptKeyId: Bytes,
    keyEnv: Bytes,
    saltEnv: Bytes,
    aadContext: Bytes,
    replayWindow: nat,
    keys: seq<KeyConfig>)

  // A resolved key, with the flag that keeps it from encrypting.
  datatype Key = Key(key: SecurityKey, decryptOnly: bool)

  // The environment, and the decoding of its values.
  datatype Environment = Environment(values: map<Bytes, Bytes>, decode: Bytes -> Bytes)

  function Lowered(s: Bytes): Bytes {
    seq(|s|, i requires 0 <= i < |s| => LowerByte(s[i]))
  }

  function FirstNonBlankOf(a: Bytes, b: Bytes): Bytes {
    if TrimBytes(a) != [] then a else if TrimBytes(b) != [] then b else []
  }

  function ParseAlgorithm(value: Bytes): Option<SecurityAlgorithm> {
    var t := Lowered(TrimBytes(value));
    if t == [] || t == Ascii("aes-256-gcm") || t == Ascii("aes_256_gcm") then Some(Aes256Gcm)
    else if t == Ascii("aes-128-gcm") || t == Ascii("aes_128_gcm") then Some(Aes128Gcm)
    else None
  }

  function Secret(env: Environment, name: Bytes): Option<Bytes> {
    var n := TrimBytes(name);
    if n == [] || n !in env.values || TrimBytes(env.values[n]) == [] then None else Some(env.decode(env.values[n]))
  }

  function OptionalSecret(env: Environment, name: Bytes): Option<Bytes> {
    if TrimBytes(name) == [] then Some([]) else Secret(env, name)
  }

  function KeyOf(env: Environment, k: KeyConfig): Option<Key> {
    var id := TrimBytes(k.keyId);
    if id == [] || Secret(env, k.keyEnv).None? || OptionalSecret(env, k.saltEnv).None? then None
    else Some(Key(SecurityKey(id, Secret(env, k.keyEnv).value, OptionalSecret(env, k.saltEnv).value), k.decryptOnly))
  }

  function KeyConfigs(config: ProfileConfig): seq<KeyConfig> {
    if config.keys != [] then config.keys
    else [KeyConfig(FirstNonBlankOf(config.keyId, config.encryptKeyId), config.keyEnv, config.saltEnv, false)]
  }

  const NAME_REQUIRED := "security profile name is required"
  const UNSUPPORTED_ALGORITHM := "unsupported security algorithm"
  const BAD_KEY := "security key is not usable"
  const KEY_ID_REQUIRED := "encrypt_key_id or key_id is required"
  const NOT_CONFIGURED := "encrypt key is not configured"
  const DECRYPT_ONLY := "encrypt key is decrypt_only"

  function EncryptKeyId(config: ProfileConfig): Bytes {
    TrimBytes(FirstNonBlankOf(config.encryptKeyId, config.keyId))
  }

  // The last configuration of an id wins.
  function LastKey(env: Environment, keys: seq<KeyConfig>, id: Bytes): Option<Key> {
    if keys == [] then None
    else if TrimBytes(keys[|keys| - 1].keyId) == id then KeyOf(env, keys[|keys| - 1])
    else LastKey(env, keys[..|keys| - 1], id)
  }

  method ResolveSecurityProfile(env: Environment, name: Bytes, config: ProfileConfig) returns (r: Result<SecurityProfile>)
    ensures r.Success? <==>
              && name != [] && ParseAlgorithm(config.algorithm).Some?
              && (forall k :: k in KeyConfigs(config) ==> KeyOf(env, k).Some?)
              && EncryptKeyId(config) != []
              && LastKey(env, KeyConfigs(config), EncryptKeyId(config)).Some?
              && !LastKey(env, KeyConfigs(config), EncryptKeyId(config)).value.decryptOnly
    ensures r.Success? ==>
              var p := r.value;
              && p.name == name && Some(p.algorithm) == ParseAlgorithm(config.algorithm)
              && p.KeysUnderOwnIds() && p.encryptKeyId == EncryptKeyId(config) && p.encryptKeyId in p.keys
              && (forall id :: id in p.keys <==> exists k :: k in KeyConfigs(config) && TrimBytes(k.keyId) == id)
              && p.keys[p.encryptKeyId] == LastKey(env, KeyConfigs(config), p.encryptKeyId).value.key
              && p.aadContext == TrimBytes(config.aadContext)
              && p.replayWindow == (if config.replayWindow == 0 then 4096 else config.replayWindow)
  {
    hide TrimBytes, Ascii, Secret, OptionalSecret, Lowered, FirstNonBlankOf, ParseAlgorithm, KeyConfigs;
    if name == [] {
      return Failure(NAME_REQUIRED);
    }
    var algorithm := ParseAlgorithm(config.algorithm);
    if algorithm.None? {
      return Failure(UNSUPPORTED_ALGORITHM);
    }
    var keys := KeyConfigs(config);
    var resolved: map<Bytes, Key> := map[];
    for i := 0 to |keys|
      invariant forall k :: k in keys[..i] ==> KeyOf(env, k).Some?
      invariant forall id :: id in resolved ==> LastKey(env, keys[..i], id) == Some(resolved[id]) && resolved[id].key.keyId == id
      invariant forall id :: id !in resolved ==> LastKey(env, keys[..i], id) == None
      invariant forall id :: id in resolved <==> exists k :: k in keys[..i] && TrimBytes(k.keyId) == id
    {
      assert keys[..i + 1][..i] == keys[..i] && keys[..i + 1][i] == keys[i];
      var key := KeyOf(env, keys[i]);
      if key.None? {
        assert keys[i] in keys;
        return Failure(BAD_KEY);
      }
      resolved := resolved[TrimBytes(keys[i].keyId) := key.value];
    }
    assert keys[..|keys|] == keys;
    var encryptKeyId := EncryptKeyId(config);
    if encryptKeyId == [] {
      return Failure(KEY_ID_REQUIRED);
    }
    if encryptKeyId !in resolved {
      return Failure(NOT_CONFIGURED);
    }
    if resolved[encryptKeyId].decryptOnly {
      return Failure(DECRYPT_ONLY);
    }
    return Success(SecurityProfile(name, algorithm.value, TrimBytes(config.aadContext),
                                   if config.replayWindow == 0 then 4096 else config.replayWindow,
                                   encryptKeyId, map id | id in resolved :: resolved[id].key));
  }

  // What ResolveSecurityProfile establishes of a profile.
  ghost predicate Resolved(p: SecurityProfile) {
    p.KeysUnderOwnIds() && p.encryptKeyId in p.keys && p.encryptKeyId != [] && p.replayWindow >= 1 && TrimBytes(p.aadContext) == p.aadContext
  }

  /** A resolved profile gives codecs all they need, exactly when its key id fits the envelope's length
      byte, and the two languages then authenticate the same additional data. */
  lemma ResolvedSuffices(crypto: Crypto, b: SecurityBinding, direction: Bytes)
    requires crypto.Lawful() && Resolved(b.profile)
    ensures SB.Setting(crypto, b, b.profile.replayWindow).Valid() <==> |b.profile.encryptKeyId| <= 255
    ensures GoAad(b, direction) == Aad(b, direction)
  {
    hide GoAad, Aad;
    AadAgrees(b, direction);
  }

  // A name without capitals, space or characters beyond bytes is its own normal form.
  lemma NameKept(s: string)
    requires s != "" && !IsSpace(s[0]) && !IsSpace(s[|s| - 1])
    requires forall i :: 0 <= i < |s| ==> s[i] as int < 256 && LowerChar(s[i]) == s[i]
    ensures Lowered(TrimBytes(Ascii(s))) == Ascii(s)
  {
    hide W.IntByte, LowerByte, IsSpaceByte;
    TrimAgrees(s);
    assert Trim(s) == s;
    forall i | 0 <= i < |s|
      ensures Lowered(Ascii(s))[i] == Ascii(s)[i]
    {
      LowerAgrees(s[i]);
    }
    assert Lowered(Ascii(s)) == Ascii(s);
  }

  lemma NamesApart()
    ensures Ascii("aes-128-gcm") != Ascii("aes-256-gcm") && Ascii("aes-128-gcm") != Ascii("aes_256_gcm") && |Ascii("aes-128-gcm")| > 0
  {
    AsciiOneToOne("aes-128-gcm", "aes-256-gcm");
    AsciiOneToOne("aes-128-gcm", "aes_256_gcm");
    hide Ascii;
    assert "aes-128-gcm"[4] != "aes-256-gcm"[4];
    assert "aes-128-gcm"[3] != "aes_256_gcm"[3];
  }

  lemma ParsedNames()
    ensures ParseAlgorithm(Ascii("aes-256-gcm")) == Some(Aes256Gcm) && ParseAlgorithm(Ascii("aes-128-gcm")) == Some(Aes128Gcm)
  {
    NameKept("aes-256-gcm");
    NameKept("aes-128-gcm");
    NamesApart();
    hide Ascii, Lowered, TrimBytes;
  }

  lemma NameText()
    ensures "aes-" + Decimal(256) + "-gcm" == "aes-256-gcm" && "aes-" + Decimal(128) + "-gcm" == "aes-128-gcm"
  {
    KeyBits();
    hide Decimal;
  }

  /** An algorithm's name says how many bits its keys have. */
  lemma AlgorithmNamed(a: SecurityAlgorithm)
    ensures ParseAlgorithm(Ascii("aes-" + Decimal(8 * a.KeyLength()) + "-gcm")) == Some(a)
  {
    hide ParseAlgorithm, Ascii, Decimal;
    ParsedNames();
    NameText();
  }

  lemma KeyBits()
    ensures Decimal(256) == "256" && Decimal(128) == "128"
  {
    assert Decimal(2) == "2" && Decimal(25) == "25";
    assert Decimal(1) == "1" && Decimal(12) == "12";
  }

  /** A profile without a list of keys has one key.  It encrypts unless key_id and encrypt_key_id name
      two different keys, in which case resolution fails whatever the environment holds. */
  lemma SingleKey(env: Environment, config: ProfileConfig)
    requires config.keys == [] && KeyOf(env, KeyConfigs(config)[0]).Some?
    ensures |KeyConfigs(config)| == 1
    ensures LastKey(env, KeyConfigs(config), EncryptKeyId(config)).Some? <==>
              TrimBytes(config.keyId) == [] || TrimBytes(config.encryptKeyId) == [] || TrimBytes(config.keyId) == TrimBytes(config.encryptKeyId)
    ensures LastKey(env, KeyConfigs(config), EncryptKeyId(config)).Some? ==>
              !LastKey(env, KeyConfigs(config), EncryptKeyId(config)).value.decryptOnly
  {
    hide TrimBytes, Secret, OptionalSecret;
    var only := KeyConfigs(config);
    assert LastKey(env, only, EncryptKeyId(config))
        == if TrimBytes(only[0].keyId) == EncryptKeyId(config) then KeyOf(env, only[0]) else LastKey(env, only[..0], EncryptKeyId(config));
  }

  // A variable of the environment that is set to something.
  ghost predicate IsSet(env: Environment, name: Bytes) {
    TrimBytes(name) in env.values && TrimBytes(env.values[TrimBytes(name)]) != []
  }

  /** A key is read from the variables its configuration names: the secret from one that must be named and
      set, the salt from one that must be set if it is named, both decoded. */
  lemma KeyRead(env: Environment, k: KeyConfig)
    ensures KeyOf(env, k).Some? <==>
              && TrimBytes(k.keyId) != [] && TrimBytes(k.keyEnv) != [] && IsSet(env, k.keyEnv)
              && (TrimBytes(k.saltEnv) != [] ==> IsSet(env, k.saltEnv))
    ensures KeyOf(env, k).Some? ==>
              var key := KeyOf(env, k).value;
              && key.key.keyId == TrimBytes(k.keyId) && key.key.masterKey == env.decode(env.values[TrimBytes(k.keyEnv)])
              && key.key.salt == (if TrimBytes(k.saltEnv) == [] then [] else env.decode(env.values[TrimBytes(k.saltEnv)]))
              && key.decryptOnly == k.decryptOnly
  {
    hide TrimBytes;
  }

  // ----- Algorithm names (C++)

  function Dashed(b: bv8): bv8 {
    if b == 0x5F then 0x2D else b
  }

  // SecurityAlgorithmFromString: lower case with dashes, no trimming.
  function CppAlgorithm(value: Bytes): Option<SecurityAlgorithm> {
    var t := seq(|value|, i requires 0 <= i < |value| => LowerByte(Dashed(value[i])));
    if t == [] || t == Ascii("aes-256-gcm") then Some(Aes256Gcm)
    else if t == Ascii("aes-128-gcm") then Some(Aes128Gcm)
    else None
  }

  function DashedAll(t: Bytes): (d: Bytes)
    ensures |d| == |t|
  {
    seq(|t|, i requires 0 <= i < |t| => Dashed(t[i]))
  }

  // name and its form with underscores at 3 and 7
  lemma OneForm(t: Bytes, name: Bytes, other: Bytes)
    requires |name| == |other| == 11 && other == name[3 := 0x5F][7 := 0x5F] && name[3] == name[7] == 0x2D
    requires forall i :: 0 <= i < 11 && i != 3 && i != 7 ==> name[i] != 0x2D && name[i] != 0x5F
    requires 0x2D !in t || 0x5F !in t
    ensures DashedAll(t) == name <==> t == name || t == other
  {
    if DashedAll(t) == name {
      assert forall i :: 0 <= i < 11 ==> Dashed(t[i]) == name[i];
      assert t[3] in t && t[7] in t;
    }
  }

  lemma NameBytes()
    ensures Ascii("aes-256-gcm") == [0x61, 0x65, 0x73, 0x2D, 0x32, 0x35, 0x36, 0x2D, 0x67, 0x63, 0x6D]
    ensures Ascii("aes_256_gcm") == [0x61, 0x65, 0x73, 0x5F, 0x32, 0x35, 0x36, 0x5F, 0x67, 0x63, 0x6D]
    ensures Ascii("aes-128-gcm") == [0x61, 0x65, 0x73, 0x2D, 0x31, 0x32, 0x38, 0x2D, 0x67, 0x63, 0x6D]
    ensures Ascii("aes_128_gcm") == [0x61, 0x65, 0x73, 0x5F, 0x31, 0x32, 0x38, 0x5F, 0x67, 0x63, 0x6D]
  {
    hide Ascii;
    AsciiIs("aes-256-gcm", [0x61, 0x65, 0x73, 0x2D, 0x32, 0x35, 0x36, 0x2D, 0x67, 0x63, 0x6D]);
    AsciiIs("aes_256_gcm", [0x61, 0x65, 0x73, 0x5F, 0x32, 0x35, 0x36, 0x5F, 0x67, 0x63, 0x6D]);
    AsciiIs("aes-128-gcm", [0x61, 0x65, 0x73, 0x2D, 0x31, 0x32, 0x38, 0x2D, 0x67, 0x63, 0x6D]);
    AsciiIs("aes_128_gcm", [0x61, 0x65, 0x73, 0x5F, 0x31, 0x32, 0x38, 0x5F, 0x67, 0x63, 0x6D]);
  }

  lemma LowerKeepsMarks(b: bv8)
    ensures LowerByte(Dashed(b)) == Dashed(LowerByte(b))
    ensures (LowerByte(b) == 0x2D <==> b == 0x2D) && (LowerByte(b) == 0x5F <==> b == 0x5F)
  {
  }

  /** Both languages read a trimmed algorithm name alike, unless it mixes dashes and underscores. */
  lemma AlgorithmsAgree(value: Bytes)
    requires TrimBytes(value) == value && (0x2D !in value || 0x5F !in value)
    ensures CppAlgorithm(value) == ParseAlgorithm(value)
  {
    hide TrimBytes, LowerByte, Dashed, Ascii;
    var t := Lowered(value);
    var d := seq(|value|, i requires 0 <= i < |value| => LowerByte(Dashed(value[i])));
    forall i | 0 <= i < |value|
      ensures d[i] == DashedAll(t)[i]
      ensures (t[i] == 0x2D <==> value[i] == 0x2D) && (t[i] == 0x5F <==> value[i] == 0x5F)
    {
      LowerKeepsMarks(value[i]);
    }
    assert d == DashedAll(t);
    assert 0x2D !in t || 0x5F !in t;
    NameBytes();
    OneForm(t, Ascii("aes-256-gcm"), Ascii("aes_256_gcm"));
    OneForm(t, Ascii("aes-128-gcm"), Ascii("aes_128_gcm"));
  }

  // "aes-256_gcm"
  const MixedName: Bytes := [0x61, 0x65, 0x73, 0x2D, 0x32, 0x35, 0x36, 0x5F, 0x67, 0x63, 0x6D]

  /** A mixed name is an algorithm in C++ and an error in Go. */
  lemma MixedNameDiffers()
    ensures CppAlgorithm(MixedName) == Some(Aes256Gcm) && ParseAlgorithm(MixedName) == None
  {
    NameBytes();
    assert TrimBytes(MixedName) == MixedName;
    assert Lowered(MixedName) == MixedName;
    hide Ascii, TrimBytes, Lowered;
    assert MixedName[7] == 0x5F && MixedName[3] == 0x2D;
  }

  // ----- Bindings

  datatype Runtime = Runtime(requireExplicit: bool, profiles: map<Bytes, SecurityProfile>)

  // An endpoint and the bus it is bound to, as far as security looks at them.
  datatype Target = Target(
    metadata: map<string, Bytes>,
    address: Bytes,
    messageType: Bytes,
    busName: Bytes,
    busTransport: TransportKind,
    transportName: Bytes,
    busOptions: map<string, Bytes>)
  {
    function Metadata(key: string): Bytes {
      if key in metadata then metadata[key] else []
    }

    // busSecurityProfile: the first option there is
    function GoBusProfile(): Bytes {
      FirstOption(busOptions, ["security.profile", "security_profile"])
    }

    // BusProfile
    function CppBusProfile(): Bytes {
      if "security.profile" in busOptions then busOptions["security.profile"]
      else if "security_profile" in busOptions then busOptions["security_profile"]
      else []
    }
  }

  function FirstOption(options: map<string, Bytes>, keys: seq<string>): Bytes {
    if keys == [] then [] else if keys[0] in options then options[keys[0]] else FirstOption(options, keys[1..])
  }

  datatype Choice = Inherit | NoSecurity | Profile(name: Bytes)

  const DISABLING := ["none", "disabled", "disable", "off", "plaintext", "plain"]

  // normalizeSecurityProfile
  function NormalizeProfile(value: Bytes): Choice {
    var t := Lowered(TrimBytes(value));
    if t == [] || t == Ascii("inherit") then Inherit
    else if exists i :: 0 <= i < |DISABLING| && t == Ascii(DISABLING[i]) then NoSecurity
    else Profile(TrimBytes(value))
  }

  // NormalizeProfile
  function CppNormalizeProfile(value: Bytes): Choice {
    var trimmed := TrimBytes(value);
    var t := Lowered(trimmed);
    if t == [] || t == Ascii("inherit") then Inherit
    else if t == Ascii("none") || t == Ascii("disabled") || t == Ascii("disable") || t == Ascii("off")
            || t == Ascii("plaintext") || t == Ascii("plain") then NoSecurity
    else Profile(trimmed)
  }

  lemma NormalizedAlike(value: Bytes)
    ensures CppNormalizeProfile(value) == NormalizeProfile(value)
  {
    hide Ascii, TrimBytes, Lowered;
    assert DISABLING[0] == "none" && DISABLING[1] == "disabled" && DISABLING[2] == "disable";
    assert DISABLING[3] == "off" && DISABLING[4] == "plaintext" && DISABLING[5] == "plain";
  }

  lemma OptionsAlike(t: Target)
    ensures t.GoBusProfile() == t.CppBusProfile()
  {
    var keys := ["security.profile", "security_profile"];
    assert keys[1..] == ["security_profile"] && keys[1..][1..] == [];
    assert FirstOption(t.busOptions, keys[1..])
        == if "security_profile" in t.busOptions then t.busOptions["security_profile"] else [];
  }

  const PROFILE_REQUIRED := "security_profile is required"
  const MUST_BE_EXPLICIT := "security_profile must be explicit"
  const PROFILE_UNKNOWN := "security profile is not configured or is disabled"

  function GoNamed(t: Target): (Bytes, bool) {
    if "security.profile" in t.metadata then (t.metadata["security.profile"], true)
    else if "security_profile" in t.metadata then (t.metadata["security_profile"], true)
    else ([], false)
  }

  function FirstOf(a: Bytes, b: Bytes): Bytes {
    if a != [] then a else b
  }

  function GoResolve(r: Runtime, t: Target): Result<Option<SecurityBinding>> {
    var (named, isExplicit) := GoNamed(t);
    var must := r.requireExplicit && t.busTransport.Nats?;
    match NormalizeProfile(if named == [] then t.GoBusProfile() else named)
    case NoSecurity => Success(None)
    case Inherit => if must then Failure(PROFILE_REQUIRED) else Success(None)
    case Profile(name) =>
      if !isExplicit && must then Failure(MUST_BE_EXPLICIT)
      else if name !in r.profiles then Failure(PROFILE_UNKNOWN)
      else Success(Some(SecurityBinding(
             r.profiles[name],
             FirstOf(TrimBytes(t.Metadata("logical_route")), FirstOf(TrimBytes(t.Metadata("source_name")), t.address)),
             FirstOf(TrimBytes(t.Metadata("binding_name")), t.busName),
             t.transportName, t.address, t.messageType)))
  }

  function CppResolve(r: Runtime, t: Target): Result<Option<SecurityBinding>> {
    var named := FirstOf(t.Metadata("security.profile"), t.Metadata("security_profile"));
    var must := r.requireExplicit && t.busTransport.Nats?;
    match CppNormalizeProfile(FirstOf(named, t.CppBusProfile()))
    case NoSecurity => if must then Failure(PROFILE_REQUIRED) else Success(None)
    case Inherit => if must then Failure(PROFILE_REQUIRED) else Success(None)
    case Profile(name) =>
      if named == [] && must then Failure(MUST_BE_EXPLICIT)
      else if name !in r.profiles then Failure(PROFILE_UNKNOWN)
      else Success(Some(SecurityBinding(
             r.profiles[name],
             FirstOf(t.Metadata("logical_route"), FirstOf(t.Metadata("source_name"), t.address)),
             FirstOf(t.Metadata("binding_name"), t.busName),
             t.transportName, t.address, t.messageType)))
  }

  // Nothing in the metadata that the two read differently: no blank profile, no padded names.
  predicate Tidy(t: Target) {
    && ("security.profile" in t.metadata ==> t.metadata["security.profile"] != [])
    && ("security_profile" in t.metadata ==> t.metadata["security_profile"] != [])
    && (forall key :: key in ["logical_route", "source_name", "binding_name"] ==> TrimBytes(t.Metadata(key)) == t.Metadata(key))
  }

  /** With explicit profiles required, a NATS endpoint goes unsecured in Go exactly when its profile name
      says so, be it the bus's, and in C++ never; otherwise both bind tidy endpoints alike. */
  lemma ResolutionAgrees(r: Runtime, t: Target)
    requires Tidy(t)
    ensures r.requireExplicit && t.busTransport.Nats? ==>
              && (GoResolve(r, t) == Success(None) <==> NormalizeProfile(FirstOf(GoNamed(t).0, t.GoBusProfile())).NoSecurity?)
              && CppResolve(r, t) != Success(None)
    ensures GoResolve(r, t) == CppResolve(r, t) <==>
              !(r.requireExplicit && t.busTransport.Nats? && NormalizeProfile(FirstOf(GoNamed(t).0, t.GoBusProfile())).NoSecurity?)
  {
    hide NormalizeProfile, CppNormalizeProfile, TrimBytes, FirstOption;
    OptionsAlike(t);
    NormalizedAlike(FirstOf(FirstOf(t.Metadata("security.profile"), t.Metadata("security_profile")), t.GoBusProfile()));
    assert TrimBytes(t.Metadata("logical_route")) == t.Metadata("logical_route");
    assert TrimBytes(t.Metadata("source_name")) == t.Metadata("source_name");
    assert TrimBytes(t.Metadata("binding_name")) == t.Metadata("binding_name");
  }
}
