/**
 The security envelope of the Go and C++ codecs: a 57-byte header, the key id, the ciphertext and
 a 16-byte tag.  Marshalling and parsing are inverse to each other exactly on well-formed input,
 and the two languages agree byte for byte.
 */
module SecurityEnvelope {
  import opened Bytes
  import opened Words
  import opened MachineWords
  import opened Gcm

  // Strings are modelled as their bytes; the 64-bit fields as naturals below 2^64.
  datatype Envelope = Envelope(
    algorithm: bv8,
    keyId: Bytes,
    senderId: nat,
    sequence: nat,
    nonce: Nonce,
    aadHash: Block,
    ciphertext: Bytes,
    tag: Bytes)
  {
    ghost predicate Typed() {
      senderId < U64 && sequence < U64
    }

    // What the format can represent.
    ghost predicate WellFormed() {
      1 <= |keyId| <= 255 && |ciphertext| < U32 && |tag| == 16
    }
  }

  const HEADER_LENGTH := 57
  const TAG_LENGTH := 16

  const TOO_SHORT := "security envelope is too short"
  const BAD_MAGIC := "security envelope magic mismatch"
  const BAD_VERSION := "unsupported security envelope version"
  const EMPTY_KEY_ID := "security envelope key_id is empty"
  const BAD_LENGTH := "security envelope length mismatch"
  const KEY_ID_TOO_LONG := "security key_id is too long"

  function Magic(): (m: Bytes)
    ensures |m| == 4
  {
    [0x50, 0x52, 0x53, 0x43]
  }

  // ----- The wire format

  function Prefix(algorithm: bv8, keyIdLength: nat): (r: Bytes)
    ensures |r| == 9
  {
    Magic() + [1, algorithm, 0, 0, IntByte(keyIdLength % 256)]
  }

  // Lengths are cast to their field width, so over-long values wrap.
  function Marshalled(e: Envelope): (r: Bytes)
    ensures |r| == HEADER_LENGTH + |e.keyId| + |e.ciphertext| + |e.tag|
  {
    Prefix(e.algorithm, |e.keyId|) + LE(e.senderId, 8) + LE(e.sequence, 8) + e.nonce + e.aadHash +
    LE(|e.ciphertext|, 4) + e.keyId + e.ciphertext + e.tag
  }

  function KeyIdLength(data: Bytes): nat
    requires |data| >= HEADER_LENGTH
  {
    ByteInt(data[8])
  }

  function CiphertextLength(data: Bytes): nat
    requires |data| >= HEADER_LENGTH
  {
    LEValue(data[53..57])
  }

  function Fields(data: Bytes): Envelope
    requires |data| >= HEADER_LENGTH
    requires |data| == HEADER_LENGTH + KeyIdLength(data) + CiphertextLength(data) + TAG_LENGTH
  {
    var k := HEADER_LENGTH + KeyIdLength(data);
    var c := k + CiphertextLength(data);
    Envelope(data[5], data[57..k], LEValue(data[9..17]), LEValue(data[17..25]),
             data[25..37], data[37..53], data[k..c], data[c..])
  }

  function Parsed(data: Bytes): Result<Envelope> {
    if |data| < HEADER_LENGTH + TAG_LENGTH then Failure(TOO_SHORT)
    else if data[..4] != Magic() then Failure(BAD_MAGIC)
    else if data[4] != 1 then Failure(BAD_VERSION)
    else if KeyIdLength(data) == 0 then Failure(EMPTY_KEY_ID)
    else if |data| != HEADER_LENGTH + KeyIdLength(data) + CiphertextLength(data) + TAG_LENGTH then Failure(BAD_LENGTH)
    else Success(Fields(data))
  }

  // ----- The codecs

  method AppendLE(prefix: Bytes, value: nat, width: nat) returns (out: Bytes)
    ensures out == prefix + LE(value, width)
  {
    hide IntByte, LE;
    out := prefix;
    for k := 0 to width
      invariant out == prefix + LE(value, width)[..k]
    {
      LEAt(value, width, k);
      out := out + [IntByte(value / Pow256(k) % 256)];
    }
  }

  method ReadLE(data: Bytes, offset: nat, width: nat) returns (value: nat)
    requires offset + width <= |data|
    ensures value == LEValue(data[offset..offset + width])
  {
    hide ByteInt;
    value := 0;
    var index := width;
    while index > 0
      invariant 0 <= index <= width
      invariant value == LEValue(data[offset + index..offset + width])
    {
      index := index - 1;
      value := value * 256 + ByteInt(data[offset + index]);
      assert data[offset + index..offset + width][1..] == data[offset + index + 1..offset + width];
    }
  }

  method MarshalGo(e: Envelope) returns (out: Bytes)
    ensures out == Marshalled(e)
  {
    hide IntByte, LE;
    out := Magic();
    out := out + [1];
    out := out + [e.algorithm];
    out := out + [0, 0];
    out := out + [IntByte(|e.keyId| % 256)];
    assert out == Prefix(e.algorithm, |e.keyId|);
    out := AppendLE(out, e.senderId, 8);
    out := AppendLE(out, e.sequence, 8);
    out := out + e.nonce;
    out := out + e.aadHash;
    out := AppendLE(out, |e.ciphertext|, 4);
    out := out + e.keyId;
    out := out + e.ciphertext;
    out := out + e.tag;
  }

  /** The C++ writer: it refuses key ids the length byte cannot hold, and appends its 16-, 32- and
      64-bit fields by shifting and masking. */
  method MarshalCpp(e: Envelope) returns (r: Result<Bytes>)
    ensures r == if |e.keyId| > 255 then Failure(KEY_ID_TOO_LONG) else Success(Marshalled(e))
  {
    hide IntByte, LE, Octets, Octets32, Word64, Word32;
    if |e.keyId| > 255 {
      return Failure(KEY_ID_TOO_LONG);
    }
    CastKeeps(e.senderId);
    CastKeeps(e.sequence);
    CastKeeps(|e.ciphertext|);
    var out := [0x50, 0x52, 0x53, 0x43];
    out := out + [1];
    out := out + [e.algorithm];
    out := AppendLE16(out, 0);
    out := out + [IntByte(|e.keyId| % 256)];
    assert out == Prefix(e.algorithm, |e.keyId|);
    out := AppendLE64(out, Word64(e.senderId));
    out := AppendLE64(out, Word64(e.sequence));
    out := out + e.nonce;
    out := out + e.aadHash;
    out := AppendLE32(out, Word32(|e.ciphertext|));
    out := out + e.keyId;
    out := out + e.ciphertext;
    out := out + e.tag;
    return Success(out);
  }

  method UnmarshalGo(data: Bytes) returns (r: Result<Envelope>)
    ensures r == Parsed(data)
  {
    hide ByteInt, LEValue;
    if |data| < HEADER_LENGTH + TAG_LENGTH {
      return Failure(TOO_SHORT);
    }
    if data[..4] != Magic() {
      return Failure(BAD_MAGIC);
    }
    var offset := 4;
    var version := data[offset];
    offset := offset + 1;
    if version != 1 {
      return Failure(BAD_VERSION);
    }
    var algorithm := data[offset];
    offset := offset + 1;
    offset := offset + 2;
    var keyIdLen := ByteInt(data[offset]);
    offset := offset + 1;
    var senderId := ReadLE(data, offset, 8);
    offset := offset + 8;
    var sequence := ReadLE(data, offset, 8);
    offset := offset + 8;
    var nonce := data[offset..offset + 12];
    offset := offset + 12;
    var aadHash := data[offset..offset + 16];
    offset := offset + 16;
    var ciphertextLen := ReadLE(data, offset, 4);
    offset := offset + 4;
    if keyIdLen == 0 {
      return Failure(EMPTY_KEY_ID);
    }
    if |data| != offset + keyIdLen + ciphertextLen + TAG_LENGTH {
      return Failure(BAD_LENGTH);
    }
    var keyId := data[offset..offset + keyIdLen];
    offset := offset + keyIdLen;
    var ciphertext := data[offset..offset + ciphertextLen];
    offset := offset + ciphertextLen;
    var tag := data[offset..offset + TAG_LENGTH];
    assert tag == data[offset..];
    return Success(Envelope(algorithm, keyId, senderId, sequence, nonce, aadHash, ciphertext, tag));
  }

  // C++ reports an empty key id as a length mismatch.
  function CppError(r: Result<Envelope>): Result<Envelope> {
    if r == Failure(EMPTY_KEY_ID) then Failure(BAD_LENGTH) else r
  }

  /** The C++ reader: bytes are compared one by one, the fields are put together by shifts, and an empty
      key id is found by the length check. */
  method ParseCpp(data: Bytes) returns (r: Result<Envelope>)
    ensures r == CppError(Parsed(data))
  {
    hide ByteInt, LEValue, Value64, Value32;
    if |data| < 57 + 16 {
      return Failure(TOO_SHORT);
    }
    assert data[..4] == [data[0], data[1], data[2], data[3]];
    if data[0] != 0x50 || data[1] != 0x52 || data[2] != 0x53 || data[3] != 0x43 {
      return Failure(BAD_MAGIC);
    }
    var offset := 4;
    if data[offset] != 1 {
      return Failure(BAD_VERSION);
    }
    offset := offset + 1;
    var algorithm := data[offset];
    offset := offset + 1;
    offset := offset + 2;
    var keyIdLen := ByteInt(data[offset]);
    offset := offset + 1;
    var senderId := ReadLE64(data, offset);
    offset := offset + 8;
    var sequence := ReadLE64(data, offset);
    offset := offset + 8;
    var nonce := data[offset..offset + 12];
    offset := offset + 12;
    var aadHash := data[offset..offset + 16];
    offset := offset + 16;
    var length := ReadLE32(data, offset);
    var ciphertextLen := Value32(length);
    offset := offset + 4;
    if keyIdLen == 0 || |data| != offset + keyIdLen + ciphertextLen + 16 {
      return Failure(BAD_LENGTH);
    }
    var keyId := data[offset..offset + keyIdLen];
    offset := offset + keyIdLen;
    var ciphertext := data[offset..offset + ciphertextLen];
    offset := offset + ciphertextLen;
    var tag := data[offset..offset + 16];
    assert tag == data[offset..];
    return Success(Envelope(algorithm, keyId, Value64(senderId), Value64(sequence), nonce, aadHash, ciphertext, tag));
  }

  // ----- Inverses

  lemma HeaderFields(e: Envelope)
    requires e.Typed()
    ensures var d := Marshalled(e);
            && d[..4] == Magic() && d[4] == 1 && d[5] == e.algorithm
            && KeyIdLength(d) == |e.keyId| % 256
            && LEValue(d[9..17]) == e.senderId && LEValue(d[17..25]) == e.sequence
            && d[25..37] == e.nonce && d[37..53] == e.aadHash
            && CiphertextLength(d) == |e.ciphertext| % U32
  {
    hide LE, LEValue, IntByte, ByteInt;
    var d := Marshalled(e);
    assert d[8] == IntByte(|e.keyId| % 256);
    ByteIntOfInt(|e.keyId| % 256);
    assert d[9..17] == LE(e.senderId, 8);
    assert d[17..25] == LE(e.sequence, 8);
    assert d[53..57] == LE(|e.ciphertext|, 4);
    LEValueOfLE(e.senderId, 8);
    LEValueOfLE(e.sequence, 8);
    LEValueOfLE(|e.ciphertext|, 4);
    Widths();
  }

  /** An envelope survives marshalling and parsing exactly when it is well-formed: otherwise a
      wrapped length or a missing part makes the parser refuse or read other fields. */
  lemma ParseOfMarshal(e: Envelope)
    requires e.Typed()
    ensures Parsed(Marshalled(e)) == Success(e) <==> e.WellFormed()
    ensures e.WellFormed() || Parsed(Marshalled(e)).Failure?
  {
    hide LE, LEValue, IntByte, ByteInt;
    HeaderFields(e);
    var d := Marshalled(e);
    if e.WellFormed() {
      var k := HEADER_LENGTH + |e.keyId|;
      var c := k + |e.ciphertext|;
      assert d[57..k] == e.keyId;
      assert d[k..c] == e.ciphertext;
      assert d[c..] == e.tag;
      assert Fields(d) == e;
    } else if |d| == HEADER_LENGTH + KeyIdLength(d) + CiphertextLength(d) + TAG_LENGTH && |e.keyId| % 256 != 0 {
      LengthsForced(|e.keyId|, |e.ciphertext|, |e.tag|);
    }
  }

  lemma LengthsForced(keyId: nat, ciphertext: nat, tag: nat)
    requires keyId + ciphertext + tag == keyId % 256 + ciphertext % U32 + 16
    ensures keyId < 256 && ciphertext < U32 && tag == 16
  {
  }

  lemma ReservedZeroed(d: Bytes)
    requires |d| >= 9 && d[..4] == Magic() && d[4] == 1
    ensures Prefix(d[5], ByteInt(d[8])) == d[6 := 0][7 := 0][..9]
  {
    hide IntByte, ByteInt;
    IntByteOfByte(d[8]);
    forall i | 0 <= i < 4
      ensures d[i] == Magic()[i]
    {
      assert d[i] == d[..4][i];
    }
  }

  lemma Pieces(z: Bytes, k: nat, c: nat)
    requires 57 <= k <= c <= |z|
    ensures z == z[..9] + z[9..17] + z[17..25] + z[25..37] + z[37..53] + z[53..57] + z[57..k] + z[k..c] + z[c..]
  {
  }

  lemma SamePieces(d: Bytes, z: Bytes, k: nat, c: nat)
    requires |d| == |z| && 57 <= k <= c <= |z| && d[9..] == z[9..]
    ensures d[9..17] == z[9..17] && d[17..25] == z[17..25] && d[25..37] == z[25..37] && d[37..53] == z[37..53]
    ensures d[53..57] == z[53..57] && d[57..k] == z[57..k] && d[k..c] == z[k..c] && d[c..] == z[c..]
  {
  }

  lemma MarshalledFromPieces(e: Envelope, z: Bytes, k: nat, c: nat)
    requires 57 <= k <= c <= |z|
    requires Prefix(e.algorithm, |e.keyId|) == z[..9]
    requires LE(e.senderId, 8) == z[9..17] && LE(e.sequence, 8) == z[17..25]
    requires e.nonce == z[25..37] && e.aadHash == z[37..53] && LE(|e.ciphertext|, 4) == z[53..57]
    requires e.keyId == z[57..k] && e.ciphertext == z[k..c] && e.tag == z[c..]
    ensures Marshalled(e) == z
  {
    hide LE, Prefix;
    Pieces(z, k, c);
  }

  /** Marshalling a parsed envelope restores the input with the two reserved bytes zeroed. */
  lemma MarshalOfParse(d: Bytes)
    requires Parsed(d).Success?
    ensures Parsed(d).value.Typed() && Parsed(d).value.WellFormed()
    ensures |d| >= 8 && Marshalled(Parsed(d).value) == d[6 := 0][7 := 0]
  {
    hide LE, LEValue, IntByte, ByteInt, Prefix, Marshalled;
    var e := Parsed(d).value;
    var z := d[6 := 0][7 := 0];
    LEOfLEValue(d[9..17]);
    LEOfLEValue(d[17..25]);
    LEOfLEValue(d[53..57]);
    Widths();
    ReservedZeroed(d);
    var k := HEADER_LENGTH + |e.keyId|;
    var c := k + |e.ciphertext|;
    assert z[9..] == d[9..];
    SamePieces(d, z, k, c);
    MarshalledFromPieces(e, z, k, c);
  }
}
