/**
 The CDR form of the message envelope: its writer, the reader that recovers the payload, and the
 monitor's reader that recovers the time of creation.
 */
module Cdr {
  import opened Bytes
  import opened Words
  import opened Text

  datatype Channel = Channel(name: Bytes, messageType: Bytes, metadata: map<string, Bytes>) {
    function MetadataValue(key: string): Bytes {
      if key in metadata then metadata[key] else []
    }
  }

  // ----- The format

  // Alignment counts from the end of the four-byte encapsulation header.
  function PayloadOffset(offset: nat): nat {
    if offset <= 4 then 0 else offset - 4
  }

  function Padding(offset: nat, alignment: nat): nat
    requires alignment >= 1
  {
    (alignment - PayloadOffset(offset) % alignment) % alignment
  }

  function Align(offset: nat, alignment: nat): nat
    requires alignment >= 1
  {
    offset + Padding(offset, alignment)
  }

  function Padded(buffer: Bytes, alignment: nat): (b: Bytes)
    requires alignment >= 1
    ensures |b| == Align(|buffer|, alignment)
  {
    buffer + Zeros(Padding(|buffer|, alignment))
  }

  function WithString(buffer: Bytes, value: Bytes): Bytes {
    Padded(buffer, 4) + LE((|value| + 1) % U32, 4) + value + [0]
  }

  function WithStrings(buffer: Bytes, values: seq<Bytes>): Bytes
    decreases |values|
  {
    if values == [] then buffer else WithStrings(WithString(buffer, values[0]), values[1..])
  }

  const PROTOBUF: Bytes := [0x70, 0x72, 0x6F, 0x74, 0x6F, 0x62, 0x75, 0x66]

  // message type, codec, route and trace
  function Fields(channel: Channel): (fields: seq<Bytes>)
    ensures |fields| == 4
  {
    var codec, route := channel.MetadataValue("codec"), channel.MetadataValue("logical_route");
    [if channel.messageType == [] then channel.MetadataValue("schema.type") else channel.messageType,
     if codec == [] then PROTOBUF else codec,
     if route == [] then channel.name else route,
     channel.MetadataValue("trace_id")]
  }

  function Header(channel: Channel): Bytes {
    WithStrings([0x00, 0x01, 0x00, 0x00], Fields(channel))
  }

  function Stamped(channel: Channel, now: nat): Bytes {
    Padded(Header(channel), 8) + LE(now, 8)
  }

  // The encoding of a payload at a given time.
  function Encoded(channel: Channel, payload: Bytes, now: nat): Bytes {
    Padded(Stamped(channel, now), 4) + LE(|payload| % U32, 4) + payload
  }

  // ----- The writer

  method AlignCDR(buffer: Bytes, alignment: nat) returns (out: Bytes)
    requires alignment >= 1
    ensures out == Padded(buffer, alignment)
  {
    out := buffer;
    if alignment > 1 {
      var padding := (alignment - PayloadOffset(|buffer|) % alignment) % alignment;
      out := out + Zeros(padding);
    }
  }

  method AppendUint32(buffer: Bytes, value: nat) returns (out: Bytes)
    ensures out == buffer + LE(value, 4)
  {
    hide IntByte, LE;
    LEAt(value, 4, 0);
    LEAt(value, 4, 1);
    LEAt(value, 4, 2);
    LEAt(value, 4, 3);
    out := buffer + [IntByte(value % 256)];
    out := out + [IntByte(value / 0x100 % 256)];
    out := out + [IntByte(value / 0x10000 % 256)];
    out := out + [IntByte(value / 0x1000000 % 256)];
  }

  method AppendUint64(buffer: Bytes, value: nat) returns (out: Bytes)
    ensures out == buffer + LE(value, 8)
  {
    hide IntByte, LE;
    out := buffer;
    for k := 0 to 8
      invariant out == buffer + LE(value, 8)[..k]
    {
      LEAt(value, 8, k);
      out := out + [IntByte(value / Pow256(k) % 256)];
    }
  }

  method AppendCDRString(buffer: Bytes, value: Bytes) returns (out: Bytes)
    ensures out == WithString(buffer, value)
  {
    out := AlignCDR(buffer, 4);
    out := AppendUint32(out, (|value| + 1) % U32);
    out := out + value;
    out := out + [0];
  }

  method EncodeProtoEnvelopeCDR(channel: Channel, payload: Bytes, now: nat) returns (buffer: Bytes)
    ensures buffer == Encoded(channel, payload, now)
  {
    hide WithString, Padded, LE;
    buffer := [0x00, 0x01, 0x00, 0x00];
    var typeName := if channel.messageType == [] then channel.MetadataValue("schema.type") else channel.messageType;
    var b1 := AppendCDRString(buffer, typeName);
    var codec := channel.MetadataValue("codec");
    codec := if codec == [] then PROTOBUF else codec;
    var b2 := AppendCDRString(b1, codec);
    var route := channel.MetadataValue("logical_route");
    route := if route == [] then channel.name else route;
    var b3 := AppendCDRString(b2, route);
    var trace := channel.MetadataValue("trace_id");
    var b4 := AppendCDRString(b3, trace);
    FourStrings(buffer, typeName, codec, route, trace);
    buffer := AlignCDR(b4, 8);
    buffer := AppendUint64(buffer, now);
    buffer := AlignCDR(buffer, 4);
    buffer := AppendUint32(buffer, |payload| % U32);
    buffer := buffer + payload;
  }

  lemma FourStrings(buffer: Bytes, a: Bytes, b: Bytes, c: Bytes, d: Bytes)
    ensures WithStrings(buffer, [a, b, c, d]) == WithString(WithString(WithString(WithString(buffer, a), b), c), d)
  {
    hide WithString;
    var b1 := WithString(buffer, a);
    var b2 := WithString(b1, b);
    var b3 := WithString(b2, c);
    assert [d][1..] == [];
    assert WithStrings(b3, [d]) == WithString(b3, d);
    assert [c, d][1..] == [d];
    assert WithStrings(b2, [c, d]) == WithString(b3, d);
    assert [b, c, d][1..] == [c, d];
    assert WithStrings(b1, [b, c, d]) == WithString(b3, d);
    assert [a, b, c, d][1..] == [b, c, d];
  }

  // ----- The readers on values

  function Uint32At(data: Bytes, offset: nat): Option<nat> {
    if offset + 4 > |data| then None else Some(LEValue(data[offset..offset + 4]))
  }

  // Where a reader stands once it has aligned and tried the length.
  function AfterLength(data: Bytes, offset: nat): nat {
    var at := Align(offset, 4);
    if Uint32At(data, at).Some? then at + 4 else at
  }

  // Where the string that starts at or after an offset ends.
  function StringEnd(data: Bytes, offset: nat): Option<nat> {
    var at := Align(offset, 4);
    match Uint32At(data, at)
    case None => None
    case Some(length) => if length == 0 || at + 4 + length > |data| then None else Some(at + 4 + length)
  }

  function StringsEnd(data: Bytes, offset: nat, count: nat): Option<nat>
    decreases count
  {
    if count == 0 then Some(offset)
    else match StringEnd(data, offset)
         case None => None
         case Some(end) => StringsEnd(data, end, count - 1)
  }

  predicate HasHeader(data: Bytes) {
    |data| >= 4 && data[0] == 0x00 && data[1] == 0x01
  }

  // Where the eight bytes of the timestamp start.
  function StampAt(data: Bytes): Option<nat> {
    if !HasHeader(data) then None
    else match StringsEnd(data, 4, 4)
         case None => None
         case Some(end) => if Align(end, 8) + 8 > |data| then None else Some(Align(end, 8))
  }

  function PayloadOf(data: Bytes): Option<Bytes> {
    match StampAt(data)
    case None => None
    case Some(stamp) =>
      var at := Align(stamp + 8, 4);
      match Uint32At(data, at)
      case None => None
      case Some(length) => if at + 4 + length > |data| then None else Some(data[at + 4..at + 4 + length])
  }

  // What is not an envelope is its own payload.
  function Decoded(data: Bytes): Bytes {
    match PayloadOf(data)
    case None => data
    case Some(payload) => payload
  }

  function CreatedAt(data: Bytes): Option<nat> {
    match StampAt(data)
    case None => None
    case Some(stamp) =>
      var value := LEValue(data[stamp..stamp + 8]);
      if value > 0 then Some(value) else None
  }

  lemma MultiplesOrdered(a: nat, j: nat, k: nat)
    requires a >= 1 && a * j < a * k
    ensures a * j + a <= a * k
  {
    assert j < k;
    MulMono(a, j + 1, k);
  }

  lemma NextMultiple(n: nat, a: nat)
    requires a >= 1
    ensures var m := n + (a - n % a) % a; n <= m < n + a && m % a == 0
  {
    var q, r := n / a, n % a;
    assert n == a * q + r;
    if r > 0 {
      assert (a - r) % a == a - r;
      DivModUnique(n + (a - r), a, q + 1, 0);
    } else {
      assert a % a == 0;
    }
  }

  /** Past the header, aligning moves to the least position at or after the offset whose distance from the
      header's end is a multiple of the alignment. */
  lemma AlignLeast(offset: nat, alignment: nat, at: nat)
    requires offset >= 4 && alignment >= 1
    ensures Align(offset, alignment) >= offset && (Align(offset, alignment) - 4) % alignment == 0
    ensures at >= offset && (at - 4) % alignment == 0 ==> Align(offset, alignment) <= at
  {
    NextMultiple(offset - 4, alignment);
    var m := Align(offset, alignment) - 4;
    if at >= offset && (at - 4) % alignment == 0 && at - 4 < m {
      MultiplesOrdered(alignment, (at - 4) / alignment, m / alignment);
    }
  }

  lemma ProtobufName()
    ensures PROTOBUF == Ascii("protobuf")
  {
    AsciiIs("protobuf", PROTOBUF);
  }

  // ----- The readers

  class CdrEnvelopeReader {
    const data: Bytes
    var offset: nat

    constructor (data: Bytes)
      ensures this.data == data && offset == 0
    {
      this.data := data;
      offset := 0;
    }

    method SkipEnvelopeHeader() returns (ok: bool)
      modifies this
      ensures ok == HasHeader(data)
      ensures offset == if ok then 4 else old(offset)
    {
      if |data| < 4 || data[0] != 0x00 || data[1] != 0x01 {
        return false;
      }
      offset := 4;
      return true;
    }

    method AlignTo(alignment: nat)
      requires alignment >= 1
      modifies this
      ensures offset == Align(old(offset), alignment)
    {
      var padding := (alignment - PayloadOffset(offset) % alignment) % alignment;
      offset := offset + padding;
    }

    method ReadUint32() returns (value: Option<nat>)
      modifies this
      ensures value == Uint32At(data, old(offset))
      ensures offset == old(offset) + if value.Some? then 4 else 0
    {
      hide LEValue, ByteInt;
      if offset + 4 > |data| {
        return None;
      }
      LEValueOf4(data[offset], data[offset + 1], data[offset + 2], data[offset + 3]);
      assert data[offset..offset + 4] == [data[offset], data[offset + 1], data[offset + 2], data[offset + 3]];
      value := Some(ByteInt(data[offset]) + ByteInt(data[offset + 1]) * 0x100
                    + ByteInt(data[offset + 2]) * 0x10000 + ByteInt(data[offset + 3]) * 0x1000000);
      offset := offset + 4;
    }

    method SkipString() returns (ok: bool)
      modifies this
      ensures ok == StringEnd(data, old(offset)).Some?
      ensures offset == if ok then StringEnd(data, old(offset)).value else AfterLength(data, old(offset))
    {
      AlignTo(4);
      var length := ReadUint32();
      if length.None? || length.value == 0 || offset + length.value > |data| {
        return false;
      }
      offset := offset + length.value;
      return true;
    }

    method SkipUint64() returns (ok: bool)
      modifies this
      ensures ok == (Align(old(offset), 8) + 8 <= |data|)
      ensures offset == Align(old(offset), 8) + if ok then 8 else 0
    {
      AlignTo(8);
      if offset + 8 > |data| {
        return false;
      }
      offset := offset + 8;
      return true;
    }

    method ReadBytes() returns (payload: Option<Bytes>)
      modifies this
      ensures var at := Align(old(offset), 4);
              match Uint32At(data, at)
              case None => payload == None
              case Some(length) =>
                if at + 4 + length > |data| then payload == None
                else payload == Some(data[at + 4..at + 4 + length]) && offset == at + 4 + length
      ensures payload.None? ==> offset == AfterLength(data, old(offset))
    {
      AlignTo(4);
      var length := ReadUint32();
      if length.None? || offset + length.value > |data| {
        return None;
      }
      payload := Some(data[offset..offset + length.value]);
      offset := offset + length.value;
    }
  }

  method DecodeProtoEnvelopeCDRPayload(data: Bytes) returns (payload: Bytes)
    ensures payload == Decoded(data)
  {
    hide Align, Uint32At, StringEnd;
    var reader := new CdrEnvelopeReader(data);
    var ok := reader.SkipEnvelopeHeader();
    if !ok {
      return data;
    }
    for i := 0 to 4
      invariant reader.data == data && HasHeader(data)
      invariant StringsEnd(data, 4, 4) == StringsEnd(data, reader.offset, 4 - i)
    {
      ok := reader.SkipString();
      if !ok {
        return data;
      }
    }
    ok := reader.SkipUint64();
    if !ok {
      return data;
    }
    var read := reader.ReadBytes();
    if read.None? {
      return data;
    }
    return read.value;
  }

  /** The monitor's reader, with an offset of its own. */
  method CdrCreatedAtUnixMs(data: Bytes) returns (created: Option<nat>)
    ensures created == CreatedAt(data)
  {
    hide Align, Uint32At, LEValue, ByteInt;
    if |data| < 4 || data[0] != 0x00 || data[1] != 0x01 {
      return None;
    }
    var offset: nat := 4;
    for i := 0 to 4
      invariant StringsEnd(data, 4, 4) == StringsEnd(data, offset, 4 - i)
    {
      offset := Align(offset, 4);
      var length := Uint32At(data, offset);
      if length.None? || length.value == 0 || offset + 4 + length.value > |data| {
        return None;
      }
      offset := offset + 4 + length.value;
    }
    offset := Align(offset, 8);
    if offset + 8 > |data| {
      return None;
    }
    var value := 0;
    ghost var stamp := offset;
    LEValueEmpty();
    assert data[stamp..stamp] == [];
    for k := 0 to 8
      invariant offset == stamp + k && stamp + 8 <= |data|
      invariant value == LEValue(data[stamp..stamp + k])
    {
      LEValueSnoc(data[stamp..stamp + k], data[offset]);
      assert data[stamp..stamp + k + 1] == data[stamp..stamp + k] + [data[offset]];
      value := value + ByteInt(data[offset]) * Pow256(k);
      offset := offset + 1;
    }
    created := if value > 0 then Some(value) else None;
  }

  lemma LEValueEmpty()
    ensures LEValue([]) == 0
  {
  }

  lemma {:induction false} LEValueSnoc(s: Bytes, b: bv8)
    ensures LEValue(s + [b]) == LEValue(s) + ByteInt(b) * Pow256(|s|)
  {
    hide ByteInt;
    if s != [] {
      assert (s + [b])[1..] == s[1..] + [b];
      LEValueSnoc(s[1..], b);
      Carry(LEValue(s[1..]), ByteInt(b), Pow256(|s| - 1));
    } else {
      assert ([b])[1..] == [];
    }
  }

  lemma Carry(v: nat, b: nat, p: nat)
    ensures 256 * (v + b * p) == 256 * v + b * (256 * p)
  {
  }

  // ----- Laws

  // Reading where a string was written skips exactly that string, whatever follows.
  lemma SkipWritten(buffer: Bytes, value: Bytes, tail: Bytes)
    requires |value| + 1 < U32
    ensures StringEnd(WithString(buffer, value) + tail, |buffer|) == Some(|WithString(buffer, value)|)
  {
    hide LE, LEValue, Align;
    var data, at := WithString(buffer, value) + tail, Align(|buffer|, 4);
    assert data[at..at + 4] == LE(|value| + 1, 4);
    LEValueOfLE(|value| + 1, 4);
    Widths();
  }

  lemma {:induction false} SkipAllWritten(buffer: Bytes, values: seq<Bytes>, tail: Bytes)
    requires forall v :: v in values ==> |v| + 1 < U32
    ensures |WithStrings(buffer, values)| >= |buffer| && WithStrings(buffer, values)[..|buffer|] == buffer
    ensures StringsEnd(WithStrings(buffer, values) + tail, |buffer|, |values|) == Some(|WithStrings(buffer, values)|)
    decreases |values|
  {
    hide WithString, StringEnd;
    if values != [] {
      var next := WithString(buffer, values[0]);
      SkipAllWritten(next, values[1..], tail);
      var whole := WithStrings(next, values[1..]);
      StringExtends(buffer, values[0]);
      var rest := whole[|next|..] + tail;
      assert whole + tail == next + rest;
      SkipWritten(buffer, values[0], rest);
    }
  }

  lemma StringExtends(buffer: Bytes, value: Bytes)
    ensures |WithString(buffer, value)| >= |buffer| && WithString(buffer, value)[..|buffer|] == buffer
  {
  }

  // The string that starts at or after an offset, and the strings from there on, without their final NULs.
  function StringAt(data: Bytes, offset: nat): Bytes
    requires StringEnd(data, offset).Some?
  {
    data[Align(offset, 4) + 4..StringEnd(data, offset).value - 1]
  }

  function StringsAt(data: Bytes, offset: nat, count: nat): seq<Bytes>
    requires StringsEnd(data, offset, count).Some?
    decreases count
  {
    if count == 0 then [] else [StringAt(data, offset)] + StringsAt(data, StringEnd(data, offset).value, count - 1)
  }

  lemma ReadWritten(buffer: Bytes, value: Bytes, tail: Bytes)
    requires |value| + 1 < U32
    ensures StringEnd(WithString(buffer, value) + tail, |buffer|) == Some(|WithString(buffer, value)|)
    ensures StringAt(WithString(buffer, value) + tail, |buffer|) == value
  {
    hide LE, LEValue, Align;
    SkipWritten(buffer, value, tail);
  }

  lemma {:induction false} ReadAllWritten(buffer: Bytes, values: seq<Bytes>, tail: Bytes)
    requires forall v :: v in values ==> |v| + 1 < U32
    ensures StringsEnd(WithStrings(buffer, values) + tail, |buffer|, |values|).Some?
    ensures StringsAt(WithStrings(buffer, values) + tail, |buffer|, |values|) == values
    decreases |values|
  {
    hide WithString, StringEnd, StringAt;
    SkipAllWritten(buffer, values, tail);
    if values != [] {
      var next := WithString(buffer, values[0]);
      SkipAllWritten(next, values[1..], tail);
      ReadAllWritten(next, values[1..], tail);
      var whole := WithStrings(next, values[1..]);
      var rest := whole[|next|..] + tail;
      assert whole + tail == next + rest;
      ReadWritten(buffer, values[0], rest);
    }
  }

  // The four strings fit their length fields.
  predicate Fits(channel: Channel) {
    forall f :: f in Fields(channel) ==> |f| + 1 < U32
  }

  lemma StampFound(channel: Channel, payload: Bytes, now: nat)
    requires Fits(channel) && now < U64
    ensures var data := Encoded(channel, payload, now);
            && StampAt(data) == Some(|Stamped(channel, now)| - 8)
            && data[|Stamped(channel, now)| - 8..|Stamped(channel, now)|] == LE(now, 8)
  {
    hide WithStrings, StringsEnd, Fields, LE, Align;
    var start: Bytes := [0x00, 0x01, 0x00, 0x00];
    var header, stamped, data := Header(channel), Stamped(channel, now), Encoded(channel, payload, now);
    assert data == header + data[|header|..];
    SkipAllWritten(start, Fields(channel), data[|header|..]);
    assert data[0] == start[0] && data[1] == start[1];
    assert stamped[|stamped| - 8..] == LE(now, 8);
    assert data[|stamped| - 8..|stamped|] == stamped[|stamped| - 8..];
  }

  /** The envelope holds the channel's four strings, with the channel's type before that of its schema, its
      name where no logical route is given, and "protobuf" where no codec is. */
  lemma StringsOfEncode(channel: Channel, payload: Bytes, now: nat)
    requires Fits(channel)
    ensures var data, m := Encoded(channel, payload, now), channel.metadata;
            && StringsEnd(data, 4, 4).Some?
            && StringsAt(data, 4, 4) == [
                 if channel.messageType != [] then channel.messageType else if "schema.type" in m then m["schema.type"] else [],
                 if "codec" in m && m["codec"] != [] then m["codec"] else Ascii("protobuf"),
                 if "logical_route" in m && m["logical_route"] != [] then m["logical_route"] else channel.name,
                 if "trace_id" in m then m["trace_id"] else []]
  {
    hide WithStrings, StringsEnd, StringsAt, LE, Align, Ascii;
    var start: Bytes := [0x00, 0x01, 0x00, 0x00];
    var header, data := Header(channel), Encoded(channel, payload, now);
    assert data == header + data[|header|..];
    ReadAllWritten(start, Fields(channel), data[|header|..]);
    ProtobufName();
  }

  // A counted block of bytes at the end of a message.
  lemma BlockRead(base: Bytes, payload: Bytes)
    ensures var data, length := base + LE(|payload| % U32, 4) + payload, |payload| % U32;
            && Uint32At(data, |base|) == Some(length)
            && |base| + 4 + length <= |data|
            && data[|base| + 4..|base| + 4 + length] == payload[..length]
  {
    hide LE, LEValue;
    var data := base + LE(|payload| % U32, 4) + payload;
    assert data[|base|..|base| + 4] == LE(|payload| % U32, 4);
    LEValueOfLE(|payload| % U32, 4);
    Widths();
  }

  /** Round trip, at every field alignment: the reader recovers the payload exactly when its length fits
      the 32-bit length field. */
  lemma DecodeOfEncode(channel: Channel, payload: Bytes, now: nat)
    requires Fits(channel) && now < U64
    ensures Decoded(Encoded(channel, payload, now)) == payload <==> |payload| < U32
  {
    hide StampAt, Stamped, LE, LEValue, Align, Padding, Uint32At, Fits;
    StampFound(channel, payload, now);
    BlockRead(Padded(Stamped(channel, now), 4), payload);
    assert payload[..|payload|] == payload;
  }

  /** The monitor reads back the time that was written, unless that is zero. */
  lemma CreatedAtOfEncode(channel: Channel, payload: Bytes, now: nat)
    requires Fits(channel) && now < U64
    ensures CreatedAt(Encoded(channel, payload, now)) == if now > 0 then Some(now) else None
  {
    hide StampAt, Header, LE, LEValue, Align, Encoded;
    StampFound(channel, payload, now);
    LEValueOfLE(now, 8);
    Widths();
  }

  /** On any bytes at all, whatever the payload reader accepts has a readable time: the monitor reports
      it unless its eight bytes are zero. */
  lemma ReadersAgree(data: Bytes)
    requires PayloadOf(data).Some?
    ensures StampAt(data).Some? && StampAt(data).value + 8 <= |data|
    ensures CreatedAt(data) == None <==> data[StampAt(data).value..StampAt(data).value + 8] == Zeros(8)
  {
    hide StringsEnd, LEValue;
    var stamp := data[StampAt(data).value..StampAt(data).value + 8];
    ZeroValue(stamp);
  }

  lemma {:induction false} ZeroValue(s: Bytes)
    ensures LEValue(s) == 0 <==> s == Zeros(|s|)
  {
    hide ByteInt;
    if s != [] {
      ZeroValue(s[1..]);
      ByteZero(s[0]);
      assert s == [s[0]] + s[1..];
      assert Zeros(|s|)[1..] == Zeros(|s[1..]|);
    }
  }

  lemma ByteZero(b: bv8)
    ensures ByteInt(b) == 0 <==> b == 0
  {
  }
}
