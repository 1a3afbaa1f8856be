/** Decoding of configured secrets: base64 through a 32-bit accumulator, or the raw text. */
module Base64 {
  import opened Bytes
  import opened Text

  // ----- Text

  function Stripped(text: Bytes): Bytes {
    if text == [] then []
    else (if IsSpaceByte(text[0]) then [] else [text[0]]) + Stripped(text[1..])
  }

  // The value of a letter of the base64 alphabet.
  function Sextet(c: bv8): Option<bv8> {
    if 0x41 <= c && c <= 0x5A then Some(c - 0x41)
    else if 0x61 <= c && c <= 0x7A then Some(c - 71)
    else if 0x30 <= c && c <= 0x39 then Some(c + 4)
    else if c == 0x2B then Some(62)
    else if c == 0x2F then Some(63)
    else None
  }

  function Letter(v: bv8): bv8 {
    if v < 26 then v + 0x41
    else if v < 52 then v + 71
    else if v < 62 then v - 4
    else if v == 62 then 0x2B
    else 0x2F
  }

  lemma SextetOfLetter(v: bv8)
    requires v < 64
    ensures Sextet(Letter(v)) == Some(v) && !IsSpaceByte(Letter(v)) && Letter(v) != 0x3D
  {
  }

  lemma LetterOfSextet(c: bv8)
    requires Sextet(c).Some?
    ensures Small(Sextet(c).value) && Letter(Sextet(c).value) == c && c != 0x3D
  {
  }

  const UPPER := "ABCDEFGHIJKLMNOPQRSTUVWXYZ"
  const LOWER := "abcdefghijklmnopqrstuvwxyz"
  const DIGITS := "0123456789"
  const ALPHABET := UPPER + LOWER + DIGITS + "+/"

  /** The letter of v is the v-th of the alphabet. */
  lemma LetterInAlphabet(v: bv8)
    requires v < 64
    ensures |ALPHABET| == 64 && Letter(v) as int == ALPHABET[v as int] as int
  {
    LetterInt(v);
    AlphabetAt(v as int);
  }

  lemma LetterInt(v: bv8)
    requires v < 64
    ensures var n := v as int;
      Letter(v) as int == if n < 26 then n + 65 else if n < 52 then n + 71 else if n < 62 then n - 4 else if n == 62 then 43 else 47
  {
  }

  lemma UpperAt(n: nat)
    requires n < 26
    ensures |UPPER| == 26 && UPPER[n] as int == n + 65
  {
  }

  lemma LowerAt(n: nat)
    requires n < 26
    ensures |LOWER| == 26 && LOWER[n] as int == n + 97
  {
  }

  lemma DigitAt(n: nat)
    requires n < 10
    ensures |DIGITS| == 10 && DIGITS[n] as int == n + 48
  {
  }

  lemma AlphabetAt(n: nat)
    requires n < 64
    ensures |ALPHABET| == 64
    ensures ALPHABET[n] as int == if n < 26 then n + 65 else if n < 52 then n + 71 else if n < 62 then n - 4 else if n == 62 then 43 else 47
  {
    UpperAt(if n < 26 then n else 0);
    LowerAt(if 26 <= n < 52 then n - 26 else 0);
    DigitAt(if 52 <= n < 62 then n - 52 else 0);
  }

  const PAD: bv8 := 0x3D

  // What precedes the first padding character.
  function Body(text: Bytes): Bytes {
    if text == [] || text[0] == PAD then [] else [text[0]] + Body(text[1..])
  }

  predicate AllLetters(text: Bytes) {
    forall i :: 0 <= i < |text| ==> Sextet(text[i]).Some?
  }

  function Sextets(text: Bytes): Bytes
    requires AllLetters(text)
  {
    seq(|text|, i requires 0 <= i < |text| => Sextet(text[i]).value)
  }

  // ----- Groups of three bytes and four sextets (section 4 of RFC 4648)

  function High6(a: bv8): bv8 { a >> 2 }
  function Mix24(a: bv8, b: bv8): bv8 { ((a & 0x03) << 4) | (b >> 4) }
  function Mix42(b: bv8, c: bv8): bv8 { ((b & 0x0F) << 2) | (c >> 6) }
  function Low6(c: bv8): bv8 { c & 0x3F }

  function First(s: bv8, t: bv8): bv8 { (s << 2) | (t >> 4) }
  function Middle(t: bv8, u: bv8): bv8 { ((t & 0x0F) << 4) | (u >> 2) }
  function Last(u: bv8, v: bv8): bv8 { ((u & 0x03) << 6) | v }

  function ByteOr0(b: Bytes, i: nat): bv8 {
    if i < |b| then b[i] else 0
  }

  function EncodedSextet(b: Bytes, j: nat): bv8 {
    var g := 3 * (j / 4);
    if j % 4 == 0 then High6(ByteOr0(b, g))
    else if j % 4 == 1 then Mix24(ByteOr0(b, g), ByteOr0(b, g + 1))
    else if j % 4 == 2 then Mix42(ByteOr0(b, g + 1), ByteOr0(b, g + 2))
    else Low6(ByteOr0(b, g + 2))
  }

  // The sextets of a byte string, the last one filled up with zero bits.
  function EncodedSextets(b: Bytes): (s: Bytes)
    ensures |s| == (4 * |b| + 2) / 3
  {
    seq((4 * |b| + 2) / 3, j requires 0 <= j < (4 * |b| + 2) / 3 => EncodedSextet(b, j))
  }

  function Letters(s: Bytes): (t: Bytes)
    ensures |t| == |s|
  {
    seq(|s|, i requires 0 <= i < |s| => Letter(s[i]))
  }

  function Pads(n: nat): (t: Bytes)
    ensures |t| == n
  {
    seq(n, _ => PAD)
  }

  function Encode(b: Bytes, padded: bool): Bytes {
    Letters(EncodedSextets(b)) + if padded then Pads((3 - |b| % 3) % 3) else []
  }

  function DecodedByte(s: Bytes, k: nat): bv8
    requires k < 3 * |s| / 4
  {
    var g := 4 * (k / 3);
    if k % 3 == 0 then First(s[g], s[g + 1])
    else if k % 3 == 1 then Middle(s[g + 1], s[g + 2])
    else Last(s[g + 2], s[g + 3])
  }

  // The whole bytes in a string of sextets.
  function DecodedBytes(s: Bytes): (b: Bytes)
    ensures |b| == 3 * |s| / 4
  {
    seq(3 * |s| / 4, k requires 0 <= k < 3 * |s| / 4 => DecodedByte(s, k))
  }

  // ----- The decoder

  // Base64 when every character before the padding is a letter and at least one byte results;
  // otherwise the text itself, without white space.
  function Decoded(text: Bytes): Bytes {
    var clean := Stripped(text);
    if AllLetters(Body(clean)) && |Body(clean)| >= 2 then DecodedBytes(Sextets(Body(clean))) else clean
  }

  predicate Ends6(accumulator: bv32, s: bv8) { accumulator & 0x3F == s as bv32 }
  predicate Ends4(accumulator: bv32, s: bv8) { accumulator & 0x0F == (s & 0x0F) as bv32 }
  predicate Ends2(accumulator: bv32, s: bv8) { accumulator & 0x03 == (s & 0x03) as bv32 }

  // The accumulator's low bits + 8 bits are the bits not yet written.
  predicate Pending(s: Bytes, accumulator: bv32, bits: int) {
    var n := |s|;
    if n % 4 == 0 then bits == -8
    else if n % 4 == 1 then bits == -2 && Ends6(accumulator, s[n - 1])
    else if n % 4 == 2 then bits == -4 && Ends4(accumulator, s[n - 1])
    else bits == -6 && Ends2(accumulator, s[n - 1])
  }

  predicate Small(v: bv8) { v < 64 }

  function Shifted(accumulator: bv32, v: bv8): bv32 {
    (accumulator << 6) | v as bv32
  }

  function Written(accumulator: bv32, bits: nat): bv8
    requires bits <= 4
  {
    ((accumulator >> bits) & 0xFF) as bv8
  }

  // One more sextet, in each of the four alignments.
  lemma Push0(accumulator: bv32, v: bv8)
    requires Small(v)
    ensures Ends6(Shifted(accumulator, v), v)
  {
  }

  lemma Push1(accumulator: bv32, s: bv8, v: bv8)
    requires Small(s) && Small(v) && Ends6(accumulator, s)
    ensures Written(Shifted(accumulator, v), 4) == First(s, v)
    ensures Ends4(Shifted(accumulator, v), v)
  {
  }

  lemma Push2(accumulator: bv32, s: bv8, v: bv8)
    requires Small(s) && Small(v) && Ends4(accumulator, s)
    ensures Written(Shifted(accumulator, v), 2) == Middle(s, v)
    ensures Ends2(Shifted(accumulator, v), v)
  {
  }

  lemma Push3(accumulator: bv32, s: bv8, v: bv8)
    requires Small(s) && Small(v) && Ends2(accumulator, s)
    ensures Written(Shifted(accumulator, v), 0) == Last(s, v)
  {
  }

  lemma PushStep(s: Bytes, v: bv8, accumulator: bv32, bits: int)
    requires Pending(s, accumulator, bits) && Small(v) && (s == [] || Small(s[|s| - 1]))
    ensures -8 <= bits <= -2
    ensures var writes, all := bits + 6 >= 0, s + [v];
            && Pending(all, Shifted(accumulator, v), if writes then bits - 2 else bits + 6)
            && 3 * |all| / 4 == 3 * |s| / 4 + (if writes then 1 else 0)
            && (writes ==> bits + 6 <= 4 && Written(Shifted(accumulator, v), bits + 6) == DecodedByte(all, 3 * |s| / 4))
  {
    hide Shifted, Written, First, Middle, Last, Ends6, Ends4, Ends2, Small, DecodedByte;
    var n, q, all := |s|, |s| / 4, s + [v];
    WholeBytes(q);
    if n == 4 * q {
      Push0(accumulator, v);
    } else if n == 4 * q + 1 {
      Push1(accumulator, s[n - 1], v);
      DecodedFirst(all, q);
    } else if n == 4 * q + 2 {
      Push2(accumulator, s[n - 1], v);
      DecodedMiddle(all, q);
    } else {
      Push3(accumulator, s[n - 1], v);
      DecodedLast(all, q);
    }
  }

  lemma DecodedFirst(s: Bytes, q: nat)
    requires 3 * q < 3 * |s| / 4
    ensures DecodedByte(s, 3 * q) == First(s[4 * q], s[4 * q + 1])
  {
    hide First, Middle, Last;
  }

  lemma DecodedMiddle(s: Bytes, q: nat)
    requires 3 * q + 1 < 3 * |s| / 4
    ensures DecodedByte(s, 3 * q + 1) == Middle(s[4 * q + 1], s[4 * q + 2])
  {
    hide First, Middle, Last;
  }

  lemma DecodedLast(s: Bytes, q: nat)
    requires 3 * q + 2 < 3 * |s| / 4
    ensures DecodedByte(s, 3 * q + 2) == Last(s[4 * q + 2], s[4 * q + 3])
  {
    hide First, Middle, Last;
  }

  // The whole bytes in 4q to 4q + 4 sextets.
  lemma WholeBytes(q: nat)
    ensures 3 * (4 * q) / 4 == 3 * q && 3 * (4 * q + 1) / 4 == 3 * q && 3 * (4 * q + 2) / 4 == 3 * q + 1
    ensures 3 * (4 * q + 3) / 4 == 3 * q + 2 && 3 * (4 * q + 4) / 4 == 3 * q + 3
  {
  }

  lemma DecodedSnoc(s: Bytes, v: bv8)
    ensures var all := s + [v];
            DecodedBytes(all) == DecodedBytes(s) + if 3 * |all| / 4 > 3 * |s| / 4 then [DecodedByte(all, 3 * |s| / 4)] else []
  {
  }

  // The first i letters have been read.
  ghost predicate Reading(body: Bytes, i: nat, accumulator: bv32, bits: int, out: Bytes) {
    && i <= |body| && AllLetters(body[..i])
    && Pending(Sextets(body[..i]), accumulator, bits)
    && out == DecodedBytes(Sextets(body[..i]))
  }

  lemma ReadingStart(body: Bytes, accumulator: bv32)
    ensures Reading(body, 0, accumulator, -8, [])
  {
  }

  lemma ReadingStep(body: Bytes, i: nat, accumulator: bv32, bits: int, out: Bytes)
    requires Reading(body, i, accumulator, bits, out) && i < |body| && Sextet(body[i]).Some?
    ensures var next := Shifted(accumulator, Sextet(body[i]).value);
            if bits + 6 >= 0 then bits + 6 <= 4 && Reading(body, i + 1, next, bits - 2, out + [Written(next, bits + 6)])
            else Reading(body, i + 1, next, bits + 6, out)
  {
    hide Shifted, Written, DecodedByte, Pending, Sextet, DecodedBytes, Small, Letter;
    LetterOfSextet(body[i]);
    var read := Sextets(body[..i]);
    if i > 0 {
      LetterOfSextet(body[i - 1]);
    }
    assert body[..i + 1] == body[..i] + [body[i]];
    assert Sextets(body[..i + 1]) == read + [Sextet(body[i]).value];
    PushStep(read, Sextet(body[i]).value, accumulator, bits);
    DecodedSnoc(read, Sextet(body[i]).value);
  }

  // All letters read: the decoder's answer, if any byte came out.
  lemma ReadingDone(body: Bytes, accumulator: bv32, bits: int, out: Bytes)
    requires Reading(body, |body|, accumulator, bits, out)
    ensures AllLetters(body) && out == DecodedBytes(Sextets(body)) && (out != [] <==> |body| >= 2)
  {
  }

  /** The accumulator is 32 bits wide and is never masked: what has been shifted out, or lies above the
      pending bits, never reaches the output. */
  method DecodeSecuritySecret(value: Bytes) returns (out: Bytes)
    ensures out == Decoded(value)
  {
    hide Shifted, Written, Reading, Sextet, Body, Stripped;
    var clean := RemoveSpace(value);
    if clean == [] {
      BodyPrefix([]);
      return [];
    }
    ghost var body := Body(clean);
    BodyPrefix(clean);
    out := [];
    var accumulator: bv32 := 0;
    var bits := -8;
    var base64 := true;
    var i := 0;
    ReadingStart(body, accumulator);
    while i < |clean|
      invariant 0 <= i <= |body| && base64
      invariant Reading(body, i, accumulator, bits, out)
    {
      if clean[i] == PAD {
        break;
      }
      assert i < |body| && clean[i] == body[i];
      var sextet := Sextet(clean[i]);
      if sextet.None? {
        base64 := false;
        break;
      }
      ReadingStep(body, i, accumulator, bits, out);
      accumulator := Shifted(accumulator, sextet.value);
      bits := bits + 6;
      if bits >= 0 {
        out := out + [Written(accumulator, bits)];
        bits := bits - 8;
      }
      i := i + 1;
    }
    if base64 {
      ReadingDone(body, accumulator, bits, out);
      if out != [] {
        return out;
      }
    }
    return clean;
  }

  method RemoveSpace(value: Bytes) returns (clean: Bytes)
    ensures clean == Stripped(value)
  {
    clean := [];
    for i := 0 to |value|
      invariant Stripped(value) == clean + Stripped(value[i..])
    {
      assert value[i..][1..] == value[i + 1..];
      if !IsSpaceByte(value[i]) {
        clean := clean + [value[i]];
      }
    }
  }

  lemma {:induction false} BodyPrefix(text: Bytes)
    ensures var b := Body(text);
            && |b| <= |text| && b == text[..|b|]
            && (forall i :: 0 <= i < |b| ==> b[i] != PAD)
            && (|b| < |text| ==> text[|b|] == PAD)
  {
    if text != [] && text[0] != PAD {
      BodyPrefix(text[1..]);
      assert text == [text[0]] + text[1..];
    }
  }

  // ----- Round trips

  lemma Group1(a: bv8, b: bv8)
    ensures First(High6(a), Mix24(a, b)) == a
  {
  }

  lemma Group2(a: bv8, b: bv8, c: bv8)
    ensures Middle(Mix24(a, b), Mix42(b, c)) == b
  {
  }

  lemma Group3(b: bv8, c: bv8)
    ensures Last(Mix42(b, c), Low6(c)) == c
  {
  }

  lemma SextetsRoundTrip(b: Bytes)
    ensures DecodedBytes(EncodedSextets(b)) == b
  {
    hide First, Middle, Last, High6, Mix24, Mix42, Low6;
    var s := EncodedSextets(b);
    assert 3 * |s| / 4 == |b|;
    forall k | 0 <= k < |b|
      ensures DecodedByte(s, k) == b[k]
    {
      var g := 3 * (k / 3);
      var h := 4 * (k / 3);
      if k % 3 == 0 {
        Group1(b[g], ByteOr0(b, g + 1));
      } else if k % 3 == 1 {
        Group2(b[g], b[g + 1], ByteOr0(b, g + 2));
      } else {
        Group3(b[g + 1], b[g + 2]);
      }
    }
  }

  // Letters followed by padding or nothing.
  lemma {:induction false} BodyOfLetters(letters: Bytes, tail: Bytes)
    requires forall i :: 0 <= i < |letters| ==> letters[i] != PAD
    requires tail == [] || tail[0] == PAD
    ensures Body(letters + tail) == letters
  {
    if letters == [] {
      assert letters + tail == tail;
    } else {
      assert (letters + tail)[0] == letters[0] && (letters + tail)[1..] == letters[1..] + tail;
      BodyOfLetters(letters[1..], tail);
    }
  }

  /** Whatever white space is spread over the base64 text of a byte string, padded or not, decoding
      yields the byte string. */
  lemma DecodeOfEncode(b: Bytes, padded: bool, text: Bytes)
    requires Stripped(text) == Encode(b, padded)
    ensures Decoded(text) == b
  {
    hide EncodedSextet, Letter, Sextet, DecodedBytes, Stripped;
    var s := EncodedSextets(b);
    var letters := Letters(s);
    forall i | 0 <= i < |s|
      ensures letters[i] != PAD && Sextet(letters[i]) == Some(s[i])
    {
      SextetBound(b, i);
      SextetOfLetter(s[i]);
    }
    BodyOfLetters(letters, if padded then Pads((3 - |b| % 3) % 3) else []);
    assert Sextets(letters) == s;
    SextetsRoundTrip(b);
    if b == [] {
      assert Encode(b, padded) == [];
    }
  }

  lemma SextetBound(b: Bytes, j: nat)
    ensures EncodedSextet(b, j) < 64
  {
  }

  predicate NoLow4(v: bv8) { v & 0x0F == 0 }
  predicate NoLow2(v: bv8) { v & 0x03 == 0 }

  lemma Group4(s: bv8, t: bv8, u: bv8)
    requires Small(s) && Small(t) && Small(u)
    ensures High6(First(s, t)) == s && Mix24(First(s, t), Middle(t, u)) == t
    ensures Mix24(First(s, t), 0) == t <==> NoLow4(t)
  {
  }

  lemma Group5(t: bv8, u: bv8, v: bv8)
    requires Small(u) && Small(v)
    ensures Mix42(Middle(t, u), Last(u, v)) == u && Low6(Last(u, v)) == v
    ensures Mix42(Middle(t, u), 0) == u <==> NoLow2(u)
  {
  }

  // The last sextet carries no bits beyond the last whole byte.
  predicate Canonical(s: Bytes) {
    && |s| % 4 != 1
    && (|s| % 4 == 2 ==> NoLow4(s[|s| - 1]))
    && (|s| % 4 == 3 ==> NoLow2(s[|s| - 1]))
  }

  /** Encoding what was decoded gives the sextets back exactly when they are canonical. */
  lemma EncodeOfDecode(s: Bytes)
    requires forall i :: 0 <= i < |s| ==> Small(s[i])
    ensures EncodedSextets(DecodedBytes(s)) == s <==> Canonical(s)
  {
    hide First, Middle, Last, High6, Mix24, Mix42, Low6, Small, NoLow4, NoLow2, EncodedSextet, DecodedBytes;
    var b, n := DecodedBytes(s), |s|;
    var e := EncodedSextets(b);
    if n % 4 != 1 {
      forall j | 0 <= j < n
        ensures j < n - 1 || n % 4 == 0 ==> e[j] == s[j]
        ensures j == n - 1 && n % 4 != 0 ==> (e[j] == s[j] <==> Canonical(s))
      {
        SextetBack(s, j);
      }
    }
  }

  // The bytes of group q, as far as the sextets reach.
  lemma GroupBytes(s: Bytes, q: nat)
    requires 4 * q + 1 < |s|
    ensures var b := DecodedBytes(s);
            && ByteOr0(b, 3 * q) == First(s[4 * q], s[4 * q + 1])
            && ByteOr0(b, 3 * q + 1) == (if 4 * q + 2 < |s| then Middle(s[4 * q + 1], s[4 * q + 2]) else 0)
            && ByteOr0(b, 3 * q + 2) == (if 4 * q + 3 < |s| then Last(s[4 * q + 2], s[4 * q + 3]) else 0)
  {
    hide First, Middle, Last;
    var b := DecodedBytes(s);
    assert b[3 * q] == DecodedByte(s, 3 * q);
    if 4 * q + 2 < |s| {
      assert b[3 * q + 1] == DecodedByte(s, 3 * q + 1);
    }
    if 4 * q + 3 < |s| {
      assert b[3 * q + 2] == DecodedByte(s, 3 * q + 2);
    }
  }

  lemma GroupSextets(b: Bytes, q: nat)
    ensures EncodedSextet(b, 4 * q) == High6(ByteOr0(b, 3 * q))
    ensures EncodedSextet(b, 4 * q + 1) == Mix24(ByteOr0(b, 3 * q), ByteOr0(b, 3 * q + 1))
    ensures EncodedSextet(b, 4 * q + 2) == Mix42(ByteOr0(b, 3 * q + 1), ByteOr0(b, 3 * q + 2))
    ensures EncodedSextet(b, 4 * q + 3) == Low6(ByteOr0(b, 3 * q + 2))
  {
    hide High6, Mix24, Mix42, Low6, ByteOr0;
  }

  lemma SextetBack(s: Bytes, j: nat)
    requires (forall i :: 0 <= i < |s| ==> Small(s[i])) && j < |s| && |s| % 4 != 1
    ensures var n, e := |s|, EncodedSextet(DecodedBytes(s), j);
            if j < n - 1 || n % 4 == 0 then e == s[j]
            else e == s[j] <==> (if n % 4 == 2 then NoLow4(s[j]) else NoLow2(s[j]))
  {
    hide First, Middle, Last, High6, Mix24, Mix42, Low6, Small, NoLow4, NoLow2, EncodedSextet, DecodedBytes, ByteOr0;
    var q, n := j / 4, |s|;
    var h := 4 * q;
    var u := if h + 2 < n then s[h + 2] else 0;
    SmallZero();
    GroupBytes(s, q);
    GroupSextets(DecodedBytes(s), q);
    Group4(s[h], s[h + 1], u);
    if h + 2 < n {
      Group5(s[h + 1], s[h + 2], if h + 3 < n then s[h + 3] else s[h + 2]);
    }
    assert j == h || j == h + 1 || j == h + 2 || j == h + 3;
  }

  lemma SmallZero()
    ensures Small(0)
  {
  }
}
