/** Text in ASCII, as strings and as bytes. */
module Text {
  import opened Bytes
  import opened Words

  // ----- White space

  predicate IsSpace(c: char) {
    c == ' ' || '\t' <= c <= '\r'
  }

  predicate IsSpaceByte(b: bv8) {
    b == 0x20 || (0x09 <= b && b <= 0x0D)
  }

  function TrimmedOf<T>(s: seq<T>, space: T -> bool): seq<T>
    decreases |s|
  {
    if s == [] then []
    else if space(s[0]) then TrimmedOf(s[1..], space)
    else if space(s[|s| - 1]) then TrimmedOf(s[..|s| - 1], space)
    else s
  }

  function Trim(s: string): string {
    TrimmedOf(s, IsSpace)
  }

  function TrimBytes(s: Bytes): Bytes {
    TrimmedOf(s, IsSpaceByte)
  }

  predicate Blank(s: string) {
    Trim(s) == ""
  }

  lemma {:induction false} TrimmedShortens<T>(s: seq<T>, space: T -> bool)
    ensures var t := TrimmedOf(s, space);
            |t| <= |s| && (|t| == |s| <==> t == s)
    decreases |s|
  {
    if s != [] {
      if space(s[0]) {
        TrimmedShortens(s[1..], space);
      } else if space(s[|s| - 1]) {
        TrimmedShortens(s[..|s| - 1], space);
      }
    }
  }

  lemma {:induction false} TrimmedTwice<T>(s: seq<T>, space: T -> bool)
    ensures TrimmedOf(TrimmedOf(s, space), space) == TrimmedOf(s, space)
    decreases |s|
  {
    if s != [] {
      if space(s[0]) {
        TrimmedTwice(s[1..], space);
      } else if space(s[|s| - 1]) {
        TrimmedTwice(s[..|s| - 1], space);
      }
    }
  }

  // ----- Case

  function LowerChar(c: char): char {
    if 'A' <= c <= 'Z' then c - 'A' + 'a' else c
  }

  function LowerByte(b: bv8): bv8 {
    if 0x41 <= b && b <= 0x5A then b + 0x20 else b
  }

  // The first value that is not blank.
  function FirstNonBlank(values: seq<string>): string {
    if values == [] then "" else if !Blank(values[0]) then values[0] else FirstNonBlank(values[1..])
  }

  // ----- Joining

  function Join<T>(parts: seq<seq<T>>, separator: seq<T>): seq<T> {
    if parts == [] then []
    else if |parts| == 1 then parts[0]
    else parts[0] + separator + Join(parts[1..], separator)
  }

  lemma {:induction false} JoinSnoc<T>(parts: seq<seq<T>>, last: seq<T>, separator: seq<T>)
    requires parts != []
    ensures Join(parts + [last], separator) == Join(parts, separator) + separator + last
    decreases |parts|
  {
    assert (parts + [last])[1..] == parts[1..] + [last];
    if |parts| > 1 {
      JoinSnoc(parts[1..], last, separator);
    }
  }

  // Two texts split at the first c agree in both halves.
  lemma SplitAtFirst<T>(a: seq<T>, b: seq<T>, x: seq<T>, y: seq<T>, c: T)
    requires c !in a && c !in b && a + [c] + x == b + [c] + y
    ensures a == b && x == y
  {
    var left, right := a + [c] + x, b + [c] + y;
    assert left[|a|] == c && right[|b|] == c;
    assert forall i :: 0 <= i < |a| ==> left[i] == a[i];
    assert forall i :: 0 <= i < |b| ==> right[i] == b[i];
    assert |a| == |b|;
    assert left[..|a|] == a && right[..|b|] == b;
    assert left[|a| + 1..] == x && right[|b| + 1..] == y;
  }

  ghost predicate Free<T>(parts: seq<seq<T>>, c: T) {
    forall part :: part in parts ==> c !in part
  }

  lemma JoinHas<T>(parts: seq<seq<T>>, c: T)
    requires parts != []
    ensures |parts| >= 2 ==> Join(parts, [c]) == parts[0] + [c] + Join(parts[1..], [c]) && c in parts[0] + [c] + Join(parts[1..], [c])
    ensures |parts| == 1 ==> Join(parts, [c]) == parts[0]
  {
    if |parts| >= 2 {
      assert (parts[0] + [c] + Join(parts[1..], [c]))[|parts[0]|] == c;
    }
  }

  // Joining loses nothing, as long as the separator occurs in no part.
  lemma {:induction false} JoinOneToOne<T>(a: seq<seq<T>>, b: seq<seq<T>>, c: T)
    requires a != [] && b != [] && Free(a, c) && Free(b, c)
    ensures Join(a, [c]) == Join(b, [c]) <==> a == b
    decreases |a|
  {
    if Join(a, [c]) == Join(b, [c]) {
      hide Join;
      JoinHas(a, c);
      JoinHas(b, c);
      assert a[0] in a && b[0] in b;
      assert |a| >= 2 <==> |b| >= 2;
      if |a| >= 2 {
        SplitAtFirst(a[0], b[0], Join(a[1..], [c]), Join(b[1..], [c]), c);
        JoinOneToOne(a[1..], b[1..], c);
        assert a == [a[0]] + a[1..] && b == [b[0]] + b[1..];
      } else {
        assert a == [a[0]] && b == [b[0]];
      }
    }
  }

  // ----- Bytes of strings

  function Ascii(s: string): (b: Bytes)
    ensures |b| == |s|
  {
    seq(|s|, i requires 0 <= i < |s| => IntByte(s[i] as int % 256))
  }

  lemma AsciiConcat(s: string, t: string)
    ensures Ascii(s + t) == Ascii(s) + Ascii(t)
  {
    hide IntByte;
  }

  // A character a string does not have, its bytes do not have either.
  lemma AsciiFree(s: string, c: char)
    requires c !in s && c as int < 256 && forall d :: d in s ==> d as int < 256
    ensures Ascii([c])[0] !in Ascii(s)
  {
    hide IntByte, ByteInt;
    forall i | 0 <= i < |s|
      ensures Ascii(s)[i] != Ascii([c])[0]
    {
      assert s[i] in s;
      ByteIntOfInt(s[i] as int);
      ByteIntOfInt(c as int);
    }
  }

  lemma ByteIsInt(b: bv8)
    ensures ByteInt(b) == b as int
  {
  }

  lemma SpaceByte(b: bv8)
    ensures IsSpaceByte(b) <==> b as int == 32 || 9 <= b as int <= 13
  {
  }

  /** White space is the same in strings and in their bytes. */
  lemma SpacesAgree(c: char)
    requires c as int < 256
    ensures IsSpaceByte(IntByte(c as int)) <==> IsSpace(c)
  {
    hide IntByte, IsSpaceByte, ByteInt;
    ByteIntOfInt(c as int);
    ByteIsInt(IntByte(c as int));
    SpaceByte(IntByte(c as int));
  }

  lemma LoweredByte(b: bv8)
    ensures LowerByte(b) as int == if 65 <= b as int <= 90 then b as int + 32 else b as int
  {
  }

  /** So is lower case. */
  lemma LowerAgrees(c: char)
    requires c as int < 256
    ensures LowerByte(IntByte(c as int)) == IntByte(LowerChar(c) as int)
  {
    hide IntByte, LowerByte, ByteInt;
    var b := IntByte(c as int);
    ByteIntOfInt(c as int);
    ByteIsInt(b);
    LoweredByte(b);
    ByteIsInt(LowerByte(b));
    IntByteOfByte(LowerByte(b));
  }

  // Trimming a string trims its bytes.
  lemma {:induction false} TrimAgrees(s: string)
    requires forall i :: 0 <= i < |s| ==> s[i] as int < 256
    ensures TrimBytes(Ascii(s)) == Ascii(Trim(s))
    decreases |s|
  {
    hide IntByte, IsSpaceByte;
    if s != "" {
      SpacesAgree(s[0]);
      SpacesAgree(s[|s| - 1]);
      if IsSpace(s[0]) {
        assert Ascii(s)[1..] == Ascii(s[1..]);
        TrimAgrees(s[1..]);
      } else if IsSpace(s[|s| - 1]) {
        assert Ascii(s)[..|s| - 1] == Ascii(s[..|s| - 1]);
        TrimAgrees(s[..|s| - 1]);
      }
    }
  }

  lemma AsciiIs(s: string, b: Bytes)
    requires |s| == |b| && forall i :: 0 <= i < |s| ==> s[i] as int == b[i] as int
    ensures Ascii(s) == b
  {
    hide IntByte, ByteInt;
    forall i | 0 <= i < |s|
      ensures Ascii(s)[i] == b[i]
    {
      ByteIsInt(b[i]);
      IntByteOfByte(b[i]);
    }
  }

  lemma AsciiOneToOne(s: string, t: string)
    requires (forall c :: c in s ==> c as int < 256) && (forall c :: c in t ==> c as int < 256)
    ensures Ascii(s) == Ascii(t) <==> s == t
  {
    hide IntByte, ByteInt;
    if Ascii(s) == Ascii(t) {
      assert |s| == |Ascii(s)| == |Ascii(t)| == |t|;
      forall i | 0 <= i < |s|
        ensures s[i] == t[i]
      {
        assert Ascii(s)[i] == Ascii(t)[i] && s[i] in s && t[i] in t;
        ByteIntOfInt(s[i] as int);
        ByteIntOfInt(t[i] as int);
      }
    }
  }

  // ----- Decimal numbers

  function DigitChar(d: nat): char
    requires d < 10
  {
    ('0' as int + d) as char
  }

  lemma DigitReads(d: nat)
    requires d < 10
    ensures DigitChar(d) as int - '0' as int == d && '0' <= DigitChar(d) <= '9'
  {
  }

  function Decimal(n: nat): string {
    (if n < 10 then "" else Decimal(n / 10)) + [DigitChar(n % 10)]
  }

  function DecimalValue(text: string): int {
    if text == "" then 0 else 10 * DecimalValue(text[..|text| - 1]) + (text[|text| - 1] as int - '0' as int)
  }

  lemma {:induction false} DecimalReadsBack(n: nat)
    ensures Decimal(n) != "" && DecimalValue(Decimal(n)) == n
    ensures forall c :: c in Decimal(n) ==> '0' <= c <= '9'
  {
    hide DigitChar;
    DigitReads(n % 10);
    var last := [DigitChar(n % 10)];
    var before := if n < 10 then "" else Decimal(n / 10);
    assert (before + last)[..|before|] == before;
    if n >= 10 {
      DecimalReadsBack(n / 10);
    }
  }
}
