/**
 The AES model byte by byte: what section 5.2 of FIPS 197 says of every key schedule, and the
 rounds as bytes of the state and of the round key.
 */
module AesBytes {
  import opened Aes
  import opened AesTables
  import opened Bytes
  import opened Words

  // ----- The bytes of the word operations

  lemma RotatedByte0(w: bv32) ensures WordByte(RotWord(w), 0) == WordByte(w, 1) {}
  lemma RotatedByte1(w: bv32) ensures WordByte(RotWord(w), 1) == WordByte(w, 2) {}
  lemma RotatedByte2(w: bv32) ensures WordByte(RotWord(w), 2) == WordByte(w, 3) {}
  lemma RotatedByte3(w: bv32) ensures WordByte(RotWord(w), 3) == WordByte(w, 0) {}

  lemma RotatedByte(w: bv32, r: nat)
    requires r < 4
    ensures WordByte(RotWord(w), r) == WordByte(w, (r + 1) % 4)
  {
    hide RotWord, WordByte;
    RotatedByte0(w);
    RotatedByte1(w);
    RotatedByte2(w);
    RotatedByte3(w);
    assert r == 0 || r == 1 || r == 2 || r == 3;
  }

  lemma SubstitutedByte(w: bv32, r: nat)
    requires r < 4
    ensures WordByte(SubWord(w), r) == Sbox(WordByte(w, r))
  {
    hide Sbox, WordOf, WordByte;
    BytesOfWord(Sbox(WordByte(w, 0)), Sbox(WordByte(w, 1)), Sbox(WordByte(w, 2)), Sbox(WordByte(w, 3)));
  }

  lemma XoredByte0(a: bv32, b: bv32) ensures WordByte(XorWord(a, b), 0) == XorByte(WordByte(a, 0), WordByte(b, 0)) {}
  lemma XoredByte1(a: bv32, b: bv32) ensures WordByte(XorWord(a, b), 1) == XorByte(WordByte(a, 1), WordByte(b, 1)) {}
  lemma XoredByte2(a: bv32, b: bv32) ensures WordByte(XorWord(a, b), 2) == XorByte(WordByte(a, 2), WordByte(b, 2)) {}
  lemma XoredByte3(a: bv32, b: bv32) ensures WordByte(XorWord(a, b), 3) == XorByte(WordByte(a, 3), WordByte(b, 3)) {}

  lemma XoredByte(a: bv32, b: bv32, r: nat)
    requires r < 4
    ensures WordByte(XorWord(a, b), r) == XorByte(WordByte(a, r), WordByte(b, r))
  {
    hide XorWord, XorByte, WordByte;
    XoredByte0(a, b);
    XoredByte1(a, b);
    XoredByte2(a, b);
    XoredByte3(a, b);
    assert r == 0 || r == 1 || r == 2 || r == 3;
  }

  lemma RconByte(b: bv8, r: nat)
    requires r < 4
    ensures WordByte(RconWord(b), r) == if r == 0 then b else 0
  {
  }

  // Byte r of what is added to word i - nk, from word i - 1.
  function AddedByte(w: bv32, nk: nat, i: nat, r: nat): bv8
    requires nk >= 4 && i >= nk && r < 4
  {
    if i % nk == 0 then XorByte(Sbox(WordByte(w, (r + 1) % 4)), if r == 0 then RconAt(nk, i) else 0)
    else if nk > 6 && i % nk == 4 then Sbox(WordByte(w, r))
    else WordByte(w, r)
  }

  function RconAt(nk: nat, i: nat): bv8
    requires nk >= 4 && i >= nk
  {
    XPower(i / nk - 1)
  }

  lemma StepBytes(w: bv32, nk: nat, i: nat, r: nat)
    requires nk >= 4 && i >= nk && r < 4
    ensures WordByte(KeyStep(w, nk, i, if i % nk == 0 then RconAt(nk, i) else 0), r) == AddedByte(w, nk, i, r)
  {
    hide WordByte, Sbox, RotWord, SubWord, XorWord, RconWord, XorByte, RconAt;
    if i % nk == 0 {
      XoredByte(SubWord(RotWord(w)), RconWord(RconAt(nk, i)), r);
      SubstitutedByte(RotWord(w), r);
      RotatedByte(w, r);
      RconByte(RconAt(nk, i), r);
    } else {
      SubstitutedByte(w, r);
    }
  }

  /** Section 5.2 for every key, by bytes: byte r of word i is byte r of word i - nk xored with a
      byte of word i - 1, taken one place further and substituted at each multiple of nk. */
  lemma KeyBytes(key: Bytes, nk: nat, i: nat, r: nat)
    requires nk >= 4 && |key| == 4 * nk && r < 4
    ensures i < nk ==> WordByte(KeyWord(key, nk, i), r) == key[4 * i + r]
    ensures i >= nk ==>
      var w := KeyWord(key, nk, i - 1);
      WordByte(KeyWord(key, nk, i), r) == XorByte(WordByte(KeyWord(key, nk, i - nk), r), AddedByte(w, nk, i, r))
  {
    hide KeyWord, KeyStep, WordByte, WordOf, XorWord, XorByte, AddedByte;
    if i < nk {
      KeyWordGiven(key, nk, i);
      BytesOfWord(key[4 * i], key[4 * i + 1], key[4 * i + 2], key[4 * i + 3]);
    } else {
      var w := KeyWord(key, nk, i - 1);
      var rcon := if i % nk == 0 then RconAt(nk, i) else 0;
      KeyWordStep(key, nk, i);
      XoredByte(KeyWord(key, nk, i - nk), KeyStep(w, nk, i, rcon), r);
      StepBytes(w, nk, i, r);
    }
  }

  // ----- One round on bytes

  function Keyed(s: Block, k: Block): Block {
    seq(16, i requires 0 <= i < 16 => XorByte(s[i], k[i]))
  }

  function MixedWithKey(a0: bv8, a1: bv8, a2: bv8, a3: bv8, k: bv8): bv8 {
    XorByte(MixOf(Xtime(a0), Xtime(a1), a1, a2, a3), k)
  }

  // The substituted state with its rows shifted: column c takes its row r from column c + r.
  function Boxed(s: Block): Block {
    [Sbox(s[0]), Sbox(s[5]), Sbox(s[10]), Sbox(s[15]),
     Sbox(s[4]), Sbox(s[9]), Sbox(s[14]), Sbox(s[3]),
     Sbox(s[8]), Sbox(s[13]), Sbox(s[2]), Sbox(s[7]),
     Sbox(s[12]), Sbox(s[1]), Sbox(s[6]), Sbox(s[11])]
  }

  // One column of the rest of a round.
  function RoundedColumn(a0: bv8, a1: bv8, a2: bv8, a3: bv8, k0: bv8, k1: bv8, k2: bv8, k3: bv8): (r: Bytes)
    ensures |r| == 4
  {
    [MixedWithKey(a0, a1, a2, a3, k0), MixedWithKey(a1, a2, a3, a0, k1),
     MixedWithKey(a2, a3, a0, a1, k2), MixedWithKey(a3, a0, a1, a2, k3)]
  }

  // The rest of a round.
  function Rounded(t: Block, k: Block): Block {
    RoundedColumn(t[0], t[1], t[2], t[3], k[0], k[1], k[2], k[3]) +
    RoundedColumn(t[4], t[5], t[6], t[7], k[4], k[5], k[6], k[7]) +
    RoundedColumn(t[8], t[9], t[10], t[11], k[8], k[9], k[10], k[11]) +
    RoundedColumn(t[12], t[13], t[14], t[15], k[12], k[13], k[14], k[15])
  }

  // A key addition, which is the rest of the last round.
  function KeyedBytes(t: Block, k: Block): Block {
    [XorByte(t[0], k[0]), XorByte(t[1], k[1]), XorByte(t[2], k[2]), XorByte(t[3], k[3])] +
    [XorByte(t[4], k[4]), XorByte(t[5], k[5]), XorByte(t[6], k[6]), XorByte(t[7], k[7])] +
    [XorByte(t[8], k[8]), XorByte(t[9], k[9]), XorByte(t[10], k[10]), XorByte(t[11], k[11])] +
    [XorByte(t[12], k[12]), XorByte(t[13], k[13]), XorByte(t[14], k[14]), XorByte(t[15], k[15])]
  }

  // The next sixteen key bytes, from those one key length back and the last sixteen.
  function KeyNext(earlier: Block, last: Block, turn: bool, rcon: bv8): Block {
    var b0, b1, b2, b3 := Sbox(last[12]), Sbox(last[13]), Sbox(last[14]), Sbox(last[15]);
    var c := if turn then [XorByte(b1, rcon), b2, b3, b0] else [b0, b1, b2, b3];
    var d := [XorByte(earlier[0], c[0]), XorByte(earlier[1], c[1]), XorByte(earlier[2], c[2]), XorByte(earlier[3], c[3])];
    var e := [XorByte(earlier[4], d[0]), XorByte(earlier[5], d[1]), XorByte(earlier[6], d[2]), XorByte(earlier[7], d[3])];
    var f := [XorByte(earlier[8], e[0]), XorByte(earlier[9], e[1]), XorByte(earlier[10], e[2]), XorByte(earlier[11], e[3])];
    var g := [XorByte(earlier[12], f[0]), XorByte(earlier[13], f[1]), XorByte(earlier[14], f[2]), XorByte(earlier[15], f[3])];
    d + e + f + g
  }

  // ----- The rounds in that form

  ghost predicate HasKey(c: Cipher, round: nat, k: Block)
    requires c.Valid() && round <= c.rounds
  {
    forall i :: 0 <= i < 16 ==> WordByte(c.roundKeys[4 * round + i / 4], i % 4) == k[i]
  }

  lemma KeyedIs(c: Cipher, s: Block, round: nat, k: Block)
    requires c.Valid() && round <= c.rounds && HasKey(c, round, k)
    ensures KeyAdded(c, s, round) == Keyed(s, k)
  {
    hide XorByte, WordByte;
  }

  lemma SameBlock(s: Block, t: Block)
    requires s[0] == t[0] && s[1] == t[1] && s[2] == t[2] && s[3] == t[3]
    requires s[4] == t[4] && s[5] == t[5] && s[6] == t[6] && s[7] == t[7]
    requires s[8] == t[8] && s[9] == t[9] && s[10] == t[10] && s[11] == t[11]
    requires s[12] == t[12] && s[13] == t[13] && s[14] == t[14] && s[15] == t[15]
    ensures s == t
  {
  }

  lemma BoxedColumns01(s: Block)
    ensures Boxed(s)[0] == Sbox(s[0]) && Boxed(s)[1] == Sbox(s[5]) && Boxed(s)[2] == Sbox(s[10]) && Boxed(s)[3] == Sbox(s[15])
    ensures Boxed(s)[4] == Sbox(s[4]) && Boxed(s)[5] == Sbox(s[9]) && Boxed(s)[6] == Sbox(s[14]) && Boxed(s)[7] == Sbox(s[3])
  {
    hide Sbox;
  }

  lemma BoxedColumns23(s: Block)
    ensures Boxed(s)[8] == Sbox(s[8]) && Boxed(s)[9] == Sbox(s[13]) && Boxed(s)[10] == Sbox(s[2]) && Boxed(s)[11] == Sbox(s[7])
    ensures Boxed(s)[12] == Sbox(s[12]) && Boxed(s)[13] == Sbox(s[1]) && Boxed(s)[14] == Sbox(s[6]) && Boxed(s)[15] == Sbox(s[11])
  {
    hide Sbox;
  }

  // The byte of the state that comes to place i.
  lemma BoxSource(s: Block, i: nat, j: nat)
    requires i < 16 && j == 4 * ((i / 4 + i % 4) % 4) + i % 4
    ensures RowsShifted(Substituted(s))[i] == Sbox(s[j])
  {
    hide Sbox;
  }

  lemma BoxedIs(s: Block)
    ensures Boxed(s) == RowsShifted(Substituted(s))
  {
    hide Boxed, RowsShifted, Substituted, Sbox;
    BoxedColumns01(s);
    BoxedColumns23(s);
    BoxSource(s, 0, 0);
    BoxSource(s, 1, 5);
    BoxSource(s, 2, 10);
    BoxSource(s, 3, 15);
    BoxSource(s, 4, 4);
    BoxSource(s, 5, 9);
    BoxSource(s, 6, 14);
    BoxSource(s, 7, 3);
    BoxSource(s, 8, 8);
    BoxSource(s, 9, 13);
    BoxSource(s, 10, 2);
    BoxSource(s, 11, 7);
    BoxSource(s, 12, 12);
    BoxSource(s, 13, 1);
    BoxSource(s, 14, 6);
    BoxSource(s, 15, 11);
    SameBlock(Boxed(s), RowsShifted(Substituted(s)));
  }

  lemma ColumnIs(t: Block, column: nat, o: nat)
    requires column < 4 && o == 4 * column
    ensures ColumnsMixed(t)[o] == MixByte(t[o], t[o + 1], t[o + 2], t[o + 3])
    ensures ColumnsMixed(t)[o + 1] == MixByte(t[o + 1], t[o + 2], t[o + 3], t[o])
    ensures ColumnsMixed(t)[o + 2] == MixByte(t[o + 2], t[o + 3], t[o], t[o + 1])
    ensures ColumnsMixed(t)[o + 3] == MixByte(t[o + 3], t[o], t[o + 1], t[o + 2])
  {
    hide MixByte, MixedByte;
    MixedColumn(t, column, o);
    ColumnIndices(column);
  }

  lemma MixedWithKeyIs(a0: bv8, a1: bv8, a2: bv8, a3: bv8, k: bv8)
    ensures XorByte(MixByte(a0, a1, a2, a3), k) == MixedWithKey(a0, a1, a2, a3, k)
  {
    hide XorByte, MixByte, MixOf;
    MixByDoubling(a0, a1, a2, a3);
  }

  lemma KeyedColumn(t: Block, k: Block, column: nat, o: nat)
    requires column < 4 && o == 4 * column
    ensures Keyed(ColumnsMixed(t), k)[o] == MixedWithKey(t[o], t[o + 1], t[o + 2], t[o + 3], k[o])
    ensures Keyed(ColumnsMixed(t), k)[o + 1] == MixedWithKey(t[o + 1], t[o + 2], t[o + 3], t[o], k[o + 1])
    ensures Keyed(ColumnsMixed(t), k)[o + 2] == MixedWithKey(t[o + 2], t[o + 3], t[o], t[o + 1], k[o + 2])
    ensures Keyed(ColumnsMixed(t), k)[o + 3] == MixedWithKey(t[o + 3], t[o], t[o + 1], t[o + 2], k[o + 3])
  {
    hide XorByte, MixByte, MixedWithKey, ColumnsMixed;
    ColumnIs(t, column, o);
    MixedWithKeyIs(t[o], t[o + 1], t[o + 2], t[o + 3], k[o]);
    MixedWithKeyIs(t[o + 1], t[o + 2], t[o + 3], t[o], k[o + 1]);
    MixedWithKeyIs(t[o + 2], t[o + 3], t[o], t[o + 1], k[o + 2]);
    MixedWithKeyIs(t[o + 3], t[o], t[o + 1], t[o + 2], k[o + 3]);
  }

  lemma RoundedAt(t: Block, k: Block)
    ensures Rounded(t, k)[0] == MixedWithKey(t[0], t[1], t[2], t[3], k[0]) && Rounded(t, k)[1] == MixedWithKey(t[1], t[2], t[3], t[0], k[1])
    ensures Rounded(t, k)[2] == MixedWithKey(t[2], t[3], t[0], t[1], k[2]) && Rounded(t, k)[3] == MixedWithKey(t[3], t[0], t[1], t[2], k[3])
    ensures Rounded(t, k)[4] == MixedWithKey(t[4], t[5], t[6], t[7], k[4]) && Rounded(t, k)[5] == MixedWithKey(t[5], t[6], t[7], t[4], k[5])
    ensures Rounded(t, k)[6] == MixedWithKey(t[6], t[7], t[4], t[5], k[6]) && Rounded(t, k)[7] == MixedWithKey(t[7], t[4], t[5], t[6], k[7])
    ensures Rounded(t, k)[8] == MixedWithKey(t[8], t[9], t[10], t[11], k[8]) && Rounded(t, k)[9] == MixedWithKey(t[9], t[10], t[11], t[8], k[9])
    ensures Rounded(t, k)[10] == MixedWithKey(t[10], t[11], t[8], t[9], k[10]) && Rounded(t, k)[11] == MixedWithKey(t[11], t[8], t[9], t[10], k[11])
    ensures Rounded(t, k)[12] == MixedWithKey(t[12], t[13], t[14], t[15], k[12]) && Rounded(t, k)[13] == MixedWithKey(t[13], t[14], t[15], t[12], k[13])
    ensures Rounded(t, k)[14] == MixedWithKey(t[14], t[15], t[12], t[13], k[14]) && Rounded(t, k)[15] == MixedWithKey(t[15], t[12], t[13], t[14], k[15])
  {
    hide MixedWithKey;
  }

  lemma RoundedIs(t: Block, k: Block)
    ensures Keyed(ColumnsMixed(t), k) == Rounded(t, k)
  {
    hide MixedWithKey, ColumnsMixed, Keyed, Rounded;
    RoundedAt(t, k);
    KeyedColumn(t, k, 0, 0);
    KeyedColumn(t, k, 1, 4);
    KeyedColumn(t, k, 2, 8);
    KeyedColumn(t, k, 3, 12);
    SameBlock(Keyed(ColumnsMixed(t), k), Rounded(t, k));
  }

  lemma KeyedBytesIs(t: Block, k: Block)
    ensures Keyed(t, k) == KeyedBytes(t, k)
  {
    hide XorByte;
    SameBlock(Keyed(t, k), KeyedBytes(t, k));
  }

  // ----- The key schedule in that form

  function KeyBlock(key: Bytes, nk: nat, round: nat): Block
    requires nk >= 4 && |key| == 4 * nk
  {
    seq(16, i requires 0 <= i < 16 => WordByte(KeyWord(key, nk, 4 * round + i / 4), i % 4))
  }

  lemma KeyBlockAt(key: Bytes, nk: nat, round: nat, column: nat)
    requires nk >= 4 && |key| == 4 * nk && column < 4
    ensures var k, w, o := KeyBlock(key, nk, round), KeyWord(key, nk, 4 * round + column), 4 * column;
      k[o] == WordByte(w, 0) && k[o + 1] == WordByte(w, 1) && k[o + 2] == WordByte(w, 2) && k[o + 3] == WordByte(w, 3)
  {
    hide WordByte, KeyWord;
    ColumnIndices(column);
  }

  // A word that is not the first of its round adds the word before it.
  lemma LaterWordByte(key: Bytes, nk: nat, i: nat, r: nat)
    requires nk == 4 || nk == 8
    requires |key| == 4 * nk && i >= nk && i % 4 != 0 && r < 4
    ensures WordByte(KeyWord(key, nk, i), r)
      == XorByte(WordByte(KeyWord(key, nk, i - nk), r), WordByte(KeyWord(key, nk, i - 1), r))
  {
    hide WordByte, KeyWord, XorByte, Sbox, XPower;
    assert i % 4 != 0 ==> i % 8 != 0 && i % 8 != 4;
    KeyBytes(key, nk, i, r);
  }

  // The first word of a round.
  lemma FirstWordByte(key: Bytes, nk: nat, round: nat, r: nat)
    requires nk == 4 || nk == 8
    requires |key| == 4 * nk && 4 * round >= nk && r < 4
    ensures var w := KeyWord(key, nk, 4 * round - 1);
      WordByte(KeyWord(key, nk, 4 * round), r) == XorByte(WordByte(KeyWord(key, nk, 4 * round - nk), r),
        if nk == 4 || round % 2 == 0 then
          XorByte(Sbox(WordByte(w, (r + 1) % 4)), if r == 0 then RoundRcon(nk, round) else 0)
        else Sbox(WordByte(w, r)))
  {
    hide WordByte, KeyWord, XorByte, Sbox, XPower;
    KeyBytes(key, nk, 4 * round, r);
  }

  function RoundRcon(nk: nat, round: nat): bv8
    requires nk >= 4 && 4 * round >= nk
  {
    XPower(4 * round / nk - 1)
  }

  lemma KeyColumn(key: Bytes, nk: nat, round: nat, column: nat)
    requires nk == 4 || nk == 8
    requires |key| == 4 * nk && 4 * round >= nk && 1 <= column < 4
    ensures var k, e, o := KeyBlock(key, nk, round), KeyBlock(key, nk, round - nk / 4), 4 * column;
      && k[o] == XorByte(e[o], k[o - 4]) && k[o + 1] == XorByte(e[o + 1], k[o - 3])
      && k[o + 2] == XorByte(e[o + 2], k[o - 2]) && k[o + 3] == XorByte(e[o + 3], k[o - 1])
  {
    hide WordByte, KeyWord, KeyBlock, XorByte;
    var i := 4 * round + column;
    KeyBlockAt(key, nk, round, column);
    KeyBlockAt(key, nk, round, column - 1);
    KeyBlockAt(key, nk, round - nk / 4, column);
    LaterWordByte(key, nk, i, 0);
    LaterWordByte(key, nk, i, 1);
    LaterWordByte(key, nk, i, 2);
    LaterWordByte(key, nk, i, 3);
  }

  lemma FirstKeyColumn(key: Bytes, nk: nat, round: nat)
    requires nk == 4 || nk == 8
    requires |key| == 4 * nk && 4 * round >= nk
    ensures var k, e, l := KeyBlock(key, nk, round), KeyBlock(key, nk, round - nk / 4), KeyBlock(key, nk, round - 1);
      if nk == 4 || round % 2 == 0 then
        && k[0] == XorByte(e[0], XorByte(Sbox(l[13]), RoundRcon(nk, round)))
        && k[1] == XorByte(e[1], Sbox(l[14])) && k[2] == XorByte(e[2], Sbox(l[15])) && k[3] == XorByte(e[3], Sbox(l[12]))
      else
        && k[0] == XorByte(e[0], Sbox(l[12])) && k[1] == XorByte(e[1], Sbox(l[13]))
        && k[2] == XorByte(e[2], Sbox(l[14])) && k[3] == XorByte(e[3], Sbox(l[15]))
  {
    hide WordByte, KeyWord, KeyBlock, XorByte, Sbox, RoundRcon;
    KeyBlockAt(key, nk, round, 0);
    KeyBlockAt(key, nk, round - 1, 3);
    KeyBlockAt(key, nk, round - nk / 4, 0);
    FirstWordByte(key, nk, round, 0);
    FirstWordByte(key, nk, round, 1);
    FirstWordByte(key, nk, round, 2);
    FirstWordByte(key, nk, round, 3);
    XorUnits(Sbox(KeyBlock(key, nk, round - 1)[14]), 0);
    XorUnits(Sbox(KeyBlock(key, nk, round - 1)[15]), 0);
    XorUnits(Sbox(KeyBlock(key, nk, round - 1)[12]), 0);
  }

  lemma KeyNextIs(k: Block, e: Block, l: Block, turn: bool, rcon: bv8)
    requires if turn then
        && k[0] == XorByte(e[0], XorByte(Sbox(l[13]), rcon))
        && k[1] == XorByte(e[1], Sbox(l[14])) && k[2] == XorByte(e[2], Sbox(l[15])) && k[3] == XorByte(e[3], Sbox(l[12]))
      else
        && k[0] == XorByte(e[0], Sbox(l[12])) && k[1] == XorByte(e[1], Sbox(l[13]))
        && k[2] == XorByte(e[2], Sbox(l[14])) && k[3] == XorByte(e[3], Sbox(l[15]))
    requires k[4] == XorByte(e[4], k[0]) && k[5] == XorByte(e[5], k[1]) && k[6] == XorByte(e[6], k[2]) && k[7] == XorByte(e[7], k[3])
    requires k[8] == XorByte(e[8], k[4]) && k[9] == XorByte(e[9], k[5]) && k[10] == XorByte(e[10], k[6]) && k[11] == XorByte(e[11], k[7])
    requires k[12] == XorByte(e[12], k[8]) && k[13] == XorByte(e[13], k[9]) && k[14] == XorByte(e[14], k[10]) && k[15] == XorByte(e[15], k[11])
    ensures k == KeyNext(e, l, turn, rcon)
  {
    hide XorByte, Sbox;
    SameBlock(k, KeyNext(e, l, turn, rcon));
  }

  /** Sixteen bytes of every key schedule, from those one key length back and the last sixteen. */
  lemma KeyBlockStep(key: Bytes, nk: nat, round: nat)
    requires nk == 4 || nk == 8
    requires |key| == 4 * nk && 4 * round >= nk
    ensures var turn := nk == 4 || round % 2 == 0;
      KeyBlock(key, nk, round) == KeyNext(KeyBlock(key, nk, round - nk / 4), KeyBlock(key, nk, round - 1), turn,
                                          if turn then RoundRcon(nk, round) else 0)
  {
    hide KeyBlock, KeyNext, XorByte, Sbox, RoundRcon;
    var turn := nk == 4 || round % 2 == 0;
    FirstKeyColumn(key, nk, round);
    KeyColumn(key, nk, round, 1);
    KeyColumn(key, nk, round, 2);
    KeyColumn(key, nk, round, 3);
    KeyNextIs(KeyBlock(key, nk, round), KeyBlock(key, nk, round - nk / 4), KeyBlock(key, nk, round - 1), turn,
              if turn then RoundRcon(nk, round) else 0);
  }

  lemma GivenKeyBlock(key: Bytes, nk: nat, round: nat)
    requires nk >= 4 && |key| == 4 * nk && 4 * round + 4 <= nk
    ensures KeyBlock(key, nk, round) == key[16 * round..16 * round + 16]
  {
    hide WordByte, KeyWord;
    forall i | 0 <= i < 16
      ensures KeyBlock(key, nk, round)[i] == key[16 * round..16 * round + 16][i]
    {
      KeyBytes(key, nk, 4 * round + i / 4, i % 4);
    }
  }

  lemma ScheduleKey(key: Bytes, nk: nat, round: nat)
    requires nk >= 4 && |key| == 4 * nk && round < nk + 7
    ensures HasKey(KeySchedule(key, nk), round, KeyBlock(key, nk, round))
  {
    hide WordByte, KeyWord;
  }

  // ----- The cipher in that form

  lemma FirstState(key: Bytes, nk: nat, input: Block)
    requires nk >= 4 && |key| == 4 * nk
    ensures AfterRounds(KeySchedule(key, nk), input, 0) == KeyedBytes(input, KeyBlock(key, nk, 0))
  {
    hide KeySchedule, KeyBlock, KeyAdded, Keyed, KeyedBytes;
    ScheduleKey(key, nk, 0);
    KeyedIs(KeySchedule(key, nk), input, 0, KeyBlock(key, nk, 0));
    KeyedBytesIs(input, KeyBlock(key, nk, 0));
  }

  lemma NextState(key: Bytes, nk: nat, input: Block, round: nat)
    requires nk >= 4 && |key| == 4 * nk && 1 <= round < nk + 6
    ensures AfterRounds(KeySchedule(key, nk), input, round)
         == Rounded(Boxed(AfterRounds(KeySchedule(key, nk), input, round - 1)), KeyBlock(key, nk, round))
  {
    hide KeySchedule, KeyBlock, KeyAdded, Keyed, Boxed, Rounded, ColumnsMixed, RowsShifted, Substituted, HasKey;
    var s := AfterRounds(KeySchedule(key, nk), input, round - 1);
    ScheduleKey(key, nk, round);
    BoxedIs(s);
    KeyedIs(KeySchedule(key, nk), ColumnsMixed(Boxed(s)), round, KeyBlock(key, nk, round));
    RoundedIs(Boxed(s), KeyBlock(key, nk, round));
  }

  lemma LastState(key: Bytes, nk: nat, input: Block)
    requires nk >= 4 && |key| == 4 * nk
    ensures Encrypted(KeySchedule(key, nk), input)
         == KeyedBytes(Boxed(AfterRounds(KeySchedule(key, nk), input, nk + 5)), KeyBlock(key, nk, nk + 6))
  {
    hide KeySchedule, KeyBlock, KeyAdded, Keyed, Boxed, KeyedBytes, RowsShifted, Substituted, HasKey, AfterRounds;
    var s := AfterRounds(KeySchedule(key, nk), input, nk + 5);
    ScheduleKey(key, nk, nk + 6);
    BoxedIs(s);
    KeyedIs(KeySchedule(key, nk), Boxed(s), nk + 6, KeyBlock(key, nk, nk + 6));
    KeyedBytesIs(Boxed(s), KeyBlock(key, nk, nk + 6));
  }
}
