/**
 The AES cipher of the C++ security codec: key expansion and block encryption over an in-place
 state array, specified by FIPS 197, and the proof that EncryptBlock is one-to-one.
 */
module Aes {
  import opened AesTables
  import opened Bytes
  import opened Words

  datatype Cipher = Cipher(rounds: nat, roundKeys: seq<bv32>) {
    ghost predicate Valid() {
      rounds >= 1 && |roundKeys| == 4 * (rounds + 1)
    }
  }

  // ----- Key expansion (section 5.2)

  function RotWord(w: bv32): bv32 {
    (w << 8) | (w >> 24)
  }

  function SubWord(w: bv32): bv32 {
    WordOf(Sbox(WordByte(w, 0)), Sbox(WordByte(w, 1)), Sbox(WordByte(w, 2)), Sbox(WordByte(w, 3)))
  }

  function XorWord(a: bv32, b: bv32): bv32 {
    a ^ b
  }

  function RconWord(b: bv8): bv32 {
    b as bv32 << 24
  }

  // The word that is added to word i - nk, from word i - 1 and the round constant.
  function KeyStep(temp: bv32, nk: nat, i: nat, rcon: bv8): bv32
    requires nk >= 4
  {
    if i % nk == 0 then XorWord(SubWord(RotWord(temp)), RconWord(rcon))
    else if nk > 6 && i % nk == 4 then SubWord(temp)
    else temp
  }

  // Word i of the expanded key; the round constant is a power of x, not a table entry.
  function KeyWord(key: Bytes, nk: nat, i: nat): bv32
    requires nk >= 4 && |key| == 4 * nk
  {
    if i < nk then
      WordOf(key[4 * i], key[4 * i + 1], key[4 * i + 2], key[4 * i + 3])
    else
      var rcon := if i % nk == 0 then XPower(i / nk - 1) else 0;
      XorWord(KeyWord(key, nk, i - nk), KeyStep(KeyWord(key, nk, i - 1), nk, i, rcon))
  }

  // The whole key schedule.
  function KeySchedule(key: Bytes, nk: nat): (c: Cipher)
    requires nk >= 4 && |key| == 4 * nk
    ensures c.Valid()
    ensures c.rounds == nk + 6
  {
    Cipher(nk + 6, seq(4 * (nk + 7), i requires 0 <= i => KeyWord(key, nk, i)))
  }

  function KeyCipher(key: Bytes): (c: Cipher)
    requires |key| == 16 || |key| == 32
    ensures c.Valid()
  {
    KeySchedule(key, |key| / 4)
  }

  // The number of round constants consumed before word i is computed.
  lemma RconIndex(nk: nat, i: nat)
    requires nk == 4 || nk == 8
    requires nk <= i < 4 * (nk + 7)
    ensures i % nk == 0 ==> 1 <= i / nk <= 10
    ensures (i + nk) / nk == i / nk + 1
    ensures (i + nk - 1) / nk == (if i % nk == 0 then i / nk else i / nk + 1)
  {
  }

  method LoadKey(key: Bytes, nk: nat) returns (words: seq<bv32>)
    requires nk >= 4 && |key| == 4 * nk
    ensures |words| == nk && forall i :: 0 <= i < nk ==> words[i] == KeyWord(key, nk, i)
  {
    hide KeyWord, WordOf;
    words := [];
    var index := 0;
    while index < |key|
      invariant index == 4 * |words|
      invariant index <= |key|
      invariant forall i :: 0 <= i < |words| ==> words[i] == KeyWord(key, nk, i)
    {
      KeyWordGiven(key, nk, |words|);
      words := words + [WordOf(key[index], key[index + 1], key[index + 2], key[index + 3])];
      index := index + 4;
    }
  }

  /** Expands a key; only 16- and 32-byte keys are accepted.  Lengths 17..19 and 33..35 pass the
      code's word-count test but make its first loop read past the key, so they are excluded. */
  method ExpandKey(key: Bytes) returns (r: Result<Cipher>)
    requires (|key| / 4 == 4 || |key| / 4 == 8) ==> |key| % 4 == 0
    ensures r == if |key| == 16 || |key| == 32 then Success(KeyCipher(key))
                 else Failure("AES key must be 16 or 32 bytes")
  {
    hide KeyWord, SubWord, RotWord, XorWord, RconWord, Rcon, XPower;
    var nk := |key| / 4;
    if nk != 4 && nk != 8 {
      return Failure("AES key must be 16 or 32 bytes");
    }
    var rounds := nk + 6;
    var words := LoadKey(key, nk);
    var rcon := 1;
    while |words| < 4 * (rounds + 1)
      invariant nk <= |words| <= 4 * (rounds + 1)
      invariant rcon == (|words| + nk - 1) / nk
      invariant forall i :: 0 <= i < |words| ==> words[i] == KeyWord(key, nk, i)
    {
      var n := |words|;
      RconIndex(nk, n);
      KeyWordStep(key, nk, n);
      var temp := words[n - 1];
      if n % nk == 0 {
        RconIsPower(rcon);
        temp := XorWord(SubWord(RotWord(temp)), RconWord(Rcon(rcon)));
        rcon := rcon + 1;
      } else if nk > 6 && n % nk == 4 {
        temp := SubWord(temp);
      }
      words := words + [XorWord(words[n - nk], temp)];
    }
    assert words == KeySchedule(key, nk).roundKeys;
    return Success(Cipher(rounds, words));
  }

  lemma KeyWordStep(key: Bytes, nk: nat, i: nat)
    requires nk >= 4 && |key| == 4 * nk && i >= nk
    ensures KeyWord(key, nk, i) ==
      XorWord(KeyWord(key, nk, i - nk),
              KeyStep(KeyWord(key, nk, i - 1), nk, i, if i % nk == 0 then XPower(i / nk - 1) else 0))
  {
  }

  lemma KeyWordGiven(key: Bytes, nk: nat, i: nat)
    requires nk >= 4 && |key| == 4 * nk && i < nk
    ensures KeyWord(key, nk, i) == WordOf(key[4 * i], key[4 * i + 1], key[4 * i + 2], key[4 * i + 3])
  {
  }

  // ----- The round transformations on the 16-byte state, byte 4 * column + row

  function KeyAddedByte(c: Cipher, s: Block, round: nat, i: nat): bv8
    requires c.Valid() && round <= c.rounds && i < 16
  {
    XorByte(s[i], WordByte(c.roundKeys[4 * round + i / 4], i % 4))
  }

  function KeyAdded(c: Cipher, s: Block, round: nat): Block
    requires c.Valid() && round <= c.rounds
  {
    seq(16, i requires 0 <= i < 16 => KeyAddedByte(c, s, round, i))
  }

  function Substituted(s: Block): Block {
    seq(16, i requires 0 <= i < 16 => Sbox(s[i]))
  }

  // The index of a column and row of the state.
  function At(column: nat, row: nat): (i: nat)
    requires column < 4 && row < 4
    ensures i < 16
  {
    4 * column + row
  }

  // Row r of the state is rotated left by r columns (section 5.1.2).
  function RowSource(column: nat, row: nat): (j: nat)
    requires column < 4 && row < 4
    ensures j < 16
  {
    At((column + row) % 4, row)
  }

  function RowsShifted(s: Block): Block {
    seq(16, i requires 0 <= i < 16 => s[RowSource(i / 4, i % 4)])
  }

  // One row of the matrix product of section 5.1.3.
  function MixByte(a0: bv8, a1: bv8, a2: bv8, a3: bv8): bv8 {
    XorByte(XorByte(GMul(a0, 0x02), GMul(a1, 0x03)), XorByte(a2, a3))
  }

  function MixedByte(s: Block, column: nat, row: nat): bv8
    requires column < 4 && row < 4
  {
    MixByte(s[At(column, row)], s[At(column, (row + 1) % 4)],
            s[At(column, (row + 2) % 4)], s[At(column, (row + 3) % 4)])
  }

  function ColumnsMixed(s: Block): Block {
    seq(16, i requires 0 <= i < 16 => MixedByte(s, i / 4, i % 4))
  }

  // The state after the initial key addition and `round` full rounds (section 5.1).
  function AfterRounds(c: Cipher, s: Block, round: nat): Block
    requires c.Valid() && round <= c.rounds
  {
    if round == 0 then KeyAdded(c, s, 0)
    else KeyAdded(c, ColumnsMixed(RowsShifted(Substituted(AfterRounds(c, s, round - 1)))), round)
  }

  function Encrypted(c: Cipher, s: Block): Block
    requires c.Valid()
  {
    KeyAdded(c, RowsShifted(Substituted(AfterRounds(c, s, c.rounds - 1))), c.rounds)
  }

  // ----- The in-place transformations

  lemma KeyAddedAt(c: Cipher, s: Block, round: nat, column: nat, row: nat)
    requires c.Valid() && round <= c.rounds && column < 4 && row < 4
    ensures KeyAddedByte(c, s, round, 4 * column + row)
         == XorByte(s[4 * column + row], WordByte(c.roundKeys[round * 4 + column], row))
  {
    assert (4 * column + row) / 4 == column && (4 * column + row) % 4 == row;
  }

  lemma KeyAddedIs(c: Cipher, s: Block, round: nat, r: Block)
    requires c.Valid() && round <= c.rounds
    requires forall i :: 0 <= i < 16 ==> r[i] == KeyAddedByte(c, s, round, i)
    ensures r == KeyAdded(c, s, round)
  {
  }

  method AddRoundKey(state: array<bv8>, c: Cipher, round: nat)
    requires state.Length == 16 && c.Valid() && round <= c.rounds
    modifies state
    ensures state[..] == KeyAdded(c, old(state[..]), round)
  {
    hide KeyAdded, KeyAddedByte, WordByte, XorByte;
    ghost var was: Block := state[..];
    for column := 0 to 4
      invariant forall i :: 0 <= i < 4 * column ==> state[i] == KeyAddedByte(c, was, round, i)
      invariant forall i :: 4 * column <= i < 16 ==> state[i] == was[i]
    {
      KeyAddedAt(c, was, round, column, 0);
      KeyAddedAt(c, was, round, column, 1);
      KeyAddedAt(c, was, round, column, 2);
      KeyAddedAt(c, was, round, column, 3);
      var word := c.roundKeys[round * 4 + column];
      ghost var before: Block := state[..];
      state[4 * column] := XorByte(state[4 * column], WordByte(word, 0));
      state[4 * column + 1] := XorByte(state[4 * column + 1], WordByte(word, 1));
      state[4 * column + 2] := XorByte(state[4 * column + 2], WordByte(word, 2));
      state[4 * column + 3] := XorByte(state[4 * column + 3], WordByte(word, 3));
      assert forall i :: 0 <= i < 4 * column || 4 * column + 4 <= i < 16 ==> state[i] == before[i];
    }
    KeyAddedIs(c, was, round, state[..]);
  }

  method SubBytes(state: array<bv8>)
    requires state.Length == 16
    modifies state
    ensures state[..] == Substituted(old(state[..]))
  {
    hide Sbox;
    for i := 0 to 16
      invariant forall k :: 0 <= k < i ==> state[k] == Sbox(old(state[k]))
      invariant forall k :: i <= k < 16 ==> state[k] == old(state[k])
    {
      state[i] := Sbox(state[i]);
    }
  }

  lemma AtIndex(i: nat)
    requires i < 16
    ensures At(i / 4, i % 4) == i
  {
  }

  // What one assignment of ShiftRows leaves: the target set, every other index kept.
  lemma AssignAt(before: Block, after: Block, column: nat, row: nat, value: bv8)
    requires column < 4 && row < 4 && after == before[At(column, row) := value]
    ensures after[At(column, row)] == value
    ensures forall c: nat, r: nat {:trigger At(c, r)} :: c < 4 && r < 4 && !(c == column && r == row) ==>
      after[At(c, r)] == before[At(c, r)]
  {
  }

  method ShiftRows(state: array<bv8>)
    requires state.Length == 16
    modifies state
    ensures state[..] == RowsShifted(old(state[..]))
  {
    hide At;
    var original: Block := state[..];
    for row := 0 to 4
      invariant forall c: nat, r: nat {:trigger At(c, r)} :: c < 4 && r < row ==>
        state[..][At(c, r)] == original[RowSource(c, r)]
    {
      for column := 0 to 4
        invariant forall c: nat, r: nat {:trigger At(c, r)} :: c < 4 && (r < row || (r == row && c < column)) ==>
          state[..][At(c, r)] == original[RowSource(c, r)]
      {
        ghost var before: Block := state[..];
        AtIsIndex(column, row);
        AtIsIndex((column + row) % 4, row);
        state[4 * column + row] := original[4 * ((column + row) % 4) + row];
        AssignAt(before, state[..], column, row, original[RowSource(column, row)]);
      }
    }
    forall i: nat | i < 16
      ensures state[..][i] == original[RowSource(i / 4, i % 4)]
    {
      AtIndex(i);
    }
  }

  lemma AtIsIndex(column: nat, row: nat)
    requires column < 4 && row < 4
    ensures At(column, row) == 4 * column + row
  {
  }

  lemma ColumnIndices(column: nat)
    requires column < 4
    ensures forall i {:trigger i / 4} :: 4 * column <= i < 4 * column + 4 ==> i / 4 == column && i % 4 == i - 4 * column
  {
  }

  lemma MixedColumn(s: Block, column: nat, o: nat)
    requires column < 4 && o == 4 * column
    ensures MixedByte(s, column, 0) == MixByte(s[o], s[o + 1], s[o + 2], s[o + 3])
    ensures MixedByte(s, column, 1) == MixByte(s[o + 1], s[o + 2], s[o + 3], s[o])
    ensures MixedByte(s, column, 2) == MixByte(s[o + 2], s[o + 3], s[o], s[o + 1])
    ensures MixedByte(s, column, 3) == MixByte(s[o + 3], s[o], s[o + 1], s[o + 2])
  {
    hide MixByte;
  }

  method MixColumns(state: array<bv8>)
    requires state.Length == 16
    modifies state
    ensures state[..] == ColumnsMixed(old(state[..]))
  {
    hide Xtime, MixByte, XorByte, Sum4, MixedByte;
    ghost var was: Block := state[..];
    for column := 0 to 4
      invariant forall i :: 0 <= i < 4 * column ==> state[i] == MixedByte(was, i / 4, i % 4)
      invariant forall i :: 4 * column <= i < 16 ==> state[i] == was[i]
    {
      var offset := 4 * column;
      ColumnIndices(column);
      MixedColumn(was, column, offset);
      var a0, a1, a2, a3 := state[offset], state[offset + 1], state[offset + 2], state[offset + 3];
      var t := Sum4(a0, a1, a2, a3);
      XtimeForm(a0, a1, a2, a3);
      XtimeForm(a1, a2, a3, a0);
      XtimeForm(a2, a3, a0, a1);
      XtimeForm(a3, a0, a1, a2);
      RotatedSum(a0, a1, a2, a3);
      RotatedSum(a1, a2, a3, a0);
      RotatedSum(a2, a3, a0, a1);
      state[offset] := XorByte(state[offset], XorByte(t, Xtime(XorByte(a0, a1))));
      state[offset + 1] := XorByte(state[offset + 1], XorByte(t, Xtime(XorByte(a1, a2))));
      state[offset + 2] := XorByte(state[offset + 2], XorByte(t, Xtime(XorByte(a2, a3))));
      state[offset + 3] := XorByte(state[offset + 3], XorByte(t, Xtime(XorByte(a3, a0))));
    }
  }

  /** Encrypts one block as FIPS 197 section 5.1 prescribes. */
  method EncryptBlock(c: Cipher, input: Block) returns (output: Block)
    requires c.Valid()
    ensures output == Encrypted(c, input)
  {
    hide KeyAdded, Substituted, RowsShifted, ColumnsMixed;
    var state := new bv8[16](i requires 0 <= i < 16 => input[i]);
    assert state[..] == input;
    AddRoundKey(state, c, 0);
    for round := 1 to c.rounds
      invariant fresh(state)
      invariant state[..] == AfterRounds(c, input, round - 1)
    {
      SubBytes(state);
      ShiftRows(state);
      MixColumns(state);
      AddRoundKey(state, c, round);
    }
    SubBytes(state);
    ShiftRows(state);
    AddRoundKey(state, c, c.rounds);
    output := state[..];
  }

  // ----- The xtime form of MixColumns

  function Sum4(a0: bv8, a1: bv8, a2: bv8, a3: bv8): bv8 {
    XorByte(XorByte(a0, a1), XorByte(a2, a3))
  }

  lemma RotatedSum(a0: bv8, a1: bv8, a2: bv8, a3: bv8)
    ensures Sum4(a1, a2, a3, a0) == Sum4(a0, a1, a2, a3)
  {
    hide XorByte;
    XorUnits(a3, a0);
    XorSwaps(a1, a2, a0, a3);
    XorUnits(a0, a1);
  }

  // MixByte over the doubled values of its first two arguments.
  function MixOf(x0: bv8, x1: bv8, a1: bv8, a2: bv8, a3: bv8): bv8 {
    XorByte(XorByte(x0, XorByte(x1, a1)), XorByte(a2, a3))
  }

  lemma MixByDoubling(a0: bv8, a1: bv8, a2: bv8, a3: bv8)
    ensures MixByte(a0, a1, a2, a3) == MixOf(Xtime(a0), Xtime(a1), a1, a2, a3)
  {
  }

  lemma MixAlgebra(a0: bv8, a1: bv8, a2: bv8, a3: bv8, x0: bv8, x1: bv8)
    ensures XorByte(a0, XorByte(Sum4(a0, a1, a2, a3), XorByte(x0, x1))) == MixOf(x0, x1, a1, a2, a3)
  {
    hide XorByte;
    var u, z := XorByte(a2, a3), XorByte(x0, x1);
    XorAssociates(XorByte(a0, a1), u, z);
    XorAssociates(a0, XorByte(a0, a1), XorByte(u, z));
    XorUnits(a1, a0);
    XorUnits(a0, XorByte(a1, a0));
    XorByteCancels(a1, a0);
    XorAssociates(x0, x1, a1);
    XorUnits(z, a1);
    XorAssociates(a1, z, u);
    XorUnits(z, u);
  }

  lemma DoubledXor(a: bv8, b: bv8)
    ensures Xtime(XorByte(a, b)) == XorByte(Xtime(a), Xtime(b))
  {
    XtimeXor(a, b);
  }

  /** The code's a ^ t ^ Xtime(a ^ next) is the matrix row of section 5.1.3. */
  lemma XtimeForm(a0: bv8, a1: bv8, a2: bv8, a3: bv8)
    ensures XorByte(a0, XorByte(Sum4(a0, a1, a2, a3), Xtime(XorByte(a0, a1)))) == MixByte(a0, a1, a2, a3)
  {
    hide Xtime, MixByte, MixOf, Sum4, XorByte;
    DoubledXor(a0, a1);
    MixByDoubling(a0, a1, a2, a3);
    MixAlgebra(a0, a1, a2, a3, Xtime(a0), Xtime(a1));
  }

  // ----- Every step is one-to-one

  lemma XorKeyOneToOne(a: bv8, b: bv8, k: bv8)
    requires XorByte(a, k) == XorByte(b, k)
    ensures a == b
  {
  }

  lemma KeyAddedOneToOne(c: Cipher, s: Block, t: Block, round: nat)
    requires c.Valid() && round <= c.rounds
    requires KeyAdded(c, s, round) == KeyAdded(c, t, round)
    ensures s == t
  {
    hide XorByte, WordByte;
    forall i | 0 <= i < 16
      ensures s[i] == t[i]
    {
      assert KeyAdded(c, s, round)[i] == KeyAdded(c, t, round)[i];
      XorKeyOneToOne(s[i], t[i], WordByte(c.roundKeys[4 * round + i / 4], i % 4));
    }
  }

  lemma SubstitutedOneToOne(s: Block, t: Block)
    requires Substituted(s) == Substituted(t)
    ensures s == t
  {
    hide Sbox;
    forall i | 0 <= i < 16
      ensures s[i] == t[i]
    {
      assert Substituted(s)[i] == Substituted(t)[i];
      SboxOneToOne(s[i], t[i]);
    }
  }

  lemma RowsShiftedAt(s: Block, t: Block, column: nat, row: nat)
    requires column < 4 && row < 4 && RowsShifted(s) == RowsShifted(t)
    ensures s[RowSource(column, row)] == t[RowSource(column, row)]
  {
    var i := At(column, row);
    assert i / 4 == column && i % 4 == row;
    assert RowsShifted(s)[i] == RowsShifted(t)[i];
  }

  lemma RotateBack(column: nat, row: nat)
    requires column < 4 && row < 4
    ensures ((column + 4 - row) % 4 + row) % 4 == column
  {
  }

  lemma RowsShiftedOneToOne(s: Block, t: Block)
    requires RowsShifted(s) == RowsShifted(t)
    ensures s == t
  {
    hide RowsShifted, At;
    forall j: nat | j < 16
      ensures s[j] == t[j]
    {
      RotateBack(j / 4, j % 4);
      RowsShiftedAt(s, t, (j / 4 + 4 - j % 4) % 4, j % 4);
      AtIndex(j);
    }
  }

  lemma LinearAlgebra(x0: bv8, y0: bv8, x1: bv8, y1: bv8, a1: bv8, b1: bv8, a2: bv8, b2: bv8, a3: bv8, b3: bv8)
    ensures MixOf(XorByte(x0, y0), XorByte(x1, y1), XorByte(a1, b1), XorByte(a2, b2), XorByte(a3, b3))
         == XorByte(MixOf(x0, x1, a1, a2, a3), MixOf(y0, y1, b1, b2, b3))
  {
    hide XorByte;
    XorSwaps(x1, y1, a1, b1);
    XorSwaps(x0, y0, XorByte(x1, a1), XorByte(y1, b1));
    XorSwaps(a2, b2, a3, b3);
    XorSwaps(XorByte(x0, XorByte(x1, a1)), XorByte(y0, XorByte(y1, b1)), XorByte(a2, a3), XorByte(b2, b3));
  }

  lemma MixByteLinear(a0: bv8, a1: bv8, a2: bv8, a3: bv8, b0: bv8, b1: bv8, b2: bv8, b3: bv8)
    ensures MixByte(XorByte(a0, b0), XorByte(a1, b1), XorByte(a2, b2), XorByte(a3, b3))
         == XorByte(MixByte(a0, a1, a2, a3), MixByte(b0, b1, b2, b3))
  {
    hide Xtime, MixByte, MixOf, XorByte;
    MixByDoubling(a0, a1, a2, a3);
    MixByDoubling(b0, b1, b2, b3);
    MixByDoubling(XorByte(a0, b0), XorByte(a1, b1), XorByte(a2, b2), XorByte(a3, b3));
    DoubledXor(a0, b0);
    DoubledXor(a1, b1);
    LinearAlgebra(Xtime(a0), Xtime(b0), Xtime(a1), Xtime(b1), a1, b1, a2, b2, a3, b3);
  }

  // A zero row says what the doubled sum of its first two bytes is.
  lemma RowOfKernel(d0: bv8, d1: bv8, d2: bv8, d3: bv8)
    requires MixByte(d0, d1, d2, d3) == 0
    ensures Xtime(XorByte(d0, d1)) == XorByte(d0, Sum4(d0, d1, d2, d3))
  {
    hide Xtime, MixByte, Sum4, XorByte;
    var sum, x := Sum4(d0, d1, d2, d3), Xtime(XorByte(d0, d1));
    XtimeForm(d0, d1, d2, d3);
    XorUnits(d0, XorByte(sum, x));
    XorUnits(sum, x);
    XorByteCancels(x, sum);
  }

  lemma XtimeZero()
    ensures Xtime(0) == 0
  {
  }

  /** The MixColumns matrix has a trivial kernel. */
  lemma KernelIsZero(d0: bv8, d1: bv8, d2: bv8, d3: bv8)
    requires MixByte(d0, d1, d2, d3) == 0 && MixByte(d1, d2, d3, d0) == 0
    requires MixByte(d2, d3, d0, d1) == 0 && MixByte(d3, d0, d1, d2) == 0
    ensures d0 == 0 && d1 == 0 && d2 == 0 && d3 == 0
  {
    hide Xtime, MixByte, XorByte;
    RowOfKernel(d0, d1, d2, d3);
    RowOfKernel(d1, d2, d3, d0);
    RowOfKernel(d2, d3, d0, d1);
    RowOfKernel(d3, d0, d1, d2);
    var sum := Sum4(d0, d1, d2, d3);
    RotatedSum(d0, d1, d2, d3);
    RotatedSum(d1, d2, d3, d0);
    RotatedSum(d2, d3, d0, d1);
    // the sum is zero
    DoubledXor(XorByte(d0, d1), XorByte(d2, d3));
    DoubledXor(XorByte(d1, d2), XorByte(d3, d0));
    XorSwaps(d0, sum, d2, sum);
    XorSwaps(d1, sum, d3, sum);
    XorUnits(sum, sum);
    XorUnits(XorByte(d0, d2), 0);
    XorUnits(XorByte(d1, d3), 0);
    XorSwaps(d0, d1, d2, d3);
    XorUnits(XorByte(d0, d2), XorByte(d1, d3));
    assert sum == 0;
    // so opposite bytes agree, then all, and all are zero
    XorUnits(XorByte(d0, d1), XorByte(d2, d3));
    XorUnits(XorByte(d1, d2), XorByte(d3, d0));
    XorUnits(d0, d1);
    XorUnits(d1, d0);
    XorUnits(d2, d1);
    XorUnits(d3, d0);
    XorUnits(d0, d0);
    XtimeZero();
  }

  lemma ColumnOneToOne(a0: bv8, a1: bv8, a2: bv8, a3: bv8, b0: bv8, b1: bv8, b2: bv8, b3: bv8)
    requires MixByte(a0, a1, a2, a3) == MixByte(b0, b1, b2, b3)
    requires MixByte(a1, a2, a3, a0) == MixByte(b1, b2, b3, b0)
    requires MixByte(a2, a3, a0, a1) == MixByte(b2, b3, b0, b1)
    requires MixByte(a3, a0, a1, a2) == MixByte(b3, b0, b1, b2)
    ensures a0 == b0 && a1 == b1 && a2 == b2 && a3 == b3
  {
    hide MixByte, XorByte;
    MixByteLinear(a0, a1, a2, a3, b0, b1, b2, b3);
    MixByteLinear(a1, a2, a3, a0, b1, b2, b3, b0);
    MixByteLinear(a2, a3, a0, a1, b2, b3, b0, b1);
    MixByteLinear(a3, a0, a1, a2, b3, b0, b1, b2);
    XorUnits(MixByte(a0, a1, a2, a3), MixByte(b0, b1, b2, b3));
    XorUnits(MixByte(a1, a2, a3, a0), MixByte(b1, b2, b3, b0));
    XorUnits(MixByte(a2, a3, a0, a1), MixByte(b2, b3, b0, b1));
    XorUnits(MixByte(a3, a0, a1, a2), MixByte(b3, b0, b1, b2));
    KernelIsZero(XorByte(a0, b0), XorByte(a1, b1), XorByte(a2, b2), XorByte(a3, b3));
    XorUnits(a0, b0);
    XorUnits(a1, b1);
    XorUnits(a2, b2);
    XorUnits(a3, b3);
  }

  lemma ColumnsMixedAt(s: Block, t: Block, column: nat, row: nat)
    requires column < 4 && row < 4 && ColumnsMixed(s) == ColumnsMixed(t)
    ensures MixedByte(s, column, row) == MixedByte(t, column, row)
  {
    hide MixedByte;
    var i := At(column, row);
    assert i / 4 == column && i % 4 == row;
    assert ColumnsMixed(s)[i] == ColumnsMixed(t)[i];
  }

  lemma ColumnsMixedOneToOne(s: Block, t: Block)
    requires ColumnsMixed(s) == ColumnsMixed(t)
    ensures s == t
  {
    hide MixByte, ColumnsMixed;
    forall i: nat | i < 16
      ensures s[i] == t[i]
    {
      var c := i / 4;
      AtIndex(i);
      ColumnsMixedAt(s, t, c, 0);
      ColumnsMixedAt(s, t, c, 1);
      ColumnsMixedAt(s, t, c, 2);
      ColumnsMixedAt(s, t, c, 3);
      ColumnOneToOne(s[At(c, 0)], s[At(c, 1)], s[At(c, 2)], s[At(c, 3)],
                     t[At(c, 0)], t[At(c, 1)], t[At(c, 2)], t[At(c, 3)]);
    }
  }

  lemma {:induction false} RoundsOneToOne(c: Cipher, s: Block, t: Block, round: nat)
    requires c.Valid() && round <= c.rounds
    requires AfterRounds(c, s, round) == AfterRounds(c, t, round)
    ensures s == t
  {
    hide KeyAdded, Substituted, RowsShifted, ColumnsMixed;
    if round == 0 {
      KeyAddedOneToOne(c, s, t, 0);
    } else {
      var a, b := AfterRounds(c, s, round - 1), AfterRounds(c, t, round - 1);
      KeyAddedOneToOne(c, ColumnsMixed(RowsShifted(Substituted(a))), ColumnsMixed(RowsShifted(Substituted(b))), round);
      ColumnsMixedOneToOne(RowsShifted(Substituted(a)), RowsShifted(Substituted(b)));
      RowsShiftedOneToOne(Substituted(a), Substituted(b));
      SubstitutedOneToOne(a, b);
      RoundsOneToOne(c, s, t, round - 1);
    }
  }

  /** Distinct plaintext blocks encrypt to distinct ciphertext blocks under every key schedule. */
  lemma EncryptedOneToOne(c: Cipher, s: Block, t: Block)
    requires c.Valid()
    requires Encrypted(c, s) == Encrypted(c, t)
    ensures s == t
  {
    hide KeyAdded, Substituted, RowsShifted;
    var a, b := AfterRounds(c, s, c.rounds - 1), AfterRounds(c, t, c.rounds - 1);
    KeyAddedOneToOne(c, RowsShifted(Substituted(a)), RowsShifted(Substituted(b)), c.rounds);
    RowsShiftedOneToOne(Substituted(a), Substituted(b));
    SubstitutedOneToOne(a, b);
    RoundsOneToOne(c, s, t, c.rounds - 1);
  }
}
