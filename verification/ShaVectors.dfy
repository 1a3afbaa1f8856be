/** The example of FIPS 180-4's SHA-256: the digest of "abc", word by word and round by round. */
module ShaVectors {
  import opened Bytes
  import opened Words
  import opened Sha
  import opened ShaConstants

  const Abc: Bytes := [0x61, 0x62, 0x63]

  function AbcBlock(): (block: Bytes)
    ensures |block| == 64
  {
    Abc + [0x80] + Zeros(52) + BE64(24)
  }

  function AbcWord(t: nat): bv32 {
    Schedule(AbcBlock(), t)
  }

  function AbcRounds(t: nat): State
    requires t <= 64
  {
    Rounds(InitialState(), AbcBlock(), t)
  }

  // ----- The message schedule

  function NextWord(a: bv32, b: bv32, c: bv32, d: bv32): bv32 {
    Plus(Plus(Plus(a, SmallSigma0(b)), c), SmallSigma1(d))
  }

  lemma NextWords16()
    ensures NextWord(0x61626380, 0x00000000, 0x00000000, 0x00000000) == 0x61626380
    ensures NextWord(0x00000000, 0x00000000, 0x00000000, 0x00000018) == 0x000f0000
    ensures NextWord(0x00000000, 0x00000000, 0x00000000, 0x61626380) == 0x7da86405
    ensures NextWord(0x00000000, 0x00000000, 0x00000000, 0x000f0000) == 0x600003c6
    ensures NextWord(0x00000000, 0x00000000, 0x00000000, 0x7da86405) == 0x3e9d7b78
    ensures NextWord(0x00000000, 0x00000000, 0x00000000, 0x600003c6) == 0x0183fc00
    ensures NextWord(0x00000000, 0x00000000, 0x00000018, 0x3e9d7b78) == 0x12dcbfdb
    ensures NextWord(0x00000000, 0x00000000, 0x61626380, 0x0183fc00) == 0xe2e2c38e
  {
  }

  lemma NextWords24()
    ensures NextWord(0x00000000, 0x00000000, 0x000f0000, 0x12dcbfdb) == 0xc8215c1a
    ensures NextWord(0x00000000, 0x00000000, 0x7da86405, 0xe2e2c38e) == 0xb73679a2
    ensures NextWord(0x00000000, 0x00000000, 0x600003c6, 0xc8215c1a) == 0xe5bc3909
    ensures NextWord(0x00000000, 0x00000000, 0x3e9d7b78, 0xb73679a2) == 0x32663c5b
    ensures NextWord(0x00000000, 0x00000000, 0x0183fc00, 0xe5bc3909) == 0x9d209d67
    ensures NextWord(0x00000000, 0x00000000, 0x12dcbfdb, 0x32663c5b) == 0xec8726cb
    ensures NextWord(0x00000000, 0x00000018, 0xe2e2c38e, 0x9d209d67) == 0x702138a4
    ensures NextWord(0x00000018, 0x61626380, 0xc8215c1a, 0xec8726cb) == 0xd3b7973b
  {
  }

  lemma NextWords32()
    ensures NextWord(0x61626380, 0x000f0000, 0xb73679a2, 0x702138a4) == 0x93f5997f
    ensures NextWord(0x000f0000, 0x7da86405, 0xe5bc3909, 0xd3b7973b) == 0x3b68ba73
    ensures NextWord(0x7da86405, 0x600003c6, 0x32663c5b, 0x93f5997f) == 0xaff4ffc1
    ensures NextWord(0x600003c6, 0x3e9d7b78, 0x9d209d67, 0x3b68ba73) == 0xf10a5c62
    ensures NextWord(0x3e9d7b78, 0x0183fc00, 0xec8726cb, 0xaff4ffc1) == 0x0a8b3996
    ensures NextWord(0x0183fc00, 0x12dcbfdb, 0x702138a4, 0xf10a5c62) == 0x72af830a
    ensures NextWord(0x12dcbfdb, 0xe2e2c38e, 0xd3b7973b, 0x0a8b3996) == 0x9409e33e
    ensures NextWord(0xe2e2c38e, 0xc8215c1a, 0x93f5997f, 0x72af830a) == 0x24641522
  {
  }

  lemma NextWords40()
    ensures NextWord(0xc8215c1a, 0xb73679a2, 0x3b68ba73, 0x9409e33e) == 0x9f47bf94
    ensures NextWord(0xb73679a2, 0xe5bc3909, 0xaff4ffc1, 0x24641522) == 0xf0a64f5a
    ensures NextWord(0xe5bc3909, 0x32663c5b, 0xf10a5c62, 0x9f47bf94) == 0x3e246a79
    ensures NextWord(0x32663c5b, 0x9d209d67, 0x0a8b3996, 0xf0a64f5a) == 0x27333ba3
    ensures NextWord(0x9d209d67, 0xec8726cb, 0x72af830a, 0x3e246a79) == 0x0c4763f2
    ensures NextWord(0xec8726cb, 0x702138a4, 0x9409e33e, 0x27333ba3) == 0x840abf27
    ensures NextWord(0x702138a4, 0xd3b7973b, 0x24641522, 0x0c4763f2) == 0x7a290d5d
    ensures NextWord(0xd3b7973b, 0x93f5997f, 0x9f47bf94, 0x840abf27) == 0x065c43da
  {
  }

  lemma NextWords48()
    ensures NextWord(0x93f5997f, 0x3b68ba73, 0xf0a64f5a, 0x7a290d5d) == 0xfb3e89cb
    ensures NextWord(0x3b68ba73, 0xaff4ffc1, 0x3e246a79, 0x065c43da) == 0xcc7617db
    ensures NextWord(0xaff4ffc1, 0xf10a5c62, 0x27333ba3, 0xfb3e89cb) == 0xb9e66c34
    ensures NextWord(0xf10a5c62, 0x0a8b3996, 0x0c4763f2, 0xcc7617db) == 0xa9993667
    ensures NextWord(0x0a8b3996, 0x72af830a, 0x840abf27, 0xb9e66c34) == 0x84badedd
    ensures NextWord(0x72af830a, 0x9409e33e, 0x7a290d5d, 0xa9993667) == 0xc21462bc
    ensures NextWord(0x9409e33e, 0x24641522, 0x065c43da, 0x84badedd) == 0x1487472c
    ensures NextWord(0x24641522, 0x9f47bf94, 0xfb3e89cb, 0xc21462bc) == 0xb20f7a99
  {
  }

  lemma NextWords56()
    ensures NextWord(0x9f47bf94, 0xf0a64f5a, 0xcc7617db, 0x1487472c) == 0xef57b9cd
    ensures NextWord(0xf0a64f5a, 0x3e246a79, 0xb9e66c34, 0xb20f7a99) == 0xebe6b238
    ensures NextWord(0x3e246a79, 0x27333ba3, 0xa9993667, 0xef57b9cd) == 0x9fe3095e
    ensures NextWord(0x27333ba3, 0x0c4763f2, 0x84badedd, 0xebe6b238) == 0x78bc8d4b
    ensures NextWord(0x0c4763f2, 0x840abf27, 0xc21462bc, 0x9fe3095e) == 0xa43fcf15
    ensures NextWord(0x840abf27, 0x7a290d5d, 0x1487472c, 0x78bc8d4b) == 0x668b2ff8
    ensures NextWord(0x7a290d5d, 0x065c43da, 0xb20f7a99, 0xa43fcf15) == 0xeeaba2cc
    ensures NextWord(0x065c43da, 0xfb3e89cb, 0xef57b9cd, 0x668b2ff8) == 0x12b1edeb
  {
  }

  lemma NextScheduled(t: nat, a: bv32, b: bv32, c: bv32, d: bv32, w: bv32)
    requires t >= 16 && NextWord(a, b, c, d) == w
    requires AbcWord(t - 16) == a && AbcWord(t - 15) == b
    requires AbcWord(t - 7) == c && AbcWord(t - 2) == d
    ensures AbcWord(t) == w
  {
    hide AbcBlock, SmallSigma0, SmallSigma1, Plus, Schedule;
    ScheduleStep(AbcBlock(), t);
  }

  // The words of the schedule.
  function AbcTable(t: nat): bv32
    requires t < 64
  {
    if t < 4 then if t < 2 then if t < 1 then 0x61626380 else 0x00000000 else if t < 3 then 0x00000000 else 0x00000000
    else if t < 8 then if t < 6 then if t < 5 then 0x00000000 else 0x00000000 else if t < 7 then 0x00000000 else 0x00000000
    else if t < 12 then if t < 10 then if t < 9 then 0x00000000 else 0x00000000 else if t < 11 then 0x00000000 else 0x00000000
    else if t < 16 then if t < 14 then if t < 13 then 0x00000000 else 0x00000000 else if t < 15 then 0x00000000 else 0x00000018
    else if t < 20 then if t < 18 then if t < 17 then 0x61626380 else 0x000f0000 else if t < 19 then 0x7da86405 else 0x600003c6
    else if t < 24 then if t < 22 then if t < 21 then 0x3e9d7b78 else 0x0183fc00 else if t < 23 then 0x12dcbfdb else 0xe2e2c38e
    else if t < 28 then if t < 26 then if t < 25 then 0xc8215c1a else 0xb73679a2 else if t < 27 then 0xe5bc3909 else 0x32663c5b
    else if t < 32 then if t < 30 then if t < 29 then 0x9d209d67 else 0xec8726cb else if t < 31 then 0x702138a4 else 0xd3b7973b
    else if t < 36 then if t < 34 then if t < 33 then 0x93f5997f else 0x3b68ba73 else if t < 35 then 0xaff4ffc1 else 0xf10a5c62
    else if t < 40 then if t < 38 then if t < 37 then 0x0a8b3996 else 0x72af830a else if t < 39 then 0x9409e33e else 0x24641522
    else if t < 44 then if t < 42 then if t < 41 then 0x9f47bf94 else 0xf0a64f5a else if t < 43 then 0x3e246a79 else 0x27333ba3
    else if t < 48 then if t < 46 then if t < 45 then 0x0c4763f2 else 0x840abf27 else if t < 47 then 0x7a290d5d else 0x065c43da
    else if t < 52 then if t < 50 then if t < 49 then 0xfb3e89cb else 0xcc7617db else if t < 51 then 0xb9e66c34 else 0xa9993667
    else if t < 56 then if t < 54 then if t < 53 then 0x84badedd else 0xc21462bc else if t < 55 then 0x1487472c else 0xb20f7a99
    else if t < 60 then if t < 58 then if t < 57 then 0xef57b9cd else 0xebe6b238 else if t < 59 then 0x9fe3095e else 0x78bc8d4b
    else if t < 62 then if t < 61 then 0xa43fcf15 else 0x668b2ff8 else if t < 63 then 0xeeaba2cc else 0x12b1edeb
  }

  lemma AbcBlockBytes()
    ensures AbcBlock()[0] == 0x61 && AbcBlock()[1] == 0x62 && AbcBlock()[2] == 0x63 && AbcBlock()[3] == 0x80
    ensures forall i :: 4 <= i < 63 ==> AbcBlock()[i] == 0
    ensures AbcBlock()[63] == 24
  {
    hide BE64;
    LengthBytes();
  }

  lemma LengthBytes()
    ensures BE64(24) == [0, 0, 0, 0, 0, 0, 0, 24]
  {
    hide LE, IntByte;
    LowBytes();
  }

  lemma LowBytes()
    ensures LE(24, 8) == [24, 0, 0, 0, 0, 0, 0, 0]
  {
    hide IntByte;
    ZeroByte();
    LengthByte();
  }

  lemma ZeroByte()
    ensures IntByte(0) == 0
  {
    hide ByteOfBits;
    SmallNumerals();
  }

  lemma LengthByte()
    ensures IntByte(24) == 24
  {
    hide ByteOfBits;
    SmallNumerals();
  }

  lemma SmallNumerals()
    ensures ByteOfBits(false, false, false, false, false, false, false, false) == 0
    ensures ByteOfBits(false, false, false, true, true, false, false, false) == 24
  {
  }

  lemma FirstWord() ensures WordOf(0x61, 0x62, 0x63, 0x80) == 0x61626380 {}
  lemma ZeroWord() ensures WordOf(0, 0, 0, 0) == 0 {}
  lemma LastWord() ensures WordOf(0, 0, 0, 24) == 24 {}

  lemma GivenWord(t: nat)
    requires t < 16
    ensures AbcWord(t) == AbcTable(t)
  {
    hide AbcBlock, WordOf, Schedule;
    AbcBlockBytes();
    FirstWord();
    ZeroWord();
    LastWord();
    ScheduleGiven(AbcBlock(), t);
  }

  lemma Words0To15()
    ensures forall t :: 0 <= t < 16 ==> AbcWord(t) == AbcTable(t)
  {
    hide AbcWord, AbcTable;
    forall t: nat | t < 16
      ensures AbcWord(t) == AbcTable(t)
    {
      GivenWord(t);
    }
  }

  lemma Words16To31()
    ensures forall t :: 16 <= t < 32 ==> AbcWord(t) == AbcTable(t)
  {
    hide AbcWord, NextWord;
    Words0To15();
    NextWords16();
    NextScheduled(16, 0x61626380, 0x00000000, 0x00000000, 0x00000000, 0x61626380);
    NextScheduled(17, 0x00000000, 0x00000000, 0x00000000, 0x00000018, 0x000f0000);
    NextScheduled(18, 0x00000000, 0x00000000, 0x00000000, 0x61626380, 0x7da86405);
    NextScheduled(19, 0x00000000, 0x00000000, 0x00000000, 0x000f0000, 0x600003c6);
    NextScheduled(20, 0x00000000, 0x00000000, 0x00000000, 0x7da86405, 0x3e9d7b78);
    NextScheduled(21, 0x00000000, 0x00000000, 0x00000000, 0x600003c6, 0x0183fc00);
    NextScheduled(22, 0x00000000, 0x00000000, 0x00000018, 0x3e9d7b78, 0x12dcbfdb);
    NextScheduled(23, 0x00000000, 0x00000000, 0x61626380, 0x0183fc00, 0xe2e2c38e);
    NextWords24();
    NextScheduled(24, 0x00000000, 0x00000000, 0x000f0000, 0x12dcbfdb, 0xc8215c1a);
    NextScheduled(25, 0x00000000, 0x00000000, 0x7da86405, 0xe2e2c38e, 0xb73679a2);
    NextScheduled(26, 0x00000000, 0x00000000, 0x600003c6, 0xc8215c1a, 0xe5bc3909);
    NextScheduled(27, 0x00000000, 0x00000000, 0x3e9d7b78, 0xb73679a2, 0x32663c5b);
    NextScheduled(28, 0x00000000, 0x00000000, 0x0183fc00, 0xe5bc3909, 0x9d209d67);
    NextScheduled(29, 0x00000000, 0x00000000, 0x12dcbfdb, 0x32663c5b, 0xec8726cb);
    NextScheduled(30, 0x00000000, 0x00000018, 0xe2e2c38e, 0x9d209d67, 0x702138a4);
    NextScheduled(31, 0x00000018, 0x61626380, 0xc8215c1a, 0xec8726cb, 0xd3b7973b);
  }

  lemma Words32To47()
    ensures forall t :: 32 <= t < 48 ==> AbcWord(t) == AbcTable(t)
  {
    hide AbcWord, NextWord;
    Words16To31();
    NextWords32();
    NextScheduled(32, 0x61626380, 0x000f0000, 0xb73679a2, 0x702138a4, 0x93f5997f);
    NextScheduled(33, 0x000f0000, 0x7da86405, 0xe5bc3909, 0xd3b7973b, 0x3b68ba73);
    NextScheduled(34, 0x7da86405, 0x600003c6, 0x32663c5b, 0x93f5997f, 0xaff4ffc1);
    NextScheduled(35, 0x600003c6, 0x3e9d7b78, 0x9d209d67, 0x3b68ba73, 0xf10a5c62);
    NextScheduled(36, 0x3e9d7b78, 0x0183fc00, 0xec8726cb, 0xaff4ffc1, 0x0a8b3996);
    NextScheduled(37, 0x0183fc00, 0x12dcbfdb, 0x702138a4, 0xf10a5c62, 0x72af830a);
    NextScheduled(38, 0x12dcbfdb, 0xe2e2c38e, 0xd3b7973b, 0x0a8b3996, 0x9409e33e);
    NextScheduled(39, 0xe2e2c38e, 0xc8215c1a, 0x93f5997f, 0x72af830a, 0x24641522);
    NextWords40();
    NextScheduled(40, 0xc8215c1a, 0xb73679a2, 0x3b68ba73, 0x9409e33e, 0x9f47bf94);
    NextScheduled(41, 0xb73679a2, 0xe5bc3909, 0xaff4ffc1, 0x24641522, 0xf0a64f5a);
    NextScheduled(42, 0xe5bc3909, 0x32663c5b, 0xf10a5c62, 0x9f47bf94, 0x3e246a79);
    NextScheduled(43, 0x32663c5b, 0x9d209d67, 0x0a8b3996, 0xf0a64f5a, 0x27333ba3);
    NextScheduled(44, 0x9d209d67, 0xec8726cb, 0x72af830a, 0x3e246a79, 0x0c4763f2);
    NextScheduled(45, 0xec8726cb, 0x702138a4, 0x9409e33e, 0x27333ba3, 0x840abf27);
    NextScheduled(46, 0x702138a4, 0xd3b7973b, 0x24641522, 0x0c4763f2, 0x7a290d5d);
    NextScheduled(47, 0xd3b7973b, 0x93f5997f, 0x9f47bf94, 0x840abf27, 0x065c43da);
  }

  lemma Words48To63()
    ensures forall t :: 48 <= t < 64 ==> AbcWord(t) == AbcTable(t)
  {
    hide AbcWord, NextWord;
    Words32To47();
    NextWords48();
    NextScheduled(48, 0x93f5997f, 0x3b68ba73, 0xf0a64f5a, 0x7a290d5d, 0xfb3e89cb);
    NextScheduled(49, 0x3b68ba73, 0xaff4ffc1, 0x3e246a79, 0x065c43da, 0xcc7617db);
    NextScheduled(50, 0xaff4ffc1, 0xf10a5c62, 0x27333ba3, 0xfb3e89cb, 0xb9e66c34);
    NextScheduled(51, 0xf10a5c62, 0x0a8b3996, 0x0c4763f2, 0xcc7617db, 0xa9993667);
    NextScheduled(52, 0x0a8b3996, 0x72af830a, 0x840abf27, 0xb9e66c34, 0x84badedd);
    NextScheduled(53, 0x72af830a, 0x9409e33e, 0x7a290d5d, 0xa9993667, 0xc21462bc);
    NextScheduled(54, 0x9409e33e, 0x24641522, 0x065c43da, 0x84badedd, 0x1487472c);
    NextScheduled(55, 0x24641522, 0x9f47bf94, 0xfb3e89cb, 0xc21462bc, 0xb20f7a99);
    NextWords56();
    NextScheduled(56, 0x9f47bf94, 0xf0a64f5a, 0xcc7617db, 0x1487472c, 0xef57b9cd);
    NextScheduled(57, 0xf0a64f5a, 0x3e246a79, 0xb9e66c34, 0xb20f7a99, 0xebe6b238);
    NextScheduled(58, 0x3e246a79, 0x27333ba3, 0xa9993667, 0xef57b9cd, 0x9fe3095e);
    NextScheduled(59, 0x27333ba3, 0x0c4763f2, 0x84badedd, 0xebe6b238, 0x78bc8d4b);
    NextScheduled(60, 0x0c4763f2, 0x840abf27, 0xc21462bc, 0x9fe3095e, 0xa43fcf15);
    NextScheduled(61, 0x840abf27, 0x7a290d5d, 0x1487472c, 0x78bc8d4b, 0x668b2ff8);
    NextScheduled(62, 0x7a290d5d, 0x065c43da, 0xb20f7a99, 0xa43fcf15, 0xeeaba2cc);
    NextScheduled(63, 0x065c43da, 0xfb3e89cb, 0xef57b9cd, 0x668b2ff8, 0x12b1edeb);
  }

  // ----- The rounds

  const State0: State := State(0x6a09e667, 0xbb67ae85, 0x3c6ef372, 0xa54ff53a, 0x510e527f, 0x9b05688c, 0x1f83d9ab, 0x5be0cd19)
  const State1: State := State(0x5d6aebcd, 0x6a09e667, 0xbb67ae85, 0x3c6ef372, 0xfa2a4622, 0x510e527f, 0x9b05688c, 0x1f83d9ab)
  const State2: State := State(0x5a6ad9ad, 0x5d6aebcd, 0x6a09e667, 0xbb67ae85, 0x78ce7989, 0xfa2a4622, 0x510e527f, 0x9b05688c)
  const State3: State := State(0xc8c347a7, 0x5a6ad9ad, 0x5d6aebcd, 0x6a09e667, 0xf92939eb, 0x78ce7989, 0xfa2a4622, 0x510e527f)
  const State4: State := State(0xd550f666, 0xc8c347a7, 0x5a6ad9ad, 0x5d6aebcd, 0x24e00850, 0xf92939eb, 0x78ce7989, 0xfa2a4622)
  const State5: State := State(0x04409a6a, 0xd550f666, 0xc8c347a7, 0x5a6ad9ad, 0x43ada245, 0x24e00850, 0xf92939eb, 0x78ce7989)
  const State6: State := State(0x2b4209f5, 0x04409a6a, 0xd550f666, 0xc8c347a7, 0x714260ad, 0x43ada245, 0x24e00850, 0xf92939eb)
  const State7: State := State(0xe5030380, 0x2b4209f5, 0x04409a6a, 0xd550f666, 0x9b27a401, 0x714260ad, 0x43ada245, 0x24e00850)
  const State8: State := State(0x85a07b5f, 0xe5030380, 0x2b4209f5, 0x04409a6a, 0x0c657a79, 0x9b27a401, 0x714260ad, 0x43ada245)
  const State9: State := State(0x8e04ecb9, 0x85a07b5f, 0xe5030380, 0x2b4209f5, 0x32ca2d8c, 0x0c657a79, 0x9b27a401, 0x714260ad)
  const State10: State := State(0x8c87346b, 0x8e04ecb9, 0x85a07b5f, 0xe5030380, 0x1cc92596, 0x32ca2d8c, 0x0c657a79, 0x9b27a401)
  const State11: State := State(0x4798a3f4, 0x8c87346b, 0x8e04ecb9, 0x85a07b5f, 0x436b23e8, 0x1cc92596, 0x32ca2d8c, 0x0c657a79)
  const State12: State := State(0xf71fc5a9, 0x4798a3f4, 0x8c87346b, 0x8e04ecb9, 0x816fd6e9, 0x436b23e8, 0x1cc92596, 0x32ca2d8c)
  const State13: State := State(0x87912990, 0xf71fc5a9, 0x4798a3f4, 0x8c87346b, 0x1e578218, 0x816fd6e9, 0x436b23e8, 0x1cc92596)
  const State14: State := State(0xd932eb16, 0x87912990, 0xf71fc5a9, 0x4798a3f4, 0x745a48de, 0x1e578218, 0x816fd6e9, 0x436b23e8)
  const State15: State := State(0xc0645fde, 0xd932eb16, 0x87912990, 0xf71fc5a9, 0x0b92f20c, 0x745a48de, 0x1e578218, 0x816fd6e9)
  const State16: State := State(0xb0fa238e, 0xc0645fde, 0xd932eb16, 0x87912990, 0x07590dcd, 0x0b92f20c, 0x745a48de, 0x1e578218)
  const State17: State := State(0x21da9a9b, 0xb0fa238e, 0xc0645fde, 0xd932eb16, 0x8034229c, 0x07590dcd, 0x0b92f20c, 0x745a48de)
  const State18: State := State(0xc2fbd9d1, 0x21da9a9b, 0xb0fa238e, 0xc0645fde, 0x846ee454, 0x8034229c, 0x07590dcd, 0x0b92f20c)
  const State19: State := State(0xfe777bbf, 0xc2fbd9d1, 0x21da9a9b, 0xb0fa238e, 0xcc899961, 0x846ee454, 0x8034229c, 0x07590dcd)
  const State20: State := State(0xe1f20c33, 0xfe777bbf, 0xc2fbd9d1, 0x21da9a9b, 0xb0638179, 0xcc899961, 0x846ee454, 0x8034229c)
  const State21: State := State(0x9dc68b63, 0xe1f20c33, 0xfe777bbf, 0xc2fbd9d1, 0x8ada8930, 0xb0638179, 0xcc899961, 0x846ee454)
  const State22: State := State(0xc2606d6d, 0x9dc68b63, 0xe1f20c33, 0xfe777bbf, 0xe1257970, 0x8ada8930, 0xb0638179, 0xcc899961)
  const State23: State := State(0xa7a3623f, 0xc2606d6d, 0x9dc68b63, 0xe1f20c33, 0x49f5114a, 0xe1257970, 0x8ada8930, 0xb0638179)
  const State24: State := State(0xc5d53d8d, 0xa7a3623f, 0xc2606d6d, 0x9dc68b63, 0xaa47c347, 0x49f5114a, 0xe1257970, 0x8ada8930)
  const State25: State := State(0x1c2c2838, 0xc5d53d8d, 0xa7a3623f, 0xc2606d6d, 0x2823ef91, 0xaa47c347, 0x49f5114a, 0xe1257970)
  const State26: State := State(0xcde8037d, 0x1c2c2838, 0xc5d53d8d, 0xa7a3623f, 0x14383d8e, 0x2823ef91, 0xaa47c347, 0x49f5114a)
  const State27: State := State(0xb62ec4bc, 0xcde8037d, 0x1c2c2838, 0xc5d53d8d, 0xc74c6516, 0x14383d8e, 0x2823ef91, 0xaa47c347)
  const State28: State := State(0x77d37528, 0xb62ec4bc, 0xcde8037d, 0x1c2c2838, 0xedffbff8, 0xc74c6516, 0x14383d8e, 0x2823ef91)
  const State29: State := State(0x363482c9, 0x77d37528, 0xb62ec4bc, 0xcde8037d, 0x6112a3b7, 0xedffbff8, 0xc74c6516, 0x14383d8e)
  const State30: State := State(0xa0060b30, 0x363482c9, 0x77d37528, 0xb62ec4bc, 0xade79437, 0x6112a3b7, 0xedffbff8, 0xc74c6516)
  const State31: State := State(0xea992a22, 0xa0060b30, 0x363482c9, 0x77d37528, 0x0109ab3a, 0xade79437, 0x6112a3b7, 0xedffbff8)
  const State32: State := State(0x73b33bf5, 0xea992a22, 0xa0060b30, 0x363482c9, 0xba591112, 0x0109ab3a, 0xade79437, 0x6112a3b7)
  const State33: State := State(0x98e12507, 0x73b33bf5, 0xea992a22, 0xa0060b30, 0x9cd9f5f6, 0xba591112, 0x0109ab3a, 0xade79437)
  const State34: State := State(0xfe604df5, 0x98e12507, 0x73b33bf5, 0xea992a22, 0x59249dd3, 0x9cd9f5f6, 0xba591112, 0x0109ab3a)
  const State35: State := State(0xa9a7738c, 0xfe604df5, 0x98e12507, 0x73b33bf5, 0x085f3833, 0x59249dd3, 0x9cd9f5f6, 0xba591112)
  const State36: State := State(0x65a0cfe4, 0xa9a7738c, 0xfe604df5, 0x98e12507, 0xf4b002d6, 0x085f3833, 0x59249dd3, 0x9cd9f5f6)
  const State37: State := State(0x41a65cb1, 0x65a0cfe4, 0xa9a7738c, 0xfe604df5, 0x0772a26b, 0xf4b002d6, 0x085f3833, 0x59249dd3)
  const State38: State := State(0x34df1604, 0x41a65cb1, 0x65a0cfe4, 0xa9a7738c, 0xa507a53d, 0x0772a26b, 0xf4b002d6, 0x085f3833)
  const State39: State := State(0x6dc57a8a, 0x34df1604, 0x41a65cb1, 0x65a0cfe4, 0xf0781bc8, 0xa507a53d, 0x0772a26b, 0xf4b002d6)
  const State40: State := State(0x79ea687a, 0x6dc57a8a, 0x34df1604, 0x41a65cb1, 0x1efbc0a0, 0xf0781bc8, 0xa507a53d, 0x0772a26b)
  const State41: State := State(0xd6670766, 0x79ea687a, 0x6dc57a8a, 0x34df1604, 0x26352d63, 0x1efbc0a0, 0xf0781bc8, 0xa507a53d)
  const State42: State := State(0xdf46652f, 0xd6670766, 0x79ea687a, 0x6dc57a8a, 0x838b2711, 0x26352d63, 0x1efbc0a0, 0xf0781bc8)
  const State43: State := State(0x17aa0dfe, 0xdf46652f, 0xd6670766, 0x79ea687a, 0xdecd4715, 0x838b2711, 0x26352d63, 0x1efbc0a0)
  const State44: State := State(0x9d4baf93, 0x17aa0dfe, 0xdf46652f, 0xd6670766, 0xfda24c2e, 0xdecd4715, 0x838b2711, 0x26352d63)
  const State45: State := State(0x26628815, 0x9d4baf93, 0x17aa0dfe, 0xdf46652f, 0xa80f11f0, 0xfda24c2e, 0xdecd4715, 0x838b2711)
  const State46: State := State(0x72ab4b91, 0x26628815, 0x9d4baf93, 0x17aa0dfe, 0xb7755da1, 0xa80f11f0, 0xfda24c2e, 0xdecd4715)
  const State47: State := State(0xa14c14b0, 0x72ab4b91, 0x26628815, 0x9d4baf93, 0xd57b94a9, 0xb7755da1, 0xa80f11f0, 0xfda24c2e)
  const State48: State := State(0x4172328d, 0xa14c14b0, 0x72ab4b91, 0x26628815, 0xfecf0bc6, 0xd57b94a9, 0xb7755da1, 0xa80f11f0)
  const State49: State := State(0x05757ceb, 0x4172328d, 0xa14c14b0, 0x72ab4b91, 0xbd714038, 0xfecf0bc6, 0xd57b94a9, 0xb7755da1)
  const State50: State := State(0xf11bfaa8, 0x05757ceb, 0x4172328d, 0xa14c14b0, 0x6e5c390c, 0xbd714038, 0xfecf0bc6, 0xd57b94a9)
  const State51: State := State(0x7a0508a1, 0xf11bfaa8, 0x05757ceb, 0x4172328d, 0x52f1ccf7, 0x6e5c390c, 0xbd714038, 0xfecf0bc6)
  const State52: State := State(0x886e7a22, 0x7a0508a1, 0xf11bfaa8, 0x05757ceb, 0x49231c1e, 0x52f1ccf7, 0x6e5c390c, 0xbd714038)
  const State53: State := State(0x101fd28f, 0x886e7a22, 0x7a0508a1, 0xf11bfaa8, 0x529e7d00, 0x49231c1e, 0x52f1ccf7, 0x6e5c390c)
  const State54: State := State(0xf5702fdb, 0x101fd28f, 0x886e7a22, 0x7a0508a1, 0x9f4787c3, 0x529e7d00, 0x49231c1e, 0x52f1ccf7)
  const State55: State := State(0x3ec45cdb, 0xf5702fdb, 0x101fd28f, 0x886e7a22, 0xe50e1b4f, 0x9f4787c3, 0x529e7d00, 0x49231c1e)
  const State56: State := State(0x38cc9913, 0x3ec45cdb, 0xf5702fdb, 0x101fd28f, 0x54cb266b, 0xe50e1b4f, 0x9f4787c3, 0x529e7d00)
  const State57: State := State(0xfcd1887b, 0x38cc9913, 0x3ec45cdb, 0xf5702fdb, 0x9b5e906c, 0x54cb266b, 0xe50e1b4f, 0x9f4787c3)
  const State58: State := State(0xc062d46f, 0xfcd1887b, 0x38cc9913, 0x3ec45cdb, 0x7e44008e, 0x9b5e906c, 0x54cb266b, 0xe50e1b4f)
  const State59: State := State(0xffb70472, 0xc062d46f, 0xfcd1887b, 0x38cc9913, 0x6d83bfc6, 0x7e44008e, 0x9b5e906c, 0x54cb266b)
  const State60: State := State(0xb6ae8fff, 0xffb70472, 0xc062d46f, 0xfcd1887b, 0xb21bad3d, 0x6d83bfc6, 0x7e44008e, 0x9b5e906c)
  const State61: State := State(0xb85e2ce9, 0xb6ae8fff, 0xffb70472, 0xc062d46f, 0x961f4894, 0xb21bad3d, 0x6d83bfc6, 0x7e44008e)
  const State62: State := State(0x04d24d6c, 0xb85e2ce9, 0xb6ae8fff, 0xffb70472, 0x948d25b6, 0x961f4894, 0xb21bad3d, 0x6d83bfc6)
  const State63: State := State(0xd39a2165, 0x04d24d6c, 0xb85e2ce9, 0xb6ae8fff, 0xfb121210, 0x948d25b6, 0x961f4894, 0xb21bad3d)
  const State64: State := State(0x506e3058, 0xd39a2165, 0x04d24d6c, 0xb85e2ce9, 0x5ef50f24, 0xfb121210, 0x948d25b6, 0x961f4894)

  lemma Rounds0()
    ensures Round(State0, 0x428a2f98, 0x61626380) == State1
    ensures Round(State1, 0x71374491, 0x00000000) == State2
    ensures Round(State2, 0xb5c0fbcf, 0x00000000) == State3
    ensures Round(State3, 0xe9b5dba5, 0x00000000) == State4
  {
  }

  lemma Rounds4()
    ensures Round(State4, 0x3956c25b, 0x00000000) == State5
    ensures Round(State5, 0x59f111f1, 0x00000000) == State6
    ensures Round(State6, 0x923f82a4, 0x00000000) == State7
    ensures Round(State7, 0xab1c5ed5, 0x00000000) == State8
  {
  }

  lemma Rounds8()
    ensures Round(State8, 0xd807aa98, 0x00000000) == State9
    ensures Round(State9, 0x12835b01, 0x00000000) == State10
    ensures Round(State10, 0x243185be, 0x00000000) == State11
    ensures Round(State11, 0x550c7dc3, 0x00000000) == State12
  {
  }

  lemma Rounds12()
    ensures Round(State12, 0x72be5d74, 0x00000000) == State13
    ensures Round(State13, 0x80deb1fe, 0x00000000) == State14
    ensures Round(State14, 0x9bdc06a7, 0x00000000) == State15
    ensures Round(State15, 0xc19bf174, 0x00000018) == State16
  {
  }

  lemma Rounds16()
    ensures Round(State16, 0xe49b69c1, 0x61626380) == State17
    ensures Round(State17, 0xefbe4786, 0x000f0000) == State18
    ensures Round(State18, 0x0fc19dc6, 0x7da86405) == State19
    ensures Round(State19, 0x240ca1cc, 0x600003c6) == State20
  {
  }

  lemma Rounds20()
    ensures Round(State20, 0x2de92c6f, 0x3e9d7b78) == State21
    ensures Round(State21, 0x4a7484aa, 0x0183fc00) == State22
    ensures Round(State22, 0x5cb0a9dc, 0x12dcbfdb) == State23
    ensures Round(State23, 0x76f988da, 0xe2e2c38e) == State24
  {
  }

  lemma Rounds24()
    ensures Round(State24, 0x983e5152, 0xc8215c1a) == State25
    ensures Round(State25, 0xa831c66d, 0xb73679a2) == State26
    ensures Round(State26, 0xb00327c8, 0xe5bc3909) == State27
    ensures Round(State27, 0xbf597fc7, 0x32663c5b) == State28
  {
  }

  lemma Rounds28()
    ensures Round(State28, 0xc6e00bf3, 0x9d209d67) == State29
    ensures Round(State29, 0xd5a79147, 0xec8726cb) == State30
    ensures Round(State30, 0x06ca6351, 0x702138a4) == State31
    ensures Round(State31, 0x14292967, 0xd3b7973b) == State32
  {
  }

  lemma Rounds32()
    ensures Round(State32, 0x27b70a85, 0x93f5997f) == State33
    ensures Round(State33, 0x2e1b2138, 0x3b68ba73) == State34
    ensures Round(State34, 0x4d2c6dfc, 0xaff4ffc1) == State35
    ensures Round(State35, 0x53380d13, 0xf10a5c62) == State36
  {
  }

  lemma Rounds36()
    ensures Round(State36, 0x650a7354, 0x0a8b3996) == State37
    ensures Round(State37, 0x766a0abb, 0x72af830a) == State38
    ensures Round(State38, 0x81c2c92e, 0x9409e33e) == State39
    ensures Round(State39, 0x92722c85, 0x24641522) == State40
  {
  }

  lemma Rounds40()
    ensures Round(State40, 0xa2bfe8a1, 0x9f47bf94) == State41
    ensures Round(State41, 0xa81a664b, 0xf0a64f5a) == State42
    ensures Round(State42, 0xc24b8b70, 0x3e246a79) == State43
    ensures Round(State43, 0xc76c51a3, 0x27333ba3) == State44
  {
  }

  lemma Rounds44()
    ensures Round(State44, 0xd192e819, 0x0c4763f2) == State45
    ensures Round(State45, 0xd6990624, 0x840abf27) == State46
    ensures Round(State46, 0xf40e3585, 0x7a290d5d) == State47
    ensures Round(State47, 0x106aa070, 0x065c43da) == State48
  {
  }

  lemma Rounds48()
    ensures Round(State48, 0x19a4c116, 0xfb3e89cb) == State49
    ensures Round(State49, 0x1e376c08, 0xcc7617db) == State50
    ensures Round(State50, 0x2748774c, 0xb9e66c34) == State51
    ensures Round(State51, 0x34b0bcb5, 0xa9993667) == State52
  {
  }

  lemma Rounds52()
    ensures Round(State52, 0x391c0cb3, 0x84badedd) == State53
    ensures Round(State53, 0x4ed8aa4a, 0xc21462bc) == State54
    ensures Round(State54, 0x5b9cca4f, 0x1487472c) == State55
    ensures Round(State55, 0x682e6ff3, 0xb20f7a99) == State56
  {
  }

  lemma Rounds56()
    ensures Round(State56, 0x748f82ee, 0xef57b9cd) == State57
    ensures Round(State57, 0x78a5636f, 0xebe6b238) == State58
    ensures Round(State58, 0x84c87814, 0x9fe3095e) == State59
    ensures Round(State59, 0x8cc70208, 0x78bc8d4b) == State60
  {
  }

  lemma Rounds60()
    ensures Round(State60, 0x90befffa, 0xa43fcf15) == State61
    ensures Round(State61, 0xa4506ceb, 0x668b2ff8) == State62
    ensures Round(State62, 0xbef9a3f7, 0xeeaba2cc) == State63
    ensures Round(State63, 0xc67178f2, 0x12b1edeb) == State64
  {
  }

  lemma Advance(t: nat, s: State, k: bv32, w: bv32, r: State)
    requires t < 64 && AbcRounds(t) == s
    requires KTable(t) == k as int && AbcWord(t) == w && Round(s, k, w) == r
    ensures AbcRounds(t + 1) == r
  {
    hide AbcBlock, Round, Schedule, InitialState, KTable, WordFrom;
    WordFromWord(k);
  }

  lemma InitialWord(i: nat, w: bv32)
    requires i < 8 && HTable(i) == w as int
    ensures WordFrom(HTable(i)) == w
  {
    hide HTable, WordFrom;
    WordFromWord(w);
  }

  lemma Start()
    ensures InitialState() == State0
    ensures AbcRounds(0) == State0
  {
    hide AbcBlock, WordFrom;
    InitialWord(0, 0x6a09e667);
    InitialWord(1, 0xbb67ae85);
    InitialWord(2, 0x3c6ef372);
    InitialWord(3, 0xa54ff53a);
    InitialWord(4, 0x510e527f);
    InitialWord(5, 0x9b05688c);
    InitialWord(6, 0x1f83d9ab);
    InitialWord(7, 0x5be0cd19);
  }

  lemma WordFromWord(w: bv32)
    ensures WordFrom(w as int) == w
  {
  }

  lemma RoundsTo16()
    ensures AbcRounds(16) == State16
  {
    hide AbcWord, AbcRounds, Round;
    Start();
    Words0To15();
    Rounds0();
    Advance(0, State0, 0x428a2f98, 0x61626380, State1);
    Advance(1, State1, 0x71374491, 0x00000000, State2);
    Advance(2, State2, 0xb5c0fbcf, 0x00000000, State3);
    Advance(3, State3, 0xe9b5dba5, 0x00000000, State4);
    Rounds4();
    Advance(4, State4, 0x3956c25b, 0x00000000, State5);
    Advance(5, State5, 0x59f111f1, 0x00000000, State6);
    Advance(6, State6, 0x923f82a4, 0x00000000, State7);
    Advance(7, State7, 0xab1c5ed5, 0x00000000, State8);
    Rounds8();
    Advance(8, State8, 0xd807aa98, 0x00000000, State9);
    Advance(9, State9, 0x12835b01, 0x00000000, State10);
    Advance(10, State10, 0x243185be, 0x00000000, State11);
    Advance(11, State11, 0x550c7dc3, 0x00000000, State12);
    Rounds12();
    Advance(12, State12, 0x72be5d74, 0x00000000, State13);
    Advance(13, State13, 0x80deb1fe, 0x00000000, State14);
    Advance(14, State14, 0x9bdc06a7, 0x00000000, State15);
    Advance(15, State15, 0xc19bf174, 0x00000018, State16);
  }

  lemma RoundsTo32()
    ensures AbcRounds(32) == State32
  {
    hide AbcWord, AbcRounds, Round;
    RoundsTo16();
    Words16To31();
    Rounds16();
    Advance(16, State16, 0xe49b69c1, 0x61626380, State17);
    Advance(17, State17, 0xefbe4786, 0x000f0000, State18);
    Advance(18, State18, 0x0fc19dc6, 0x7da86405, State19);
    Advance(19, State19, 0x240ca1cc, 0x600003c6, State20);
    Rounds20();
    Advance(20, State20, 0x2de92c6f, 0x3e9d7b78, State21);
    Advance(21, State21, 0x4a7484aa, 0x0183fc00, State22);
    Advance(22, State22, 0x5cb0a9dc, 0x12dcbfdb, State23);
    Advance(23, State23, 0x76f988da, 0xe2e2c38e, State24);
    Rounds24();
    Advance(24, State24, 0x983e5152, 0xc8215c1a, State25);
    Advance(25, State25, 0xa831c66d, 0xb73679a2, State26);
    Advance(26, State26, 0xb00327c8, 0xe5bc3909, State27);
    Advance(27, State27, 0xbf597fc7, 0x32663c5b, State28);
    Rounds28();
    Advance(28, State28, 0xc6e00bf3, 0x9d209d67, State29);
    Advance(29, State29, 0xd5a79147, 0xec8726cb, State30);
    Advance(30, State30, 0x06ca6351, 0x702138a4, State31);
    Advance(31, State31, 0x14292967, 0xd3b7973b, State32);
  }

  lemma RoundsTo48()
    ensures AbcRounds(48) == State48
  {
    hide AbcWord, AbcRounds, Round;
    RoundsTo32();
    Words32To47();
    Rounds32();
    Advance(32, State32, 0x27b70a85, 0x93f5997f, State33);
    Advance(33, State33, 0x2e1b2138, 0x3b68ba73, State34);
    Advance(34, State34, 0x4d2c6dfc, 0xaff4ffc1, State35);
    Advance(35, State35, 0x53380d13, 0xf10a5c62, State36);
    Rounds36();
    Advance(36, State36, 0x650a7354, 0x0a8b3996, State37);
    Advance(37, State37, 0x766a0abb, 0x72af830a, State38);
    Advance(38, State38, 0x81c2c92e, 0x9409e33e, State39);
    Advance(39, State39, 0x92722c85, 0x24641522, State40);
    Rounds40();
    Advance(40, State40, 0xa2bfe8a1, 0x9f47bf94, State41);
    Advance(41, State41, 0xa81a664b, 0xf0a64f5a, State42);
    Advance(42, State42, 0xc24b8b70, 0x3e246a79, State43);
    Advance(43, State43, 0xc76c51a3, 0x27333ba3, State44);
    Rounds44();
    Advance(44, State44, 0xd192e819, 0x0c4763f2, State45);
    Advance(45, State45, 0xd6990624, 0x840abf27, State46);
    Advance(46, State46, 0xf40e3585, 0x7a290d5d, State47);
    Advance(47, State47, 0x106aa070, 0x065c43da, State48);
  }

  lemma RoundsTo64()
    ensures AbcRounds(64) == State64
  {
    hide AbcWord, AbcRounds, Round;
    RoundsTo48();
    Words48To63();
    Rounds48();
    Advance(48, State48, 0x19a4c116, 0xfb3e89cb, State49);
    Advance(49, State49, 0x1e376c08, 0xcc7617db, State50);
    Advance(50, State50, 0x2748774c, 0xb9e66c34, State51);
    Advance(51, State51, 0x34b0bcb5, 0xa9993667, State52);
    Rounds52();
    Advance(52, State52, 0x391c0cb3, 0x84badedd, State53);
    Advance(53, State53, 0x4ed8aa4a, 0xc21462bc, State54);
    Advance(54, State54, 0x5b9cca4f, 0x1487472c, State55);
    Advance(55, State55, 0x682e6ff3, 0xb20f7a99, State56);
    Rounds56();
    Advance(56, State56, 0x748f82ee, 0xef57b9cd, State57);
    Advance(57, State57, 0x78a5636f, 0xebe6b238, State58);
    Advance(58, State58, 0x84c87814, 0x9fe3095e, State59);
    Advance(59, State59, 0x8cc70208, 0x78bc8d4b, State60);
    Rounds60();
    Advance(60, State60, 0x90befffa, 0xa43fcf15, State61);
    Advance(61, State61, 0xa4506ceb, 0x668b2ff8, State62);
    Advance(62, State62, 0xbef9a3f7, 0xeeaba2cc, State63);
    Advance(63, State63, 0xc67178f2, 0x12b1edeb, State64);
  }

  // ----- The digest

  const AbcState: State := State(0xba7816bf, 0x8f01cfea, 0x414140de, 0x5dae2223, 0xb00361a3, 0x96177a9c, 0xb410ff61, 0xf20015ad)

  const AbcDigest: Bytes := [0xba, 0x78, 0x16, 0xbf, 0x8f, 0x01, 0xcf, 0xea,
                             0x41, 0x41, 0x40, 0xde, 0x5d, 0xae, 0x22, 0x23,
                             0xb0, 0x03, 0x61, 0xa3, 0x96, 0x17, 0x7a, 0x9c,
                             0xb4, 0x10, 0xff, 0x61, 0xf2, 0x00, 0x15, 0xad]

  lemma FinalAdditions() ensures AddStates(State0, State64) == AbcState {}

  lemma BytesFromWord(w: bv32, b0: bv8, b1: bv8, b2: bv8, b3: bv8)
    requires w == WordOf(b0, b1, b2, b3)
    ensures WordBytes(w) == [b0, b1, b2, b3]
  {
    hide WordOf, WordByte;
    BytesOfWord(b0, b1, b2, b3);
  }

  lemma DigestWord0() ensures WordOf(0xba, 0x78, 0x16, 0xbf) == 0xba7816bf {}
  lemma DigestWord1() ensures WordOf(0x8f, 0x01, 0xcf, 0xea) == 0x8f01cfea {}
  lemma DigestWord2() ensures WordOf(0x41, 0x41, 0x40, 0xde) == 0x414140de {}
  lemma DigestWord3() ensures WordOf(0x5d, 0xae, 0x22, 0x23) == 0x5dae2223 {}
  lemma DigestWord4() ensures WordOf(0xb0, 0x03, 0x61, 0xa3) == 0xb00361a3 {}
  lemma DigestWord5() ensures WordOf(0x96, 0x17, 0x7a, 0x9c) == 0x96177a9c {}
  lemma DigestWord6() ensures WordOf(0xb4, 0x10, 0xff, 0x61) == 0xb410ff61 {}
  lemma DigestWord7() ensures WordOf(0xf2, 0x00, 0x15, 0xad) == 0xf20015ad {}

  lemma DigestOfState()
    ensures Digest(AbcState) == AbcDigest
  {
    hide WordBytes, WordOf;
    DigestWord0();
    DigestWord1();
    DigestWord2();
    DigestWord3();
    DigestWord4();
    DigestWord5();
    DigestWord6();
    DigestWord7();
    BytesFromWord(0xba7816bf, 0xba, 0x78, 0x16, 0xbf);
    BytesFromWord(0x8f01cfea, 0x8f, 0x01, 0xcf, 0xea);
    BytesFromWord(0x414140de, 0x41, 0x41, 0x40, 0xde);
    BytesFromWord(0x5dae2223, 0x5d, 0xae, 0x22, 0x23);
    BytesFromWord(0xb00361a3, 0xb0, 0x03, 0x61, 0xa3);
    BytesFromWord(0x96177a9c, 0x96, 0x17, 0x7a, 0x9c);
    BytesFromWord(0xb410ff61, 0xb4, 0x10, 0xff, 0x61);
    BytesFromWord(0xf20015ad, 0xf2, 0x00, 0x15, 0xad);
  }

  lemma AbcPadded()
    ensures Padded(Abc) == AbcBlock()
  {
    hide BE64;
  }

  /** The SHA-256 digest of "abc". */
  lemma AbcExample()
    ensures Hash(Abc) == AbcDigest
  {
    hide AbcBlock, Padded, Rounds, AddStates, Digest, InitialState;
    AbcPadded();
    PaddedLength(Abc);
    assert AbcBlock()[0..64] == AbcBlock();
    assert Hashed(AbcBlock(), 1) == Compressed(Hashed(AbcBlock(), 0), AbcBlock());
    Start();
    RoundsTo64();
    FinalAdditions();
    DigestOfState();
  }
}
