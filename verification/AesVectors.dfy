/** Appendix C.1 and C.3 of FIPS 197: the example vectors for 128- and 256-bit keys, round by round. */
module AesVectors {
  import opened Aes
  import opened AesBytes
  import opened AesTables
  import opened Bytes

  const Plaintext: Block := [0x00, 0x11, 0x22, 0x33, 0x44, 0x55, 0x66, 0x77, 0x88, 0x99, 0xaa, 0xbb, 0xcc, 0xdd, 0xee, 0xff]

  lemma RoundRconIs(nk: nat, round: nat)
    requires nk == 4 || nk == 8
    requires 4 * round >= nk && 4 * round % nk == 0 && 4 * round / nk <= 10
    ensures RoundRcon(nk, round) == Rcon(4 * round / nk)
  {
    hide Rcon, XPower;
    RconIsPower(4 * round / nk);
  }

  // ----- Appendix C.1: a 128-bit key

  // The round keys, the states after each key addition and those states substituted.
  const ShortKey0: Block := [0x00, 0x01, 0x02, 0x03, 0x04, 0x05, 0x06, 0x07, 0x08, 0x09, 0x0a, 0x0b, 0x0c, 0x0d, 0x0e, 0x0f]
  const ShortKey1: Block := [0xd6, 0xaa, 0x74, 0xfd, 0xd2, 0xaf, 0x72, 0xfa, 0xda, 0xa6, 0x78, 0xf1, 0xd6, 0xab, 0x76, 0xfe]
  const ShortKey2: Block := [0xb6, 0x92, 0xcf, 0x0b, 0x64, 0x3d, 0xbd, 0xf1, 0xbe, 0x9b, 0xc5, 0x00, 0x68, 0x30, 0xb3, 0xfe]
  const ShortKey3: Block := [0xb6, 0xff, 0x74, 0x4e, 0xd2, 0xc2, 0xc9, 0xbf, 0x6c, 0x59, 0x0c, 0xbf, 0x04, 0x69, 0xbf, 0x41]
  const ShortKey4: Block := [0x47, 0xf7, 0xf7, 0xbc, 0x95, 0x35, 0x3e, 0x03, 0xf9, 0x6c, 0x32, 0xbc, 0xfd, 0x05, 0x8d, 0xfd]
  const ShortKey5: Block := [0x3c, 0xaa, 0xa3, 0xe8, 0xa9, 0x9f, 0x9d, 0xeb, 0x50, 0xf3, 0xaf, 0x57, 0xad, 0xf6, 0x22, 0xaa]
  const ShortKey6: Block := [0x5e, 0x39, 0x0f, 0x7d, 0xf7, 0xa6, 0x92, 0x96, 0xa7, 0x55, 0x3d, 0xc1, 0x0a, 0xa3, 0x1f, 0x6b]
  const ShortKey7: Block := [0x14, 0xf9, 0x70, 0x1a, 0xe3, 0x5f, 0xe2, 0x8c, 0x44, 0x0a, 0xdf, 0x4d, 0x4e, 0xa9, 0xc0, 0x26]
  const ShortKey8: Block := [0x47, 0x43, 0x87, 0x35, 0xa4, 0x1c, 0x65, 0xb9, 0xe0, 0x16, 0xba, 0xf4, 0xae, 0xbf, 0x7a, 0xd2]
  const ShortKey9: Block := [0x54, 0x99, 0x32, 0xd1, 0xf0, 0x85, 0x57, 0x68, 0x10, 0x93, 0xed, 0x9c, 0xbe, 0x2c, 0x97, 0x4e]
  const ShortKey10: Block := [0x13, 0x11, 0x1d, 0x7f, 0xe3, 0x94, 0x4a, 0x17, 0xf3, 0x07, 0xa7, 0x8b, 0x4d, 0x2b, 0x30, 0xc5]

  const ShortState0: Block := [0x00, 0x10, 0x20, 0x30, 0x40, 0x50, 0x60, 0x70, 0x80, 0x90, 0xa0, 0xb0, 0xc0, 0xd0, 0xe0, 0xf0]
  const ShortState1: Block := [0x89, 0xd8, 0x10, 0xe8, 0x85, 0x5a, 0xce, 0x68, 0x2d, 0x18, 0x43, 0xd8, 0xcb, 0x12, 0x8f, 0xe4]
  const ShortState2: Block := [0x49, 0x15, 0x59, 0x8f, 0x55, 0xe5, 0xd7, 0xa0, 0xda, 0xca, 0x94, 0xfa, 0x1f, 0x0a, 0x63, 0xf7]
  const ShortState3: Block := [0xfa, 0x63, 0x6a, 0x28, 0x25, 0xb3, 0x39, 0xc9, 0x40, 0x66, 0x8a, 0x31, 0x57, 0x24, 0x4d, 0x17]
  const ShortState4: Block := [0x24, 0x72, 0x40, 0x23, 0x69, 0x66, 0xb3, 0xfa, 0x6e, 0xd2, 0x75, 0x32, 0x88, 0x42, 0x5b, 0x6c]
  const ShortState5: Block := [0xc8, 0x16, 0x77, 0xbc, 0x9b, 0x7a, 0xc9, 0x3b, 0x25, 0x02, 0x79, 0x92, 0xb0, 0x26, 0x19, 0x96]
  const ShortState6: Block := [0xc6, 0x2f, 0xe1, 0x09, 0xf7, 0x5e, 0xed, 0xc3, 0xcc, 0x79, 0x39, 0x5d, 0x84, 0xf9, 0xcf, 0x5d]
  const ShortState7: Block := [0xd1, 0x87, 0x6c, 0x0f, 0x79, 0xc4, 0x30, 0x0a, 0xb4, 0x55, 0x94, 0xad, 0xd6, 0x6f, 0xf4, 0x1f]
  const ShortState8: Block := [0xfd, 0xe3, 0xba, 0xd2, 0x05, 0xe5, 0xd0, 0xd7, 0x35, 0x47, 0x96, 0x4e, 0xf1, 0xfe, 0x37, 0xf1]
  const ShortState9: Block := [0xbd, 0x6e, 0x7c, 0x3d, 0xf2, 0xb5, 0x77, 0x9e, 0x0b, 0x61, 0x21, 0x6e, 0x8b, 0x10, 0xb6, 0x89]
  const ShortState10: Block := [0x69, 0xc4, 0xe0, 0xd8, 0x6a, 0x7b, 0x04, 0x30, 0xd8, 0xcd, 0xb7, 0x80, 0x70, 0xb4, 0xc5, 0x5a]

  const ShortSub0: Block := [0x63, 0x53, 0xe0, 0x8c, 0x09, 0x60, 0xe1, 0x04, 0xcd, 0x70, 0xb7, 0x51, 0xba, 0xca, 0xd0, 0xe7]
  const ShortSub1: Block := [0xa7, 0xbe, 0x1a, 0x69, 0x97, 0xad, 0x73, 0x9b, 0xd8, 0xc9, 0xca, 0x45, 0x1f, 0x61, 0x8b, 0x61]
  const ShortSub2: Block := [0x3b, 0xd9, 0x22, 0x68, 0xfc, 0x74, 0xfb, 0x73, 0x57, 0x67, 0xcb, 0xe0, 0xc0, 0x59, 0x0e, 0x2d]
  const ShortSub3: Block := [0x2d, 0x6d, 0x7e, 0xf0, 0x3f, 0x33, 0xe3, 0x34, 0x09, 0x36, 0x02, 0xdd, 0x5b, 0xfb, 0x12, 0xc7]
  const ShortSub4: Block := [0x36, 0x33, 0x9d, 0x50, 0xf9, 0xb5, 0x39, 0x26, 0x9f, 0x2c, 0x09, 0x2d, 0xc4, 0x40, 0x6d, 0x23]
  const ShortSub5: Block := [0xe8, 0xda, 0xb6, 0x90, 0x14, 0x77, 0xd4, 0x65, 0x3f, 0xf7, 0xf5, 0xe2, 0xe7, 0x47, 0xdd, 0x4f]
  const ShortSub6: Block := [0xb4, 0x58, 0x12, 0x4c, 0x68, 0xb6, 0x8a, 0x01, 0x4b, 0x99, 0xf8, 0x2e, 0x5f, 0x15, 0x55, 0x4c]
  const ShortSub7: Block := [0x3e, 0x1c, 0x22, 0xc0, 0xb6, 0xfc, 0xbf, 0x76, 0x8d, 0xa8, 0x50, 0x67, 0xf6, 0x17, 0x04, 0x95]
  const ShortSub8: Block := [0x54, 0xd9, 0x90, 0xa1, 0x6b, 0xa0, 0x9a, 0xb5, 0x96, 0xbb, 0xf4, 0x0e, 0xa1, 0x11, 0x70, 0x2f]
  const ShortSub9: Block := [0x7a, 0xd5, 0xfd, 0xa7, 0x89, 0xef, 0x4e, 0x27, 0x2b, 0xca, 0x10, 0x0b, 0x3d, 0x9f, 0xf5, 0x9f]

  const ShortKey: Bytes := ShortKey0

  lemma ShortGiven()
    ensures KeyBlock(ShortKey, 4, 0) == ShortKey0
  {
    hide KeyBlock;
    GivenKeyBlock(ShortKey, 4, 0);
  }

  lemma ShortStart() ensures KeyedBytes(Plaintext, ShortKey0) == ShortState0 {}

  lemma ShortBoxes0() ensures Boxed(ShortState0) == ShortSub0 {}
  lemma ShortBoxes1() ensures Boxed(ShortState1) == ShortSub1 {}
  lemma ShortBoxes2() ensures Boxed(ShortState2) == ShortSub2 {}
  lemma ShortBoxes3() ensures Boxed(ShortState3) == ShortSub3 {}
  lemma ShortBoxes4() ensures Boxed(ShortState4) == ShortSub4 {}
  lemma ShortBoxes5() ensures Boxed(ShortState5) == ShortSub5 {}
  lemma ShortBoxes6() ensures Boxed(ShortState6) == ShortSub6 {}
  lemma ShortBoxes7() ensures Boxed(ShortState7) == ShortSub7 {}
  lemma ShortBoxes8() ensures Boxed(ShortState8) == ShortSub8 {}
  lemma ShortBoxes9() ensures Boxed(ShortState9) == ShortSub9 {}

  lemma ShortRound1() ensures Rounded(ShortSub0, ShortKey1) == ShortState1 {}
  lemma ShortRound2() ensures Rounded(ShortSub1, ShortKey2) == ShortState2 {}
  lemma ShortRound3() ensures Rounded(ShortSub2, ShortKey3) == ShortState3 {}
  lemma ShortRound4() ensures Rounded(ShortSub3, ShortKey4) == ShortState4 {}
  lemma ShortRound5() ensures Rounded(ShortSub4, ShortKey5) == ShortState5 {}
  lemma ShortRound6() ensures Rounded(ShortSub5, ShortKey6) == ShortState6 {}
  lemma ShortRound7() ensures Rounded(ShortSub6, ShortKey7) == ShortState7 {}
  lemma ShortRound8() ensures Rounded(ShortSub7, ShortKey8) == ShortState8 {}
  lemma ShortRound9() ensures Rounded(ShortSub8, ShortKey9) == ShortState9 {}
  lemma ShortRound10() ensures KeyedBytes(ShortSub9, ShortKey10) == ShortState10 {}

  lemma ShortKeyStep1() ensures KeyNext(ShortKey0, ShortKey0, true, Rcon(1)) == ShortKey1 {}
  lemma ShortKeyStep2() ensures KeyNext(ShortKey1, ShortKey1, true, Rcon(2)) == ShortKey2 {}
  lemma ShortKeyStep3() ensures KeyNext(ShortKey2, ShortKey2, true, Rcon(3)) == ShortKey3 {}
  lemma ShortKeyStep4() ensures KeyNext(ShortKey3, ShortKey3, true, Rcon(4)) == ShortKey4 {}
  lemma ShortKeyStep5() ensures KeyNext(ShortKey4, ShortKey4, true, Rcon(5)) == ShortKey5 {}
  lemma ShortKeyStep6() ensures KeyNext(ShortKey5, ShortKey5, true, Rcon(6)) == ShortKey6 {}
  lemma ShortKeyStep7() ensures KeyNext(ShortKey6, ShortKey6, true, Rcon(7)) == ShortKey7 {}
  lemma ShortKeyStep8() ensures KeyNext(ShortKey7, ShortKey7, true, Rcon(8)) == ShortKey8 {}
  lemma ShortKeyStep9() ensures KeyNext(ShortKey8, ShortKey8, true, Rcon(9)) == ShortKey9 {}
  lemma ShortKeyStep10() ensures KeyNext(ShortKey9, ShortKey9, true, Rcon(10)) == ShortKey10 {}

  lemma ShortKeys()
    ensures KeyBlock(ShortKey, 4, 0) == ShortKey0
    ensures KeyBlock(ShortKey, 4, 1) == ShortKey1
    ensures KeyBlock(ShortKey, 4, 2) == ShortKey2
    ensures KeyBlock(ShortKey, 4, 3) == ShortKey3
    ensures KeyBlock(ShortKey, 4, 4) == ShortKey4
    ensures KeyBlock(ShortKey, 4, 5) == ShortKey5
    ensures KeyBlock(ShortKey, 4, 6) == ShortKey6
    ensures KeyBlock(ShortKey, 4, 7) == ShortKey7
    ensures KeyBlock(ShortKey, 4, 8) == ShortKey8
    ensures KeyBlock(ShortKey, 4, 9) == ShortKey9
    ensures KeyBlock(ShortKey, 4, 10) == ShortKey10
  {
    hide KeyBlock, KeyNext, RoundRcon, Rcon;
    ShortGiven();
    KeyBlockStep(ShortKey, 4, 1);
    ShortKeyStep1();
    RoundRconIs(4, 1);
    KeyBlockStep(ShortKey, 4, 2);
    ShortKeyStep2();
    RoundRconIs(4, 2);
    KeyBlockStep(ShortKey, 4, 3);
    ShortKeyStep3();
    RoundRconIs(4, 3);
    KeyBlockStep(ShortKey, 4, 4);
    ShortKeyStep4();
    RoundRconIs(4, 4);
    KeyBlockStep(ShortKey, 4, 5);
    ShortKeyStep5();
    RoundRconIs(4, 5);
    KeyBlockStep(ShortKey, 4, 6);
    ShortKeyStep6();
    RoundRconIs(4, 6);
    KeyBlockStep(ShortKey, 4, 7);
    ShortKeyStep7();
    RoundRconIs(4, 7);
    KeyBlockStep(ShortKey, 4, 8);
    ShortKeyStep8();
    RoundRconIs(4, 8);
    KeyBlockStep(ShortKey, 4, 9);
    ShortKeyStep9();
    RoundRconIs(4, 9);
    KeyBlockStep(ShortKey, 4, 10);
    ShortKeyStep10();
    RoundRconIs(4, 10);
  }

  /** The state after each round of the example, and its ciphertext. */
  lemma ShortExample()
    ensures Encrypted(KeyCipher(ShortKey), Plaintext) == ShortState10
  {
    hide KeyBlock, KeySchedule, AfterRounds, Encrypted, Rounded, KeyedBytes, Boxed;
    var c := KeySchedule(ShortKey, 4);
    ShortKeys();
    FirstState(ShortKey, 4, Plaintext);
    ShortStart();
    NextState(ShortKey, 4, Plaintext, 1);
    ShortBoxes0();
    ShortRound1();
    NextState(ShortKey, 4, Plaintext, 2);
    ShortBoxes1();
    ShortRound2();
    NextState(ShortKey, 4, Plaintext, 3);
    ShortBoxes2();
    ShortRound3();
    NextState(ShortKey, 4, Plaintext, 4);
    ShortBoxes3();
    ShortRound4();
    NextState(ShortKey, 4, Plaintext, 5);
    ShortBoxes4();
    ShortRound5();
    NextState(ShortKey, 4, Plaintext, 6);
    ShortBoxes5();
    ShortRound6();
    NextState(ShortKey, 4, Plaintext, 7);
    ShortBoxes6();
    ShortRound7();
    NextState(ShortKey, 4, Plaintext, 8);
    ShortBoxes7();
    ShortRound8();
    NextState(ShortKey, 4, Plaintext, 9);
    ShortBoxes8();
    ShortRound9();
    LastState(ShortKey, 4, Plaintext);
    ShortBoxes9();
    ShortRound10();
  }

  // ----- Appendix C.3: a 256-bit key

  // The round keys, the states after each key addition and those states substituted.
  const LongKey0: Block := [0x00, 0x01, 0x02, 0x03, 0x04, 0x05, 0x06, 0x07, 0x08, 0x09, 0x0a, 0x0b, 0x0c, 0x0d, 0x0e, 0x0f]
  const LongKey1: Block := [0x10, 0x11, 0x12, 0x13, 0x14, 0x15, 0x16, 0x17, 0x18, 0x19, 0x1a, 0x1b, 0x1c, 0x1d, 0x1e, 0x1f]
  const LongKey2: Block := [0xa5, 0x73, 0xc2, 0x9f, 0xa1, 0x76, 0xc4, 0x98, 0xa9, 0x7f, 0xce, 0x93, 0xa5, 0x72, 0xc0, 0x9c]
  const LongKey3: Block := [0x16, 0x51, 0xa8, 0xcd, 0x02, 0x44, 0xbe, 0xda, 0x1a, 0x5d, 0xa4, 0xc1, 0x06, 0x40, 0xba, 0xde]
  const LongKey4: Block := [0xae, 0x87, 0xdf, 0xf0, 0x0f, 0xf1, 0x1b, 0x68, 0xa6, 0x8e, 0xd5, 0xfb, 0x03, 0xfc, 0x15, 0x67]
  const LongKey5: Block := [0x6d, 0xe1, 0xf1, 0x48, 0x6f, 0xa5, 0x4f, 0x92, 0x75, 0xf8, 0xeb, 0x53, 0x73, 0xb8, 0x51, 0x8d]
  const LongKey6: Block := [0xc6, 0x56, 0x82, 0x7f, 0xc9, 0xa7, 0x99, 0x17, 0x6f, 0x29, 0x4c, 0xec, 0x6c, 0xd5, 0x59, 0x8b]
  const LongKey7: Block := [0x3d, 0xe2, 0x3a, 0x75, 0x52, 0x47, 0x75, 0xe7, 0x27, 0xbf, 0x9e, 0xb4, 0x54, 0x07, 0xcf, 0x39]
  const LongKey8: Block := [0x0b, 0xdc, 0x90, 0x5f, 0xc2, 0x7b, 0x09, 0x48, 0xad, 0x52, 0x45, 0xa4, 0xc1, 0x87, 0x1c, 0x2f]
  const LongKey9: Block := [0x45, 0xf5, 0xa6, 0x60, 0x17, 0xb2, 0xd3, 0x87, 0x30, 0x0d, 0x4d, 0x33, 0x64, 0x0a, 0x82, 0x0a]
  const LongKey10: Block := [0x7c, 0xcf, 0xf7, 0x1c, 0xbe, 0xb4, 0xfe, 0x54, 0x13, 0xe6, 0xbb, 0xf0, 0xd2, 0x61, 0xa7, 0xdf]
  const LongKey11: Block := [0xf0, 0x1a, 0xfa, 0xfe, 0xe7, 0xa8, 0x29, 0x79, 0xd7, 0xa5, 0x64, 0x4a, 0xb3, 0xaf, 0xe6, 0x40]
  const LongKey12: Block := [0x25, 0x41, 0xfe, 0x71, 0x9b, 0xf5, 0x00, 0x25, 0x88, 0x13, 0xbb, 0xd5, 0x5a, 0x72, 0x1c, 0x0a]
  const LongKey13: Block := [0x4e, 0x5a, 0x66, 0x99, 0xa9, 0xf2, 0x4f, 0xe0, 0x7e, 0x57, 0x2b, 0xaa, 0xcd, 0xf8, 0xcd, 0xea]
  const LongKey14: Block := [0x24, 0xfc, 0x79, 0xcc, 0xbf, 0x09, 0x79, 0xe9, 0x37, 0x1a, 0xc2, 0x3c, 0x6d, 0x68, 0xde, 0x36]

  const LongState0: Block := [0x00, 0x10, 0x20, 0x30, 0x40, 0x50, 0x60, 0x70, 0x80, 0x90, 0xa0, 0xb0, 0xc0, 0xd0, 0xe0, 0xf0]
  const LongState1: Block := [0x4f, 0x63, 0x76, 0x06, 0x43, 0xe0, 0xaa, 0x85, 0xef, 0xa7, 0x21, 0x32, 0x01, 0xa4, 0xe7, 0x05]
  const LongState2: Block := [0x18, 0x59, 0xfb, 0xc2, 0x8a, 0x1c, 0x00, 0xa0, 0x78, 0xed, 0x8a, 0xad, 0xc4, 0x2f, 0x61, 0x09]
  const LongState3: Block := [0x97, 0x5c, 0x66, 0xc1, 0xcb, 0x9f, 0x3f, 0xa8, 0xa9, 0x3a, 0x28, 0xdf, 0x8e, 0xe1, 0x0f, 0x63]
  const LongState4: Block := [0x1c, 0x05, 0xf2, 0x71, 0xa4, 0x17, 0xe0, 0x4f, 0xf9, 0x21, 0xc5, 0xc1, 0x04, 0x70, 0x15, 0x54]
  const LongState5: Block := [0xc3, 0x57, 0xaa, 0xe1, 0x1b, 0x45, 0xb7, 0xb0, 0xa2, 0xc7, 0xbd, 0x28, 0xa8, 0xdc, 0x99, 0xfa]
  const LongState6: Block := [0x7f, 0x07, 0x41, 0x43, 0xcb, 0x4e, 0x24, 0x3e, 0xc1, 0x0c, 0x81, 0x5d, 0x83, 0x75, 0xd5, 0x4c]
  const LongState7: Block := [0xd6, 0x53, 0xa4, 0x69, 0x6c, 0xa0, 0xbc, 0x0f, 0x5a, 0xca, 0xab, 0x5d, 0xb9, 0x6c, 0x5e, 0x7d]
  const LongState8: Block := [0x5a, 0xa8, 0x58, 0x39, 0x5f, 0xd2, 0x8d, 0x7d, 0x05, 0xe1, 0xa3, 0x88, 0x68, 0xf3, 0xb9, 0xc5]
  const LongState9: Block := [0x4a, 0x82, 0x48, 0x51, 0xc5, 0x7e, 0x7e, 0x47, 0x64, 0x3d, 0xe5, 0x0c, 0x2a, 0xf3, 0xe8, 0xc9]
  const LongState10: Block := [0xc1, 0x49, 0x07, 0xf6, 0xca, 0x3b, 0x3a, 0xa0, 0x70, 0xe9, 0xaa, 0x31, 0x3b, 0x52, 0xb5, 0xec]
  const LongState11: Block := [0x5f, 0x9c, 0x6a, 0xbf, 0xba, 0xc6, 0x34, 0xaa, 0x50, 0x40, 0x9f, 0xa7, 0x66, 0x67, 0x76, 0x53]
  const LongState12: Block := [0x51, 0x66, 0x04, 0x95, 0x43, 0x53, 0x95, 0x03, 0x14, 0xfb, 0x86, 0xe4, 0x01, 0x92, 0x25, 0x21]
  const LongState13: Block := [0x62, 0x7b, 0xce, 0xb9, 0x99, 0x9d, 0x5a, 0xaa, 0xc9, 0x45, 0xec, 0xf4, 0x23, 0xf5, 0x6d, 0xa5]
  const LongState14: Block := [0x8e, 0xa2, 0xb7, 0xca, 0x51, 0x67, 0x45, 0xbf, 0xea, 0xfc, 0x49, 0x90, 0x4b, 0x49, 0x60, 0x89]

  const LongSub0: Block := [0x63, 0x53, 0xe0, 0x8c, 0x09, 0x60, 0xe1, 0x04, 0xcd, 0x70, 0xb7, 0x51, 0xba, 0xca, 0xd0, 0xe7]
  const LongSub1: Block := [0x84, 0xe1, 0xfd, 0x6b, 0x1a, 0x5c, 0x94, 0x6f, 0xdf, 0x49, 0x38, 0x97, 0x7c, 0xfb, 0xac, 0x23]
  const LongSub2: Block := [0xad, 0x9c, 0x7e, 0x01, 0x7e, 0x55, 0xef, 0x25, 0xbc, 0x15, 0x0f, 0xe0, 0x1c, 0xcb, 0x63, 0x95]
  const LongSub3: Block := [0x88, 0xdb, 0x34, 0xfb, 0x1f, 0x80, 0x76, 0x78, 0xd3, 0xf8, 0x33, 0xc2, 0x19, 0x4a, 0x75, 0x9e]
  const LongSub4: Block := [0x9c, 0xf0, 0xa6, 0x20, 0x49, 0xfd, 0x59, 0xa3, 0x99, 0x51, 0x89, 0x84, 0xf2, 0x6b, 0xe1, 0x78]
  const LongSub5: Block := [0x2e, 0x6e, 0x7a, 0x2d, 0xaf, 0xc6, 0xee, 0xf8, 0x3a, 0x86, 0xac, 0xe7, 0xc2, 0x5b, 0xa9, 0x34]
  const LongSub6: Block := [0xd2, 0x2f, 0x0c, 0x29, 0x1f, 0xfe, 0x03, 0x1a, 0x78, 0x9d, 0x83, 0xb2, 0xec, 0xc5, 0x36, 0x4c]
  const LongSub7: Block := [0xf6, 0xe0, 0x62, 0xff, 0x50, 0x74, 0x58, 0xf9, 0xbe, 0x50, 0x49, 0x76, 0x56, 0xed, 0x65, 0x4c]
  const LongSub8: Block := [0xbe, 0xb5, 0x0a, 0xa6, 0xcf, 0xf8, 0x56, 0x12, 0x6b, 0x0d, 0x6a, 0xff, 0x45, 0xc2, 0x5d, 0xc4]
  const LongSub9: Block := [0xd6, 0xf3, 0xd9, 0xdd, 0xa6, 0x27, 0x9b, 0xd1, 0x43, 0x0d, 0x52, 0xa0, 0xe5, 0x13, 0xf3, 0xfe]
  const LongSub10: Block := [0x78, 0xe2, 0xac, 0xce, 0x74, 0x1e, 0xd5, 0x42, 0x51, 0x00, 0xc5, 0xe0, 0xe2, 0x3b, 0x80, 0xc7]
  const LongSub11: Block := [0xcf, 0xb4, 0xdb, 0xed, 0xf4, 0x09, 0x38, 0x08, 0x53, 0x85, 0x02, 0xac, 0x33, 0xde, 0x18, 0x5c]
  const LongSub12: Block := [0xd1, 0xed, 0x44, 0xfd, 0x1a, 0x0f, 0x3f, 0x2a, 0xfa, 0x4f, 0xf2, 0x7b, 0x7c, 0x33, 0x2a, 0x69]
  const LongSub13: Block := [0xaa, 0x5e, 0xce, 0x06, 0xee, 0x6e, 0x3c, 0x56, 0xdd, 0xe6, 0x8b, 0xac, 0x26, 0x21, 0xbe, 0xbf]

  const LongKey: Bytes := LongKey0 + LongKey1

  lemma LongGiven()
    ensures KeyBlock(LongKey, 8, 0) == LongKey0
    ensures KeyBlock(LongKey, 8, 1) == LongKey1
  {
    hide KeyBlock;
    GivenKeyBlock(LongKey, 8, 0);
    GivenKeyBlock(LongKey, 8, 1);
  }

  lemma LongStart() ensures KeyedBytes(Plaintext, LongKey0) == LongState0 {}

  lemma LongBoxes0() ensures Boxed(LongState0) == LongSub0 {}
  lemma LongBoxes1() ensures Boxed(LongState1) == LongSub1 {}
  lemma LongBoxes2() ensures Boxed(LongState2) == LongSub2 {}
  lemma LongBoxes3() ensures Boxed(LongState3) == LongSub3 {}
  lemma LongBoxes4() ensures Boxed(LongState4) == LongSub4 {}
  lemma LongBoxes5() ensures Boxed(LongState5) == LongSub5 {}
  lemma LongBoxes6() ensures Boxed(LongState6) == LongSub6 {}
  lemma LongBoxes7() ensures Boxed(LongState7) == LongSub7 {}
  lemma LongBoxes8() ensures Boxed(LongState8) == LongSub8 {}
  lemma LongBoxes9() ensures Boxed(LongState9) == LongSub9 {}
  lemma LongBoxes10() ensures Boxed(LongState10) == LongSub10 {}
  lemma LongBoxes11() ensures Boxed(LongState11) == LongSub11 {}
  lemma LongBoxes12() ensures Boxed(LongState12) == LongSub12 {}
  lemma LongBoxes13() ensures Boxed(LongState13) == LongSub13 {}

  lemma LongRound1() ensures Rounded(LongSub0, LongKey1) == LongState1 {}
  lemma LongRound2() ensures Rounded(LongSub1, LongKey2) == LongState2 {}
  lemma LongRound3() ensures Rounded(LongSub2, LongKey3) == LongState3 {}
  lemma LongRound4() ensures Rounded(LongSub3, LongKey4) == LongState4 {}
  lemma LongRound5() ensures Rounded(LongSub4, LongKey5) == LongState5 {}
  lemma LongRound6() ensures Rounded(LongSub5, LongKey6) == LongState6 {}
  lemma LongRound7() ensures Rounded(LongSub6, LongKey7) == LongState7 {}
  lemma LongRound8() ensures Rounded(LongSub7, LongKey8) == LongState8 {}
  lemma LongRound9() ensures Rounded(LongSub8, LongKey9) == LongState9 {}
  lemma LongRound10() ensures Rounded(LongSub9, LongKey10) == LongState10 {}
  lemma LongRound11() ensures Rounded(LongSub10, LongKey11) == LongState11 {}
  lemma LongRound12() ensures Rounded(LongSub11, LongKey12) == LongState12 {}
  lemma LongRound13() ensures Rounded(LongSub12, LongKey13) == LongState13 {}
  lemma LongRound14() ensures KeyedBytes(LongSub13, LongKey14) == LongState14 {}

  lemma LongKeyStep2() ensures KeyNext(LongKey0, LongKey1, true, Rcon(1)) == LongKey2 {}
  lemma LongKeyStep3() ensures KeyNext(LongKey1, LongKey2, false, 0) == LongKey3 {}
  lemma LongKeyStep4() ensures KeyNext(LongKey2, LongKey3, true, Rcon(2)) == LongKey4 {}
  lemma LongKeyStep5() ensures KeyNext(LongKey3, LongKey4, false, 0) == LongKey5 {}
  lemma LongKeyStep6() ensures KeyNext(LongKey4, LongKey5, true, Rcon(3)) == LongKey6 {}
  lemma LongKeyStep7() ensures KeyNext(LongKey5, LongKey6, false, 0) == LongKey7 {}
  lemma LongKeyStep8() ensures KeyNext(LongKey6, LongKey7, true, Rcon(4)) == LongKey8 {}
  lemma LongKeyStep9() ensures KeyNext(LongKey7, LongKey8, false, 0) == LongKey9 {}
  lemma LongKeyStep10() ensures KeyNext(LongKey8, LongKey9, true, Rcon(5)) == LongKey10 {}
  lemma LongKeyStep11() ensures KeyNext(LongKey9, LongKey10, false, 0) == LongKey11 {}
  lemma LongKeyStep12() ensures KeyNext(LongKey10, LongKey11, true, Rcon(6)) == LongKey12 {}
  lemma LongKeyStep13() ensures KeyNext(LongKey11, LongKey12, false, 0) == LongKey13 {}
  lemma LongKeyStep14() ensures KeyNext(LongKey12, LongKey13, true, Rcon(7)) == LongKey14 {}

  lemma LongKeys()
    ensures KeyBlock(LongKey, 8, 0) == LongKey0
    ensures KeyBlock(LongKey, 8, 1) == LongKey1
    ensures KeyBlock(LongKey, 8, 2) == LongKey2
    ensures KeyBlock(LongKey, 8, 3) == LongKey3
    ensures KeyBlock(LongKey, 8, 4) == LongKey4
    ensures KeyBlock(LongKey, 8, 5) == LongKey5
    ensures KeyBlock(LongKey, 8, 6) == LongKey6
    ensures KeyBlock(LongKey, 8, 7) == LongKey7
    ensures KeyBlock(LongKey, 8, 8) == LongKey8
    ensures KeyBlock(LongKey, 8, 9) == LongKey9
    ensures KeyBlock(LongKey, 8, 10) == LongKey10
    ensures KeyBlock(LongKey, 8, 11) == LongKey11
    ensures KeyBlock(LongKey, 8, 12) == LongKey12
    ensures KeyBlock(LongKey, 8, 13) == LongKey13
    ensures KeyBlock(LongKey, 8, 14) == LongKey14
  {
    hide KeyBlock, KeyNext, RoundRcon, Rcon;
    LongGiven();
    KeyBlockStep(LongKey, 8, 2);
    LongKeyStep2();
    RoundRconIs(8, 2);
    KeyBlockStep(LongKey, 8, 3);
    LongKeyStep3();
    KeyBlockStep(LongKey, 8, 4);
    LongKeyStep4();
    RoundRconIs(8, 4);
    KeyBlockStep(LongKey, 8, 5);
    LongKeyStep5();
    KeyBlockStep(LongKey, 8, 6);
    LongKeyStep6();
    RoundRconIs(8, 6);
    KeyBlockStep(LongKey, 8, 7);
    LongKeyStep7();
    KeyBlockStep(LongKey, 8, 8);
    LongKeyStep8();
    RoundRconIs(8, 8);
    KeyBlockStep(LongKey, 8, 9);
    LongKeyStep9();
    KeyBlockStep(LongKey, 8, 10);
    LongKeyStep10();
    RoundRconIs(8, 10);
    KeyBlockStep(LongKey, 8, 11);
    LongKeyStep11();
    KeyBlockStep(LongKey, 8, 12);
    LongKeyStep12();
    RoundRconIs(8, 12);
    KeyBlockStep(LongKey, 8, 13);
    LongKeyStep13();
    KeyBlockStep(LongKey, 8, 14);
    LongKeyStep14();
    RoundRconIs(8, 14);
  }

  /** The state after each round of the example, and its ciphertext. */
  lemma LongExample()
    ensures Encrypted(KeyCipher(LongKey), Plaintext) == LongState14
  {
    hide KeyBlock, KeySchedule, AfterRounds, Encrypted, Rounded, KeyedBytes, Boxed;
    var c := KeySchedule(LongKey, 8);
    LongKeys();
    FirstState(LongKey, 8, Plaintext);
    LongStart();
    NextState(LongKey, 8, Plaintext, 1);
    LongBoxes0();
    LongRound1();
    NextState(LongKey, 8, Plaintext, 2);
    LongBoxes1();
    LongRound2();
    NextState(LongKey, 8, Plaintext, 3);
    LongBoxes2();
    LongRound3();
    NextState(LongKey, 8, Plaintext, 4);
    LongBoxes3();
    LongRound4();
    NextState(LongKey, 8, Plaintext, 5);
    LongBoxes4();
    LongRound5();
    NextState(LongKey, 8, Plaintext, 6);
    LongBoxes5();
    LongRound6();
    NextState(LongKey, 8, Plaintext, 7);
    LongBoxes6();
    LongRound7();
    NextState(LongKey, 8, Plaintext, 8);
    LongBoxes7();
    LongRound8();
    NextState(LongKey, 8, Plaintext, 9);
    LongBoxes8();
    LongRound9();
    NextState(LongKey, 8, Plaintext, 10);
    LongBoxes9();
    LongRound10();
    NextState(LongKey, 8, Plaintext, 11);
    LongBoxes10();
    LongRound11();
    NextState(LongKey, 8, Plaintext, 12);
    LongBoxes11();
    LongRound12();
    NextState(LongKey, 8, Plaintext, 13);
    LongBoxes12();
    LongRound13();
    LastState(LongKey, 8, Plaintext);
    LongBoxes13();
    LongRound14();
  }
}
