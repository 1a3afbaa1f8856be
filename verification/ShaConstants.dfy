/**
 The constants of the hand-written SHA-256, checked against sections 4.2.2 and 5.3.3 of
 FIPS 180-4: fractional parts of cube and square roots of the first primes.
 */
module ShaConstants {
  import opened Words
  import opened Primes

  // The round constants of the code.
  function KTable(t: nat): (r: nat)
    requires t < 64
    ensures r < U32
  {
    if t < 4 then if t < 2 then if t < 1 then 0x428a2f98 else 0x71374491 else if t < 3 then 0xb5c0fbcf else 0xe9b5dba5
    else if t < 8 then if t < 6 then if t < 5 then 0x3956c25b else 0x59f111f1 else if t < 7 then 0x923f82a4 else 0xab1c5ed5
    else if t < 12 then if t < 10 then if t < 9 then 0xd807aa98 else 0x12835b01 else if t < 11 then 0x243185be else 0x550c7dc3
    else if t < 16 then if t < 14 then if t < 13 then 0x72be5d74 else 0x80deb1fe else if t < 15 then 0x9bdc06a7 else 0xc19bf174
    else if t < 20 then if t < 18 then if t < 17 then 0xe49b69c1 else 0xefbe4786 else if t < 19 then 0x0fc19dc6 else 0x240ca1cc
    else if t < 24 then if t < 22 then if t < 21 then 0x2de92c6f else 0x4a7484aa else if t < 23 then 0x5cb0a9dc else 0x76f988da
    else if t < 28 then if t < 26 then if t < 25 then 0x983e5152 else 0xa831c66d else if t < 27 then 0xb00327c8 else 0xbf597fc7
    else if t < 32 then if t < 30 then if t < 29 then 0xc6e00bf3 else 0xd5a79147 else if t < 31 then 0x06ca6351 else 0x14292967
    else if t < 36 then if t < 34 then if t < 33 then 0x27b70a85 else 0x2e1b2138 else if t < 35 then 0x4d2c6dfc else 0x53380d13
    else if t < 40 then if t < 38 then if t < 37 then 0x650a7354 else 0x766a0abb else if t < 39 then 0x81c2c92e else 0x92722c85
    else if t < 44 then if t < 42 then if t < 41 then 0xa2bfe8a1 else 0xa81a664b else if t < 43 then 0xc24b8b70 else 0xc76c51a3
    else if t < 48 then if t < 46 then if t < 45 then 0xd192e819 else 0xd6990624 else if t < 47 then 0xf40e3585 else 0x106aa070
    else if t < 52 then if t < 50 then if t < 49 then 0x19a4c116 else 0x1e376c08 else if t < 51 then 0x2748774c else 0x34b0bcb5
    else if t < 56 then if t < 54 then if t < 53 then 0x391c0cb3 else 0x4ed8aa4a else if t < 55 then 0x5b9cca4f else 0x682e6ff3
    else if t < 60 then if t < 58 then if t < 57 then 0x748f82ee else 0x78a5636f else if t < 59 then 0x84c87814 else 0x8cc70208
    else if t < 62 then if t < 61 then 0x90befffa else 0xa4506ceb else if t < 63 then 0xbef9a3f7 else 0xc67178f2
  }

  // floor(2^32 * x) for x the k-th root of p, where k is 2 or 3.
  ghost predicate IsScaledRoot(p: nat, k: nat, root: nat)
    requires k == 2 || k == 3
  {
    if k == 2 then root * root <= p * U64 < (root + 1) * (root + 1)
    else root * root * root <= p * (U32 * U64) < (root + 1) * (root + 1) * (root + 1)
  }

  function CubeFloor(p: nat): nat {
    if p < 8 then 1 else if p < 27 then 2 else if p < 64 then 3 else if p < 125 then 4 else if p < 216 then 5 else 6
  }

  lemma KRoot(t: nat)
    requires t < 64
    ensures IsScaledRoot(Prime(t), 3, CubeFloor(Prime(t)) * U32 + KTable(t))
  {
  }

  /** K(t) is the first 32 bits of the fractional part of the cube root of the t-th prime, from 0 on. */
  lemma KIsCubeRootFraction(t: nat)
    requires t < 64
    ensures IsScaledRoot(Prime(t), 3, CubeFloor(Prime(t)) * U32 + KTable(t))
    ensures IsPrime(Prime(t)) && |PrimesBelow(Prime(t))| == t
  {
    hide Prime, KTable, IsScaledRoot, CubeFloor;
    KRoot(t);
    PrimesInOrder(t);
  }

  // The initial hash value of the code.
  function HTable(i: nat): (r: nat)
    requires i < 8
    ensures r < U32
  {
    if i < 4 then if i < 2 then if i < 1 then 0x6a09e667 else 0xbb67ae85 else if i < 3 then 0x3c6ef372 else 0xa54ff53a
    else if i < 6 then if i < 5 then 0x510e527f else 0x9b05688c else if i < 7 then 0x1f83d9ab else 0x5be0cd19
  }

  function SquareFloor(p: nat): nat {
    if p < 4 then 1 else if p < 9 then 2 else if p < 16 then 3 else 4
  }

  lemma HRoot(i: nat)
    requires i < 8
    ensures IsScaledRoot(Prime(i), 2, SquareFloor(Prime(i)) * U32 + HTable(i))
  {
  }

  /** H(0)(i) is the first 32 bits of the fractional part of the square root of the i-th prime, from 0 on. */
  lemma HIsSquareRootFraction(i: nat)
    requires i < 8
    ensures IsScaledRoot(Prime(i), 2, SquareFloor(Prime(i)) * U32 + HTable(i))
    ensures IsPrime(Prime(i)) && |PrimesBelow(Prime(i))| == i
  {
    hide Prime, HTable, IsScaledRoot, SquareFloor;
    HRoot(i);
    PrimesInOrder(i);
  }

  function WordFrom(n: nat): bv32
    requires n < U32
  {
    n as bv32
  }

  function K(t: nat): bv32
    requires t < 64
  {
    WordFrom(KTable(t))
  }
}
