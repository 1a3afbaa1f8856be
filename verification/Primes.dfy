/** The first sixty-four primes, whose roots the hash constants are taken from. */
module Primes {
  import opened Words

  // The first sixty-four primes.
  function Prime(t: nat): (r: nat)
    requires t < 64
    ensures r < 312
  {
    if t < 4 then if t < 2 then if t < 1 then 2 else 3 else if t < 3 then 5 else 7
    else if t < 8 then if t < 6 then if t < 5 then 11 else 13 else if t < 7 then 17 else 19
    else if t < 12 then if t < 10 then if t < 9 then 23 else 29 else if t < 11 then 31 else 37
    else if t < 16 then if t < 14 then if t < 13 then 41 else 43 else if t < 15 then 47 else 53
    else if t < 20 then if t < 18 then if t < 17 then 59 else 61 else if t < 19 then 67 else 71
    else if t < 24 then if t < 22 then if t < 21 then 73 else 79 else if t < 23 then 83 else 89
    else if t < 28 then if t < 26 then if t < 25 then 97 else 101 else if t < 27 then 103 else 107
    else if t < 32 then if t < 30 then if t < 29 then 109 else 113 else if t < 31 then 127 else 131
    else if t < 36 then if t < 34 then if t < 33 then 137 else 139 else if t < 35 then 149 else 151
    else if t < 40 then if t < 38 then if t < 37 then 157 else 163 else if t < 39 then 167 else 173
    else if t < 44 then if t < 42 then if t < 41 then 179 else 181 else if t < 43 then 191 else 193
    else if t < 48 then if t < 46 then if t < 45 then 197 else 199 else if t < 47 then 211 else 223
    else if t < 52 then if t < 50 then if t < 49 then 227 else 229 else if t < 51 then 233 else 239
    else if t < 56 then if t < 54 then if t < 53 then 241 else 251 else if t < 55 then 257 else 263
    else if t < 60 then if t < 58 then if t < 57 then 269 else 271 else if t < 59 then 277 else 281
    else if t < 62 then if t < 61 then 283 else 293 else if t < 63 then 307 else 311
  }

  ghost predicate IsPrime(n: nat) {
    n >= 2 && forall d :: 2 <= d < n ==> n % d != 0
  }

  // No prime up to 17 divides n, unless it is n.
  predicate Sifted(n: nat) {
    && n >= 2
    && (n % 2 != 0 || n == 2) && (n % 3 != 0 || n == 3) && (n % 5 != 0 || n == 5) && (n % 7 != 0 || n == 7)
    && (n % 11 != 0 || n == 11) && (n % 13 != 0 || n == 13) && (n % 17 != 0 || n == 17)
  }

  lemma Multiple(n: nat, p: nat, m: nat)
    requires p >= 1 && n == p * m
    ensures n % p == 0
  {
    DivModUnique(n, p, m, 0);
  }

  // A divisor of at most 17 has one of those primes in it.
  lemma SmallDivisor(n: nat, d: nat, q: nat)
    requires 2 <= d <= 17 && d < n && n == d * q
    ensures !Sifted(n)
  {
    match d {
      case 2 => Multiple(n, 2, q);
      case 3 => Multiple(n, 3, q);
      case 4 => Multiple(n, 2, 2 * q);
      case 5 => Multiple(n, 5, q);
      case 6 => Multiple(n, 2, 3 * q);
      case 7 => Multiple(n, 7, q);
      case 8 => Multiple(n, 2, 4 * q);
      case 9 => Multiple(n, 3, 3 * q);
      case 10 => Multiple(n, 2, 5 * q);
      case 11 => Multiple(n, 11, q);
      case 12 => Multiple(n, 2, 6 * q);
      case 13 => Multiple(n, 13, q);
      case 14 => Multiple(n, 2, 7 * q);
      case 15 => Multiple(n, 3, 5 * q);
      case 16 => Multiple(n, 2, 8 * q);
      case 17 => Multiple(n, 17, q);
      case _ =>
    }
  }

  lemma SiftedIsPrime(n: nat)
    requires n < 324
    ensures IsPrime(n) <==> Sifted(n)
  {
    if Sifted(n) {
      forall d | 2 <= d < n
        ensures n % d != 0
      {
        if n % d == 0 {
          var q := n / d;
          assert n == d * q;
          Cofactor(n, d, q);
          if d <= 17 {
            SmallDivisor(n, d, q);
          } else {
            SmallDivisor(n, q, d);
          }
        }
      }
    }
  }

  // One of two cofactors is at most 17.
  lemma Cofactor(n: nat, d: nat, q: nat)
    requires n == d * q && 2 <= d < n < 324
    ensures 2 <= q < n && (d <= 17 || q <= 17)
  {
    if q < 2 {
      Product(d, q, 1);
    } else if q >= n {
      Product(q, 2, d);
    }
    if d >= 18 && q >= 18 {
      Product(d, 18, q);
    }
  }

  lemma Product(a: nat, b: nat, c: nat)
    requires b <= c
    ensures a * b <= a * c && a * b == b * a && a * c == c * a
  {
  }

  lemma Listed(t: nat)
    requires t < 64
    ensures Sifted(Prime(t))
  {
  }

  lemma BetweenA(t: nat, n: nat)
    requires 0 <= t < 8 && Prime(t) < n < Prime(t + 1)
    ensures !Sifted(n)
  {
  }

  lemma BetweenB(t: nat, n: nat)
    requires 8 <= t < 16 && Prime(t) < n < Prime(t + 1)
    ensures !Sifted(n)
  {
  }

  lemma BetweenC(t: nat, n: nat)
    requires 16 <= t < 24 && Prime(t) < n < Prime(t + 1)
    ensures !Sifted(n)
  {
  }

  lemma BetweenD(t: nat, n: nat)
    requires 24 <= t < 28 && Prime(t) < n < Prime(t + 1)
    ensures !Sifted(n)
  {
  }

  lemma BetweenE(t: nat, n: nat)
    requires 28 <= t < 32 && Prime(t) < n < Prime(t + 1)
    ensures !Sifted(n)
  {
  }

  lemma BetweenF(t: nat, n: nat)
    requires 32 <= t < 40 && Prime(t) < n < Prime(t + 1)
    ensures !Sifted(n)
  {
  }

  lemma BetweenG(t: nat, n: nat)
    requires 40 <= t < 48 && Prime(t) < n < Prime(t + 1)
    ensures !Sifted(n)
  {
  }

  lemma BetweenH(t: nat, n: nat)
    requires 48 <= t < 56 && Prime(t) < n < Prime(t + 1)
    ensures !Sifted(n)
  {
  }

  lemma BetweenI(t: nat, n: nat)
    requires 56 <= t < 63 && Prime(t) < n < Prime(t + 1)
    ensures !Sifted(n)
  {
  }

  lemma NothingBetween(t: nat, n: nat)
    requires t < 63 && Prime(t) < n < Prime(t + 1)
    ensures !Sifted(n)
  {
    hide Prime, Sifted;
    if t < 8 {
      BetweenA(t, n);
    } else if t < 16 {
      BetweenB(t, n);
    } else if t < 24 {
      BetweenC(t, n);
    } else if t < 28 {
      BetweenD(t, n);
    } else if t < 32 {
      BetweenE(t, n);
    } else if t < 40 {
      BetweenF(t, n);
    } else if t < 48 {
      BetweenG(t, n);
    } else if t < 56 {
      BetweenH(t, n);
    } else {
      BetweenI(t, n);
    }
  }

  lemma Increasing(t: nat)
    requires t < 63
    ensures Prime(t) < Prime(t + 1)
  {
  }

  ghost function PrimesBelow(n: nat): set<nat> {
    set p: nat | p < n && IsPrime(p)
  }

  /** The table holds the first sixty-four primes in order: Prime(t) is prime, and t primes are smaller. */
  lemma {:induction false} PrimesInOrder(t: nat)
    requires t < 64
    ensures IsPrime(Prime(t)) && |PrimesBelow(Prime(t))| == t
  {
    hide Prime, Sifted;
    Listed(t);
    SiftedIsPrime(Prime(t));
    if t == 0 {
      FirstPrime();
      assert PrimesBelow(2) == {};
    } else {
      PrimesInOrder(t - 1);
      Increasing(t - 1);
      var low, high := Prime(t - 1), Prime(t);
      forall n: nat | n < high && IsPrime(n)
        ensures n <= low
      {
        if low < n {
          NothingBetween(t - 1, n);
          SiftedIsPrime(n);
        }
      }
      assert PrimesBelow(high) == PrimesBelow(low) + {low};
    }
  }

  lemma FirstPrime()
    ensures Prime(0) == 2
  {
  }
}
