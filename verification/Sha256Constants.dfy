/** Where the constants of FIPS 180-4 come from: the roots of the first primes. */
module Sha256Constants {
  import opened Sha256Spec

  const TWO_32 := 0x1_0000_0000

  // ---- the first 64 primes, in rows of eight ---------------------------------------

  const P0: seq<nat> := [2, 3, 5, 7, 11, 13, 17, 19]
  const P1: seq<nat> := [23, 29, 31, 37, 41, 43, 47, 53]
  const P2: seq<nat> := [59, 61, 67, 71, 73, 79, 83, 89]
  const P3: seq<nat> := [97, 101, 103, 107, 109, 113, 127, 131]
  const P4: seq<nat> := [137, 139, 149, 151, 157, 163, 167, 173]
  const P5: seq<nat> := [179, 181, 191, 193, 197, 199, 211, 223]
  const P6: seq<nat> := [227, 229, 233, 239, 241, 251, 257, 263]
  const P7: seq<nat> := [269, 271, 277, 281, 283, 293, 307, 311]

  function PrimeAt(t: nat): nat
    requires t < 64
  {
    if t < 8 then P0[t] else if t < 16 then P1[t - 8] else if t < 24 then P2[t - 16] else if t < 32 then P3[t - 24]
    else if t < 40 then P4[t - 32] else if t < 48 then P5[t - 40] else if t < 56 then P6[t - 48] else P7[t - 56]
  }

  ghost predicate IsPrime(n: nat) { n >= 2 && forall d :: 2 <= d < n ==> n % d != 0 }

  /** Below 18 * 18, what no prime below 18 divides is prime. */
  predicate PassesTest(n: nat) {
    || n in {2, 3, 5, 7, 11, 13, 17}
    || (n % 2 != 0 && n % 3 != 0 && n % 5 != 0 && n % 7 != 0 && n % 11 != 0 && n % 13 != 0 && n % 17 != 0)
  }

  lemma FactorOf(n: nat, d: nat, e: nat)
    requires n == e * d && d > 0
    ensures n % d == 0
  {
    QuotientIs(n, d, e, 0);
  }

  /** A divisor below 18 has a prime factor below 18. */
  lemma SmallDivisor(n: nat, d: nat)
    requires 2 <= d < 18 && n % d == 0
    ensures n % 2 == 0 || n % 3 == 0 || n % 5 == 0 || n % 7 == 0 || n % 11 == 0 || n % 13 == 0 || n % 17 == 0
  {
    var e := n / d;
    assert n == d * e;
    if d % 2 == 0 {
      assert n == (d / 2 * e) * 2;
      FactorOf(n, 2, d / 2 * e);
    } else if d % 3 == 0 {
      assert n == (d / 3 * e) * 3;
      FactorOf(n, 3, d / 3 * e);
    }
  }

  lemma OneIsSmall(d: nat, e: nat)
    ensures d < 18 || e < 18 || d * e >= 324
  {
    assert d >= 18 ==> d * e >= 18 * e;
  }

  lemma SmallFactor(n: nat, d: nat) returns (e: nat)
    requires 2 <= d < n < 324 && n % d == 0
    ensures 2 <= e < 18 && n % e == 0
  {
    e := n / d;
    assert n == d * e;
    if d < 18 {
      e := d;
    } else {
      OneIsSmall(d, e);
      FactorOf(n, e, d);
    }
  }

  lemma TestIsRight(n: nat)
    requires 2 <= n < 324
    ensures IsPrime(n) <==> PassesTest(n)
  {
    if IsPrime(n) {
      PrimePasses(n);
    } else {
      var d :| 2 <= d < n && n % d == 0;
      var e := SmallFactor(n, d);
      SmallDivisor(n, e);
    }
  }

  lemma PrimePasses(n: nat)
    requires IsPrime(n)
    ensures PassesTest(n)
  {
    assert n > 2 ==> n % 2 != 0;
    assert n > 3 ==> n % 3 != 0;
    assert n > 5 ==> n % 5 != 0;
    assert n > 7 ==> n % 7 != 0;
    assert n > 11 ==> n % 11 != 0;
    assert n > 13 ==> n % 13 != 0;
    assert n > 17 ==> n % 17 != 0;
  }

  predicate NoneBetween(p: nat, q: nat)
    decreases q - p
  {
    p + 1 >= q || (!PassesTest(p + 1) && NoneBetween(p + 1, q))
  }

  predicate ComesNext(p: nat, q: nat) { p < q && PassesTest(q) && NoneBetween(p, q) }

  ghost predicate NextPrime(p: nat, q: nat) {
    p < q && IsPrime(q) && forall n :: p < n < q ==> !IsPrime(n)
  }

  lemma {:induction false} NonePrimeBetween(p: nat, q: nat, n: nat)
    requires 1 <= p < n < q <= 324 && NoneBetween(p, q)
    ensures !IsPrime(n)
    decreases n - p
  {
    if n == p + 1 {
      TestIsRight(n);
    } else {
      NonePrimeBetween(p + 1, q, n);
    }
  }

  lemma NextIsPrime(p: nat, q: nat)
    requires 1 <= p && q < 324 && ComesNext(p, q)
    ensures NextPrime(p, q)
  {
    TestIsRight(q);
    forall n | p < n < q ensures !IsPrime(n) {
      NonePrimeBetween(p, q, n);
    }
  }

  // ---- the constants and the primes they come from ---------------------------------

  /** k is the first 32 bits of the fraction of the cube root of p, whose integer part is c. */
  predicate CubeRoot(p: nat, c: nat, k: nat) {
    var low, high := c * TWO_32 + k, c * TWO_32 + k + 1;
    && c * c * c <= p < (c + 1) * (c + 1) * (c + 1)
    && low * low * low <= p * (TWO_32 * TWO_32 * TWO_32) < high * high * high
  }

  predicate SquareRoot(p: nat, c: nat, k: nat) {
    var low, high := c * TWO_32 + k, c * TWO_32 + k + 1;
    && c * c <= p < (c + 1) * (c + 1)
    && low * low <= p * (TWO_32 * TWO_32) < high * high
  }

  ghost predicate HasCubeRoot(p: nat, k: nat) { exists c :: CubeRoot(p, c, k) }

  ghost predicate HasSquareRoot(p: nat, k: nat) { exists c :: SquareRoot(p, c, k) }

  lemma Root(p: nat, c: nat, k: Word)
    requires CubeRoot(p, c, k as nat)
    ensures HasCubeRoot(p, k as nat)
  {
  }

  lemma Square(p: nat, c: nat, k: Word)
    requires SquareRoot(p, c, k as nat)
    ensures HasSquareRoot(p, k as nat)
  {
  }

  // Row by row: each prime follows the one before, and each constant comes from its prime.

  lemma Primes0()
    ensures forall j :: 0 <= j < 7 ==> NextPrime(P0[j], P0[j + 1])
  {
    NextIsPrime(2, 3);
    NextIsPrime(3, 5);
    NextIsPrime(5, 7);
    NextIsPrime(7, 11);
    NextIsPrime(11, 13);
    NextIsPrime(13, 17);
    NextIsPrime(17, 19);
  }

  lemma Roots0()
    ensures forall j :: 0 <= j < 8 ==> HasCubeRoot(P0[j], K0[j] as nat)
  {
    Root(2, 1, 0x428a2f98);
    Root(3, 1, 0x71374491);
    Root(5, 1, 0xb5c0fbcf);
    Root(7, 1, 0xe9b5dba5);
    Root(11, 2, 0x3956c25b);
    Root(13, 2, 0x59f111f1);
    Root(17, 2, 0x923f82a4);
    Root(19, 2, 0xab1c5ed5);
  }

  lemma Primes1()
    ensures forall j :: 0 <= j < 7 ==> NextPrime(P1[j], P1[j + 1])
    ensures NextPrime(P0[7], P1[0])
  {
    NextIsPrime(19, 23);
    NextIsPrime(23, 29);
    NextIsPrime(29, 31);
    NextIsPrime(31, 37);
    NextIsPrime(37, 41);
    NextIsPrime(41, 43);
    NextIsPrime(43, 47);
    NextIsPrime(47, 53);
  }

  lemma Roots1()
    ensures forall j :: 0 <= j < 8 ==> HasCubeRoot(P1[j], K1[j] as nat)
  {
    Root(23, 2, 0xd807aa98);
    Root(29, 3, 0x12835b01);
    Root(31, 3, 0x243185be);
    Root(37, 3, 0x550c7dc3);
    Root(41, 3, 0x72be5d74);
    Root(43, 3, 0x80deb1fe);
    Root(47, 3, 0x9bdc06a7);
    Root(53, 3, 0xc19bf174);
  }

  lemma Primes2()
    ensures forall j :: 0 <= j < 7 ==> NextPrime(P2[j], P2[j + 1])
    ensures NextPrime(P1[7], P2[0])
  {
    NextIsPrime(53, 59);
    NextIsPrime(59, 61);
    NextIsPrime(61, 67);
    NextIsPrime(67, 71);
    NextIsPrime(71, 73);
    NextIsPrime(73, 79);
    NextIsPrime(79, 83);
    NextIsPrime(83, 89);
  }

  lemma Roots2()
    ensures forall j :: 0 <= j < 8 ==> HasCubeRoot(P2[j], K2[j] as nat)
  {
    Root(59, 3, 0xe49b69c1);
    Root(61, 3, 0xefbe4786);
    Root(67, 4, 0x0fc19dc6);
    Root(71, 4, 0x240ca1cc);
    Root(73, 4, 0x2de92c6f);
    Root(79, 4, 0x4a7484aa);
    Root(83, 4, 0x5cb0a9dc);
    Root(89, 4, 0x76f988da);
  }

  lemma Primes3()
    ensures forall j :: 0 <= j < 7 ==> NextPrime(P3[j], P3[j + 1])
    ensures NextPrime(P2[7], P3[0])
  {
    NextIsPrime(89, 97);
    NextIsPrime(97, 101);
    NextIsPrime(101, 103);
    NextIsPrime(103, 107);
    NextIsPrime(107, 109);
    NextIsPrime(109, 113);
    NextIsPrime(113, 127);
    NextIsPrime(127, 131);
  }

  lemma Roots3()
    ensures forall j :: 0 <= j < 8 ==> HasCubeRoot(P3[j], K3[j] as nat)
  {
    Root(97, 4, 0x983e5152);
    Root(101, 4, 0xa831c66d);
    Root(103, 4, 0xb00327c8);
    Root(107, 4, 0xbf597fc7);
    Root(109, 4, 0xc6e00bf3);
    Root(113, 4, 0xd5a79147);
    Root(127, 5, 0x06ca6351);
    Root(131, 5, 0x14292967);
  }

  lemma Primes4()
    ensures forall j :: 0 <= j < 7 ==> NextPrime(P4[j], P4[j + 1])
    ensures NextPrime(P3[7], P4[0])
  {
    NextIsPrime(131, 137);
    NextIsPrime(137, 139);
    NextIsPrime(139, 149);
    NextIsPrime(149, 151);
    NextIsPrime(151, 157);
    NextIsPrime(157, 163);
    NextIsPrime(163, 167);
    NextIsPrime(167, 173);
  }

  lemma Roots4()
    ensures forall j :: 0 <= j < 8 ==> HasCubeRoot(P4[j], K4[j] as nat)
  {
    Root(137, 5, 0x27b70a85);
    Root(139, 5, 0x2e1b2138);
    Root(149, 5, 0x4d2c6dfc);
    Root(151, 5, 0x53380d13);
    Root(157, 5, 0x650a7354);
    Root(163, 5, 0x766a0abb);
    Root(167, 5, 0x81c2c92e);
    Root(173, 5, 0x92722c85);
  }

  lemma Primes5()
    ensures forall j :: 0 <= j < 7 ==> NextPrime(P5[j], P5[j + 1])
    ensures NextPrime(P4[7], P5[0])
  {
    NextIsPrime(173, 179);
    NextIsPrime(179, 181);
    NextIsPrime(181, 191);
    NextIsPrime(191, 193);
    NextIsPrime(193, 197);
    NextIsPrime(197, 199);
    NextIsPrime(199, 211);
    NextIsPrime(211, 223);
  }

  lemma Roots5()
    ensures forall j :: 0 <= j < 8 ==> HasCubeRoot(P5[j], K5[j] as nat)
  {
    Root(179, 5, 0xa2bfe8a1);
    Root(181, 5, 0xa81a664b);
    Root(191, 5, 0xc24b8b70);
    Root(193, 5, 0xc76c51a3);
    Root(197, 5, 0xd192e819);
    Root(199, 5, 0xd6990624);
    Root(211, 5, 0xf40e3585);
    Root(223, 6, 0x106aa070);
  }

  lemma Primes6()
    ensures forall j :: 0 <= j < 7 ==> NextPrime(P6[j], P6[j + 1])
    ensures NextPrime(P5[7], P6[0])
  {
    NextIsPrime(223, 227);
    NextIsPrime(227, 229);
    NextIsPrime(229, 233);
    NextIsPrime(233, 239);
    NextIsPrime(239, 241);
    NextIsPrime(241, 251);
    NextIsPrime(251, 257);
    NextIsPrime(257, 263);
  }

  lemma Roots6()
    ensures forall j :: 0 <= j < 8 ==> HasCubeRoot(P6[j], K6[j] as nat)
  {
    Root(227, 6, 0x19a4c116);
    Root(229, 6, 0x1e376c08);
    Root(233, 6, 0x2748774c);
    Root(239, 6, 0x34b0bcb5);
    Root(241, 6, 0x391c0cb3);
    Root(251, 6, 0x4ed8aa4a);
    Root(257, 6, 0x5b9cca4f);
    Root(263, 6, 0x682e6ff3);
  }

  lemma Primes7()
    ensures forall j :: 0 <= j < 7 ==> NextPrime(P7[j], P7[j + 1])
    ensures NextPrime(P6[7], P7[0])
  {
    NextIsPrime(263, 269);
    NextIsPrime(269, 271);
    NextIsPrime(271, 277);
    NextIsPrime(277, 281);
    NextIsPrime(281, 283);
    NextIsPrime(283, 293);
    NextIsPrime(293, 307);
    NextIsPrime(307, 311);
  }

  lemma Roots7()
    ensures forall j :: 0 <= j < 8 ==> HasCubeRoot(P7[j], K7[j] as nat)
  {
    Root(269, 6, 0x748f82ee);
    Root(271, 6, 0x78a5636f);
    Root(277, 6, 0x84c87814);
    Root(281, 6, 0x8cc70208);
    Root(283, 6, 0x90befffa);
    Root(293, 6, 0xa4506ceb);
    Root(307, 6, 0xbef9a3f7);
    Root(311, 6, 0xc67178f2);
  }

  /** The primes are the first ones, none left out. */
  lemma PrimesInOrder(t: nat)
    requires t < 64
    ensures if t == 0 then PrimeAt(0) == 2 else NextPrime(PrimeAt(t - 1), PrimeAt(t))
  {
    Primes0();
    Primes1();
    Primes2();
    Primes3();
    Primes4();
    Primes5();
    Primes6();
    Primes7();
  }

  lemma RowOf(t: nat)
    requires t < 64
    ensures K[t] == if t < 8 then K0[t] else if t < 16 then K1[t - 8] else if t < 24 then K2[t - 16]
                    else if t < 32 then K3[t - 24] else if t < 40 then K4[t - 32] else if t < 48 then K5[t - 40]
                    else if t < 56 then K6[t - 48] else K7[t - 56]
  {
  }

  /** Section 4.2.2: the constants are the fractions of the cube roots of the first 64 primes. */
  lemma RoundConstants(t: nat)
    requires t < 64
    ensures HasCubeRoot(PrimeAt(t), K[t] as nat)
  {
    RowOf(t);
    Roots0();
    Roots1();
    Roots2();
    Roots3();
    Roots4();
    Roots5();
    Roots6();
    Roots7();
  }

  /** Section 5.3.3: the first hash is the fractions of the square roots of the first eight. */
  lemma InitialHash(t: nat)
    requires t < 8
    ensures HasSquareRoot(PrimeAt(t), H0[t] as nat)
  {
    Square(2, 1, 0x6a09e667);
    Square(3, 1, 0xbb67ae85);
    Square(5, 2, 0x3c6ef372);
    Square(7, 2, 0xa54ff53a);
    Square(11, 3, 0x510e527f);
    Square(13, 3, 0x9b05688c);
    Square(17, 4, 0x1f83d9ab);
    Square(19, 4, 0x5be0cd19);
  }
}
