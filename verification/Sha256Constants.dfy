/**
  The constants of SHA-256, derived as sections 4.2.2 and 5.3.3 of FIPS 180-4 say: square and cube
  roots of the first primes.

  Every constant is checked against the inequality that defines its root, and the list of primes by
  trial division: each entry passes it, and no number between two entries does. The tables are cut
  into rows of eight so that each proof stays small.
*/
module Sha256Constants {
  import opened Bits

  const TWO_96: int := 0x1_0000_0000_0000_0000_0000_0000

  const K0: seq<u32> := [0x428a2f98, 0x71374491, 0xb5c0fbcf, 0xe9b5dba5, 0x3956c25b, 0x59f111f1, 0x923f82a4, 0xab1c5ed5]
  const K1: seq<u32> := [0xd807aa98, 0x12835b01, 0x243185be, 0x550c7dc3, 0x72be5d74, 0x80deb1fe, 0x9bdc06a7, 0xc19bf174]
  const K2: seq<u32> := [0xe49b69c1, 0xefbe4786, 0x0fc19dc6, 0x240ca1cc, 0x2de92c6f, 0x4a7484aa, 0x5cb0a9dc, 0x76f988da]
  const K3: seq<u32> := [0x983e5152, 0xa831c66d, 0xb00327c8, 0xbf597fc7, 0xc6e00bf3, 0xd5a79147, 0x06ca6351, 0x14292967]
  const K4: seq<u32> := [0x27b70a85, 0x2e1b2138, 0x4d2c6dfc, 0x53380d13, 0x650a7354, 0x766a0abb, 0x81c2c92e, 0x92722c85]
  const K5: seq<u32> := [0xa2bfe8a1, 0xa81a664b, 0xc24b8b70, 0xc76c51a3, 0xd192e819, 0xd6990624, 0xf40e3585, 0x106aa070]
  const K6: seq<u32> := [0x19a4c116, 0x1e376c08, 0x2748774c, 0x34b0bcb5, 0x391c0cb3, 0x4ed8aa4a, 0x5b9cca4f, 0x682e6ff3]
  const K7: seq<u32> := [0x748f82ee, 0x78a5636f, 0x84c87814, 0x8cc70208, 0x90befffa, 0xa4506ceb, 0xbef9a3f7, 0xc67178f2]

  const P0: seq<nat> := [2, 3, 5, 7, 11, 13, 17, 19]
  const P1: seq<nat> := [23, 29, 31, 37, 41, 43, 47, 53]
  const P2: seq<nat> := [59, 61, 67, 71, 73, 79, 83, 89]
  const P3: seq<nat> := [97, 101, 103, 107, 109, 113, 127, 131]
  const P4: seq<nat> := [137, 139, 149, 151, 157, 163, 167, 173]
  const P5: seq<nat> := [179, 181, 191, 193, 197, 199, 211, 223]
  const P6: seq<nat> := [227, 229, 233, 239, 241, 251, 257, 263]
  const P7: seq<nat> := [269, 271, 277, 281, 283, 293, 307, 311]

  const K_LOW: seq<u32> := K0 + K1 + K2 + K3
  const K_HIGH: seq<u32> := K4 + K5 + K6 + K7
  const K_TABLE: seq<u32> := K_LOW + K_HIGH

  /** The first sixty-four prime numbers. */
  const PRIMES: seq<nat> := P_LOW + P_HIGH
  const P_LOW: seq<nat> := P0 + P1 + P2 + P3
  const P_HIGH: seq<nat> := P4 + P5 + P6 + P7

  const H_TABLE: seq<u32> := [
    0x6a09e667, 0xbb67ae85, 0x3c6ef372, 0xa54ff53a, 0x510e527f, 0x9b05688c, 0x1f83d9ab, 0x5be0cd19]

  function K(t: nat): u32
    requires t < 64
  {
    K_TABLE[t]
  }

  // ---- where they come from ----

  function Square(x: int): int { x * x }

  function Cube(x: int): int { x * x * x }

  /** `frac` is the first 32 bits of the fractional part of the square root of `p`, whose whole part is `whole`. */
  predicate IsSquareRoot(p: nat, whole: nat, frac: nat) {
    Square(whole * TWO_32 + frac) <= p * TWO_64 < Square(whole * TWO_32 + frac + 1)
  }

  /** `frac` is the first 32 bits of the fractional part of the cube root of `p`, whose whole part is `whole`. */
  predicate IsCubeRoot(p: nat, whole: nat, frac: nat) {
    Cube(whole * TWO_32 + frac) <= p * TWO_96 < Cube(whole * TWO_32 + frac + 1)
  }

  function CubeRootFloor(p: nat): nat {
    if p < 8 then 1 else if p < 27 then 2 else if p < 64 then 3 else if p < 125 then 4 else if p < 216 then 5 else 6
  }

  predicate CubeRoots(ps: seq<nat>, ks: seq<u32>) {
    |ps| == |ks| && forall i :: 0 <= i < |ps| ==> IsCubeRoot(ps[i], CubeRootFloor(ps[i]), ks[i])
  }

  lemma CubeRootsJoin(ps: seq<nat>, ks: seq<u32>, ps2: seq<nat>, ks2: seq<u32>)
    requires CubeRoots(ps, ks) && CubeRoots(ps2, ks2)
    ensures CubeRoots(ps + ps2, ks + ks2)
  {
  }

  lemma Row0() ensures CubeRoots(P0, K0) {}
  lemma Row1() ensures CubeRoots(P1, K1) {}
  lemma Row2() ensures CubeRoots(P2, K2) {}
  lemma Row3() ensures CubeRoots(P3, K3) {}
  lemma Row4() ensures CubeRoots(P4, K4) {}
  lemma Row5() ensures CubeRoots(P5, K5) {}
  lemma Row6() ensures CubeRoots(P6, K6) {}
  lemma Row7() ensures CubeRoots(P7, K7) {}

  lemma LowConstants()
    ensures CubeRoots(P_LOW, K_LOW) && |K_LOW| == 32
  {
    Row0();
    Row1();
    Row2();
    Row3();
    CubeRootsJoin(P0, K0, P1, K1);
    CubeRootsJoin(P0 + P1, K0 + K1, P2, K2);
    CubeRootsJoin(P0 + P1 + P2, K0 + K1 + K2, P3, K3);
  }

  lemma HighConstants()
    ensures CubeRoots(P_HIGH, K_HIGH) && |K_HIGH| == 32
  {
    Row4();
    Row5();
    Row6();
    Row7();
    CubeRootsJoin(P4, K4, P5, K5);
    CubeRootsJoin(P4 + P5, K4 + K5, P6, K6);
    CubeRootsJoin(P4 + P5 + P6, K4 + K5 + K6, P7, K7);
  }

  /** The round constants are what the standard derives from the cube roots of the first 64 primes. */
  lemma RoundConstants()
    ensures |K_TABLE| == 64 && CubeRoots(PRIMES, K_TABLE)
    ensures forall n: nat :: n < 312 ==> (n in PRIMES <==> IsPrime(n))
  {
    hide IsPrime;
    forall n: nat ensures n < 312 ==> (n in PRIMES <==> IsPrime(n)) {
      FirstPrimes(n);
    }
    LowConstants();
    HighConstants();
    CubeRootsJoin(P_LOW, K_LOW, P_HIGH, K_HIGH);
  }

  /** The constant of round `t` belongs to the prime at `t`. */
  lemma RoundConstantOf(t: nat)
    requires t < 64
    ensures IsCubeRoot(PRIMES[t], CubeRootFloor(PRIMES[t]), K(t))
  {
    RoundConstants();
  }

  /** The initial hash value comes from the square roots of the first eight. */
  lemma InitialValues(t: nat)
    requires t < 8
    ensures |H_TABLE| == 8 && PRIMES[t] == P0[t]
    ensures IsSquareRoot(P0[t], if t < 2 then 1 else if t < 4 then 2 else if t < 6 then 3 else 4, H_TABLE[t])
  {
  }

  // ---- the primes ----

  predicate IsPrime(n: nat) {
    n >= 2 && forall d :: 2 <= d < n ==> !Divides(d, n)
  }

  predicate Divides(d: nat, n: nat)
    requires d > 0
  {
    n % d == 0
  }

  /** No prime below 19 divides `n`, other than `n` itself. */
  predicate Passes(n: nat) {
    && (n == 2 || n % 2 != 0) && (n == 3 || n % 3 != 0) && (n == 5 || n % 5 != 0) && (n == 7 || n % 7 != 0)
    && (n == 11 || n % 11 != 0) && (n == 13 || n % 13 != 0) && (n == 17 || n % 17 != 0)
  }

  lemma PrimesPass(n: nat)
    requires IsPrime(n)
    ensures Passes(n)
  {
    assert n > 2 ==> !Divides(2, n);
    assert n > 3 ==> !Divides(3, n);
    assert n > 5 ==> !Divides(5, n);
    assert n > 7 ==> !Divides(7, n);
    assert n > 11 ==> !Divides(11, n);
    assert n > 13 ==> !Divides(13, n);
    assert n > 17 ==> !Divides(17, n);
  }

  lemma MultipleOf(q: nat, f: nat)
    requires q in {2, 3, 5, 7, 11, 13, 17}
    ensures (q * f) % q == 0
  {
    Multiples(f);
  }

  lemma Multiples(f: nat)
    ensures (2 * f) % 2 == 0 && (3 * f) % 3 == 0 && (5 * f) % 5 == 0 && (7 * f) % 7 == 0
    ensures (11 * f) % 11 == 0 && (13 * f) % 13 == 0 && (17 * f) % 17 == 0
  {
  }

  lemma FactorOf(n: nat, d: nat, e: nat, q: nat, f: nat)
    requires n == d * e && d == q * f && q in {2, 3, 5, 7, 11, 13, 17}
    ensures n % q == 0
  {
    assert n == q * (f * e);
    MultipleOf(q, f * e);
  }

  /** A factor below 19 has a prime factor below 19. */
  lemma SmallFactorFails(n: nat, d: nat, e: nat)
    requires n == d * e && 2 <= d <= 18 && d < n
    ensures !Passes(n)
  {
    var q := if d % 2 == 0 then 2 else if d % 3 == 0 then 3 else if d % 5 == 0 then 5 else if d % 7 == 0 then 7 else d;
    var f := d / q;
    assert d == q * f;
    FactorOf(n, d, e, q, f);
  }

  lemma Cofactor(n: nat, d: nat) returns (e: nat)
    requires 2 <= d < n && Divides(d, n)
    ensures n == d * e && 2 <= e < n
  {
    e := n / d;
    assert n == d * e;
    Bigger(d, e);
  }

  lemma Bigger(d: nat, e: nat)
    requires 2 <= d < d * e
    ensures 2 <= e < d * e
  {
    assert d * e == e + (d - 1) * e;
    if e >= 1 {
      assert (d - 1) * e >= e;
    }
  }

  lemma OneIsSmall(d: nat, e: nat)
    requires d * e < 361
    ensures d <= 18 || e <= 18
  {
    assert d >= 19 ==> d * e >= 19 * e;
  }

  /** Below the square of 19 passing is enough. */
  lemma PassingIsPrime(n: nat)
    requires 2 <= n < 361 && Passes(n)
    ensures IsPrime(n)
  {
    forall d | 2 <= d < n ensures !Divides(d, n) {
      if Divides(d, n) {
        var e := Cofactor(n, d);
        OneIsSmall(d, e);
        if d <= 18 {
          SmallFactorFails(n, d, e);
        } else {
          SmallFactorFails(n, e, d);
        }
      }
    }
  }

  /** No number from `low` up to `high` passes. */
  predicate NoneFrom(low: nat, high: nat)
    decreases high - low
  {
    low >= high || (!Passes(low) && NoneFrom(low + 1, high))
  }

  lemma {:induction false} NoneFromMeans(low: nat, high: nat, n: nat)
    requires NoneFrom(low, high) && low <= n < high
    ensures !Passes(n)
    decreases high - low
  {
    if n > low {
      NoneFromMeans(low + 1, high, n);
    }
  }

  /** `p` passes, and nothing between it and `next` does. */
  predicate Gap(p: nat, next: nat) {
    p < next && Passes(p) && NoneFrom(p + 1, next)
  }

  /** Every number of the row is followed by the next one that passes; `next` comes after the last. */
  predicate Consecutive(row: seq<nat>, next: nat) {
    forall i {:trigger Following(row, next, i)} :: 0 <= i < |row| ==> Gap(row[i], Following(row, next, i))
  }

  function Following(row: seq<nat>, next: nat, i: nat): nat
    requires i < |row|
  {
    if i + 1 < |row| then row[i+1] else next
  }

  lemma {:induction false} ConsecutiveMeans(row: seq<nat>, next: nat, n: nat)
    requires Consecutive(row, next) && row != [] && row[0] <= n < next
    ensures n in row <==> Passes(n)
    decreases |row|
  {
    hide Passes, NoneFrom;
    var p, rest := row[0], row[1..];
    var q := Following(row, next, 0);
    assert Gap(p, q);
    assert row == [p] + rest;
    forall i | 0 <= i < |rest| ensures Gap(rest[i], Following(rest, next, i)) {
      assert rest[i] == row[i+1];
      assert Gap(row[i+1], Following(row, next, i + 1));
    }
    Ascends(rest, next);
    if n < q {
      if n > p {
        NoneFromMeans(p + 1, q, n);
      }
    } else {
      ConsecutiveMeans(rest, next, n);
    }
  }

  lemma {:induction false} Ascends(row: seq<nat>, next: nat)
    requires Consecutive(row, next)
    ensures forall x :: x in row ==> row[0] <= x < next
    decreases |row|
  {
    hide Passes, NoneFrom;
    if row != [] {
      assert Gap(row[0], Following(row, next, 0));
      var rest := row[1..];
      forall i | 0 <= i < |rest| ensures Gap(rest[i], Following(rest, next, i)) {
        assert rest[i] == row[i+1];
        assert Gap(row[i+1], Following(row, next, i + 1));
      }
      Ascends(rest, next);
      assert row == [row[0]] + rest;
      assert rest != [] ==> rest[0] in rest && rest[0] == Following(row, next, 0);
    }
  }

  lemma {:induction false} Gaps0()
    ensures Gap(2, 3) && Gap(3, 5) && Gap(5, 7) && Gap(7, 11)
    ensures Gap(11, 13) && Gap(13, 17) && Gap(17, 19) && Gap(19, 23)
  {
  }

  lemma {:induction false} Gaps1()
    ensures Gap(23, 29) && Gap(29, 31) && Gap(31, 37) && Gap(37, 41)
    ensures Gap(41, 43) && Gap(43, 47) && Gap(47, 53) && Gap(53, 59)
  {
  }

  lemma {:induction false} Gaps2()
    ensures Gap(59, 61) && Gap(61, 67) && Gap(67, 71) && Gap(71, 73)
    ensures Gap(73, 79) && Gap(79, 83) && Gap(83, 89) && Gap(89, 97)
  {
  }

  lemma {:induction false} Gaps3()
    ensures Gap(97, 101) && Gap(101, 103) && Gap(103, 107) && Gap(107, 109)
    ensures Gap(109, 113) && Gap(113, 127) && Gap(127, 131) && Gap(131, 137)
  {
  }

  lemma {:induction false} Gaps4()
    ensures Gap(137, 139) && Gap(139, 149) && Gap(149, 151) && Gap(151, 157)
    ensures Gap(157, 163) && Gap(163, 167) && Gap(167, 173) && Gap(173, 179)
  {
  }

  lemma {:induction false} Gaps5()
    ensures Gap(179, 181) && Gap(181, 191) && Gap(191, 193) && Gap(193, 197)
    ensures Gap(197, 199) && Gap(199, 211) && Gap(211, 223) && Gap(223, 227)
  {
  }

  lemma {:induction false} Gaps6()
    ensures Gap(227, 229) && Gap(229, 233) && Gap(233, 239) && Gap(239, 241)
    ensures Gap(241, 251) && Gap(251, 257) && Gap(257, 263) && Gap(263, 269)
  {
  }

  lemma {:induction false} Gaps7()
    ensures Gap(269, 271) && Gap(271, 277) && Gap(277, 281) && Gap(281, 283)
    ensures Gap(283, 293) && Gap(293, 307) && Gap(307, 311) && Gap(311, 312)
  {
  }

  lemma Consecutive0()
    ensures Consecutive(P0, 23)
  {
    hide Gap;
    Gaps0();
  }

  lemma Consecutive1()
    ensures Consecutive(P1, 59)
  {
    hide Gap;
    Gaps1();
  }

  lemma Consecutive2()
    ensures Consecutive(P2, 97)
  {
    hide Gap;
    Gaps2();
  }

  lemma Consecutive3()
    ensures Consecutive(P3, 137)
  {
    hide Gap;
    Gaps3();
  }

  lemma Consecutive4()
    ensures Consecutive(P4, 179)
  {
    hide Gap;
    Gaps4();
  }

  lemma Consecutive5()
    ensures Consecutive(P5, 227)
  {
    hide Gap;
    Gaps5();
  }

  lemma Consecutive6()
    ensures Consecutive(P6, 269)
  {
    hide Gap;
    Gaps6();
  }

  lemma Consecutive7()
    ensures Consecutive(P7, 312)
  {
    hide Gap;
    Gaps7();
  }

  /** The rows one after another. */
  lemma {:induction false} ConsecutiveJoins(a: seq<nat>, b: seq<nat>, next: nat)
    requires b != [] && Consecutive(a, b[0]) && Consecutive(b, next)
    ensures Consecutive(a + b, next)
  {
    hide Gap;
    var c := a + b;
    forall i | 0 <= i < |c| ensures Gap(c[i], Following(c, next, i)) {
      if i >= |a| {
        assert c[i] == b[i-|a|];
        assert Gap(b[i-|a|], Following(b, next, i - |a|));
      } else {
        assert Gap(a[i], Following(a, b[0], i));
      }
    }
  }

  lemma LowAreConsecutive()
    ensures Consecutive(P_LOW, 137)
  {
    hide Consecutive;
    Consecutive0();
    Consecutive1();
    Consecutive2();
    Consecutive3();
    ConsecutiveJoins(P0, P1, 59);
    ConsecutiveJoins(P0 + P1, P2, 97);
    ConsecutiveJoins(P0 + P1 + P2, P3, 137);
  }

  lemma HighAreConsecutive()
    ensures Consecutive(P_HIGH, 312)
  {
    hide Consecutive;
    Consecutive4();
    Consecutive5();
    Consecutive6();
    Consecutive7();
    ConsecutiveJoins(P4, P5, 227);
    ConsecutiveJoins(P4 + P5, P6, 269);
    ConsecutiveJoins(P4 + P5 + P6, P7, 312);
  }

  /**
    The list that the constants start from is that of the first sixty-four primes: up to its last number
    it holds every prime and nothing else, in ascending order.
  */
  lemma FirstPrimes(n: nat)
    ensures |PRIMES| == 64
    ensures n < 312 ==> (n in PRIMES <==> IsPrime(n))
    ensures Consecutive(PRIMES, 312)
  {
    LowAreConsecutive();
    HighAreConsecutive();
    ConsecutiveJoins(P_LOW, P_HIGH, 312);
    Ascends(PRIMES, 312);
    if 2 <= n < 312 {
      ConsecutiveMeans(PRIMES, 312, n);
      if Passes(n) {
        PassingIsPrime(n);
      }
      if IsPrime(n) {
        PrimesPass(n);
      }
    }
  }
}
