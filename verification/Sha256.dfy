/** The in-repository SHA-256 (crates/moaray/src/auth.rs) against its definition in FIPS 180-4. */
module Sha256 {
  import opened Utf8
  import opened Bits
  import C = Sha256Constants

  // ---------------------------------------------------------------------------------------------
  // The standard
  // ---------------------------------------------------------------------------------------------

  /** Big-endian bytes of a number (section 3.1); higher digits are dropped. */
  function BeBytes(n: nat, count: nat): (r: seq<u8>)
    ensures |r| == count
  {
    if count == 0 then [] else BeBytes(n / 256, count - 1) + [(n % 256) as u8]
  }

  function FromBe(bytes: seq<u8>): nat {
    if bytes == [] then 0 else 256 * FromBe(bytes[..|bytes|-1]) + bytes[|bytes|-1] as int
  }

  function Word(b0: u8, b1: u8, b2: u8, b3: u8): u32 {
    ((b0 as int * 256 + b1 as int) * 256 + b2 as int) * 256 + b3 as int
  }

  // The six functions (section 4.1.2).

  function Ch(x: u32, y: u32, z: u32): u32 { Xor(And(x, y), And(Not(x), z)) }

  function Maj(x: u32, y: u32, z: u32): u32 { Xor(Xor(And(x, y), And(x, z)), And(y, z)) }

  function BigSigma0(x: u32): u32 { Xor(Xor(RotateRight(x, 2), RotateRight(x, 13)), RotateRight(x, 22)) }

  function BigSigma1(x: u32): u32 { Xor(Xor(RotateRight(x, 6), RotateRight(x, 11)), RotateRight(x, 25)) }

  function SmallSigma0(x: u32): u32 { Xor(Xor(RotateRight(x, 7), RotateRight(x, 18)), ShiftRight(x, 3)) }

  function SmallSigma1(x: u32): u32 { Xor(Xor(RotateRight(x, 17), RotateRight(x, 19)), ShiftRight(x, 10)) }

  // Padding (section 5.1.1).

  function Zeros(n: nat): seq<u8> { seq(n, i => 0) }

  /** How many zero bytes bring the length field to the end of a block. */
  function ZeroCount(length: nat): (z: nat)
    ensures z < 64
  {
    (55 - length) % 64
  }

  function PaddedWith(data: seq<u8>, bitLength: nat): seq<u8> {
    data + [0x80] + Zeros(ZeroCount(|data|)) + BeBytes(bitLength, 8)
  }

  function Padded(data: seq<u8>): seq<u8> { PaddedWith(data, 8 * |data|) }

  // The hash computation (section 6.2.2).

  function Schedule(block: seq<u8>, t: nat): u32
    requires |block| == 64 && t < 64
  {
    if t < 16 then Word(block[4*t], block[4*t+1], block[4*t+2], block[4*t+3])
    else NextWord(Schedule(block, t - 2), Schedule(block, t - 7), Schedule(block, t - 15), Schedule(block, t - 16))
  }

  function NextWord(w2: u32, w7: u32, w15: u32, w16: u32): u32 {
    WrappingAdd(WrappingAdd(WrappingAdd(SmallSigma1(w2), w7), SmallSigma0(w15)), w16)
  }

  datatype Regs = Regs(a: u32, b: u32, c: u32, d: u32, e: u32, f: u32, g: u32, h: u32)

  function Temporary1(e: u32, f: u32, g: u32, h: u32, k: u32, w: u32): u32 {
    WrappingAdd(WrappingAdd(WrappingAdd(WrappingAdd(h, BigSigma1(e)), Ch(e, f, g)), k), w)
  }

  function Temporary2(a: u32, b: u32, c: u32): u32 { WrappingAdd(BigSigma0(a), Maj(a, b, c)) }

  function Round(r: Regs, k: u32, w: u32): Regs {
    var t1, t2 := Temporary1(r.e, r.f, r.g, r.h, k, w), Temporary2(r.a, r.b, r.c);
    Regs(WrappingAdd(t1, t2), r.a, r.b, r.c, WrappingAdd(r.d, t1), r.e, r.f, r.g)
  }

  function Rounds(r: Regs, block: seq<u8>, n: nat): Regs
    requires |block| == 64 && n <= 64
  {
    if n == 0 then r else Round(Rounds(r, block, n - 1), C.K(n - 1), Schedule(block, n - 1))
  }

  function Sum(x: Regs, y: Regs): Regs {
    Regs(WrappingAdd(x.a, y.a), WrappingAdd(x.b, y.b), WrappingAdd(x.c, y.c), WrappingAdd(x.d, y.d),
         WrappingAdd(x.e, y.e), WrappingAdd(x.f, y.f), WrappingAdd(x.g, y.g), WrappingAdd(x.h, y.h))
  }

  function Compress(h: Regs, block: seq<u8>): Regs
    requires |block| == 64
  {
    Sum(h, Rounds(h, block, 64))
  }

  function Initial(): Regs {
    var t := C.H_TABLE;
    Regs(t[0], t[1], t[2], t[3], t[4], t[5], t[6], t[7])
  }

  /** The hash value after all whole blocks of a padded message. */
  function HashValue(message: seq<u8>): Regs {
    if |message| < 64 then Initial() else Compress(HashValue(message[..|message|-64]), message[|message|-64..])
  }

  // Lower-case hexadecimal.

  function HexDigit(d: nat): char
    requires d < 16
  {
    if d < 10 then '0' + d as char else 'a' + (d - 10) as char
  }

  /** The last `count` hexadecimal digits of a number, leading zeros included. */
  function HexDigits(n: nat, count: nat): (s: string)
    ensures |s| == count
  {
    if count == 0 then [] else HexDigits(n / 16, count - 1) + [HexDigit(n % 16)]
  }

  function Hex(words: seq<u32>): string {
    if words == [] then [] else Hex(words[..|words|-1]) + HexDigits(words[|words|-1], 8)
  }

  function Words(r: Regs): seq<u32> { [r.a, r.b, r.c, r.d, r.e, r.f, r.g, r.h] }

  /** The SHA-256 digest of `data`, in hexadecimal. */
  function Standard(data: seq<u8>): string { Hex(Words(HashValue(Padded(data)))) }

  // What the six functions are, bit by bit.

  lemma {:induction false} GateMeans(x: u32, y: u32, i: nat)
    requires i < 32
    ensures Bit(And(x, y), i) == if Bit(x, i) == 1 then Bit(y, i) else 0
    ensures Bit(Xor(x, y), i) == if Bit(x, i) == Bit(y, i) then 0 else 1
    ensures Bit(Not(x), i) == 1 - Bit(x, i)
  {
    hide Bit, Bitwise, Pow2;
    Pow2Of32();
    BitwiseMeans(AndGate, x, y, 32, i);
    BitwiseMeans(XorGate, x, y, 32, i);
    NotMeans(x, 32, i);
  }

  /** `Ch` chooses between two bits. */
  lemma {:induction false} ChMeans(x: u32, y: u32, z: u32, i: nat)
    requires i < 32
    ensures Bit(Ch(x, y, z), i) == if Bit(x, i) == 1 then Bit(y, i) else Bit(z, i)
  {
    hide Bit, And, Xor, Not;
    GateMeans(x, y, i);
    GateMeans(Not(x), z, i);
    GateMeans(And(x, y), And(Not(x), z), i);
  }

  /** `Maj` is the majority of three bits. */
  lemma {:induction false} MajMeans(x: u32, y: u32, z: u32, i: nat)
    requires i < 32
    ensures Bit(Maj(x, y, z), i) == if Bit(x, i) + Bit(y, i) + Bit(z, i) >= 2 then 1 else 0
  {
    hide Bit, And, Xor, Not;
    GateMeans(x, y, i);
    GateMeans(x, z, i);
    GateMeans(y, z, i);
    GateMeans(And(x, y), And(x, z), i);
    GateMeans(Xor(And(x, y), And(x, z)), And(y, z), i);
  }

  lemma {:induction false} XorOfThree(x: u32, y: u32, z: u32, i: nat)
    requires i < 32
    ensures Bit(Xor(Xor(x, y), z), i) == (Bit(x, i) + Bit(y, i) + Bit(z, i)) % 2
  {
    hide Bit, Xor;
    GateMeans(x, y, i);
    GateMeans(Xor(x, y), z, i);
  }

  /** Each of the others is the parity of three bits, a fixed way to the left, round the word or off its end. */
  lemma {:induction false} SigmasAreParities(x: u32, i: nat)
    requires i < 32
    ensures Bit(BigSigma0(x), i) == (Bit(x, (i + 2) % 32) + Bit(x, (i + 13) % 32) + Bit(x, (i + 22) % 32)) % 2
    ensures Bit(BigSigma1(x), i) == (Bit(x, (i + 6) % 32) + Bit(x, (i + 11) % 32) + Bit(x, (i + 25) % 32)) % 2
    ensures Bit(SmallSigma0(x), i) == (Bit(x, (i + 7) % 32) + Bit(x, (i + 18) % 32) + Bit(x, i + 3)) % 2
    ensures Bit(SmallSigma1(x), i) == (Bit(x, (i + 17) % 32) + Bit(x, (i + 19) % 32) + Bit(x, i + 10)) % 2
  {
    hide Bit, Xor, RotateRight, ShiftRight;
    XorOfThree(RotateRight(x, 2), RotateRight(x, 13), RotateRight(x, 22), i);
    XorOfThree(RotateRight(x, 6), RotateRight(x, 11), RotateRight(x, 25), i);
    XorOfThree(RotateRight(x, 7), RotateRight(x, 18), ShiftRight(x, 3), i);
    XorOfThree(RotateRight(x, 17), RotateRight(x, 19), ShiftRight(x, 10), i);
    forall n | n in [2, 13, 22, 6, 11, 25, 7, 18, 17, 19] ensures Bit(RotateRight(x, n), i) == Bit(x, (i + n) % 32) {
      RotateMeans(x, n, i);
    }
    assert 2 in [2, 13, 22, 6, 11, 25, 7, 18, 17, 19];
    ShiftMeans(x, 3, i);
    ShiftMeans(x, 10, i);
  }

  /** What a block adds to the hash value, variable by variable. */
  lemma {:induction false} CompressAdds(h: Regs, block: seq<u8>, j: nat)
    requires |block| == 64 && j < 8
    ensures Words(Compress(h, block))[j] == (Words(h)[j] + Words(Rounds(h, block, 64))[j]) % TWO_32
  {
    hide Rounds;
  }

  /** A round forgets nothing: the working variables before it can be recovered from those after it. */
  lemma RoundIsUndone(r: Regs, k: u32, w: u32)
    ensures var s := Round(r, k, w);
      var t2 := (BigSigma0(s.b) + Maj(s.b, s.c, s.d)) % TWO_32;
      var t1 := (s.a - t2) % TWO_32;
      && r.a == s.b && r.b == s.c && r.c == s.d && r.e == s.f && r.f == s.g && r.g == s.h
      && r.d == (s.e - t1) % TWO_32
      && r.h == (t1 - (BigSigma1(s.f) + Ch(s.f, s.g, s.h) + k + w)) % TWO_32
  {
    hide BigSigma0, BigSigma1, Ch, Maj, Temporary1;
    var t1, t2 := Temporary1(r.e, r.f, r.g, r.h, k, w), Temporary2(r.a, r.b, r.c);
    Temporary1Sum(r.e, r.f, r.g, r.h, k, w);
    TakenBack(t1, t2);
    TakenBack(r.d, t1);
    TakenBack(r.h, BigSigma1(r.e) + Ch(r.e, r.f, r.g) + k + w);
  }

  lemma Temporary1Sum(e: u32, f: u32, g: u32, h: u32, k: u32, w: u32)
    ensures Temporary1(e, f, g, h, k, w) == (h + (BigSigma1(e) + Ch(e, f, g) + k + w)) % TWO_32
  {
    hide BigSigma1, Ch;
    AddFour(h, BigSigma1(e), Ch(e, f, g), k);
    AddAgain(h + BigSigma1(e) + Ch(e, f, g) + k, w);
  }

  lemma TakenBack(x: u32, y: nat)
    ensures ((x + y) % TWO_32 - y) % TWO_32 == x
  {
    var q := (x + y) / TWO_32;
    assert (x + y) % TWO_32 - y == x + (-q) * TWO_32;
    WrapsDown(x, -q);
  }

  lemma WrapsDown(x: u32, q: int)
    ensures (x + q * TWO_32) % TWO_32 == x
  {
    var n := x + q * TWO_32;
    assert n == (n / TWO_32) * TWO_32 + n % TWO_32;
    assert (n / TWO_32 - q) * TWO_32 == x - n % TWO_32;
  }

  // ---------------------------------------------------------------------------------------------
  // The program
  // ---------------------------------------------------------------------------------------------

  /** The bit length as the program computes it: a 64-bit product, which wraps around. */
  function BitLength(data: seq<u8>): nat { (8 * |data|) % TWO_64 }

  lemma NoWrapAround(data: seq<u8>)
    ensures 8 * |data| < TWO_64 ==> BitLength(data) == 8 * |data|
  {
  }

  lemma ZeroCountFits(length: nat, j: nat)
    requires j <= ZeroCount(length)
    ensures (length + 1 + j) % 64 == 56 <==> j == ZeroCount(length)
  {
  }

  /** The input, one set bit, zeros, and the bit length as 64 big-endian bits, in whole blocks and no more than needed. */
  ghost predicate IsPadding(data: seq<u8>, msg: seq<u8>) {
    && |data| + 9 <= |msg| < |data| + 73 && |msg| % 64 == 0
    && msg[..|data|] == data && msg[|data|] == 0x80
    && (forall i :: |data| < i < |msg| - 8 ==> msg[i] == 0)
    && FromBe(msg[|msg|-8..]) == (8 * |data|) % TWO_64
  }

  lemma PaddedIsPadding(data: seq<u8>)
    ensures IsPadding(data, PaddedWith(data, BitLength(data)))
  {
    PaddingReadsBack(data, BitLength(data));
    var msg := PaddedWith(data, BitLength(data));
    assert msg[..|data|] == data;
  }

  method Pad(data: seq<u8>) returns (msg: seq<u8>)
    ensures msg == PaddedWith(data, BitLength(data))
    ensures IsPadding(data, msg)
  {
    PaddedIsPadding(data);
    var bitlen := BitLength(data);
    msg := data + [0x80];
    ghost var j := 0;
    while |msg| % 64 != 56
      invariant j <= ZeroCount(|data|) && msg == data + [0x80] + Zeros(j)
      decreases ZeroCount(|data|) - j
    {
      ZeroCountFits(|data|, j);
      assert Zeros(j + 1) == Zeros(j) + [0];
      msg := msg + [0];
      j := j + 1;
    }
    ZeroCountFits(|data|, j);
    msg := msg + BeBytes(bitlen, 8);
  }

  ghost predicate Filled(w: seq<u32>, chunk: seq<u8>)
    requires |chunk| == 64 && |w| <= 64
  {
    forall t :: 0 <= t < |w| ==> w[t] == Schedule(chunk, t)
  }

  /**
    The 64 words of a chunk. The first 16 are the chunk itself, most significant byte first; each later one
    is a sum of four earlier ones, two of them scrambled.
  */
  method MessageSchedule(chunk: seq<u8>) returns (w: array<u32>)
    requires |chunk| == 64
    ensures fresh(w) && w.Length == 64 && Filled(w[..], chunk)
    ensures Expands(w[..], chunk)
  {
    hide Schedule, Expands;
    w := new u32[64](_ => 0);
    FirstWords(w, chunk);
    LaterWords(w, chunk);
    FilledMeans(w[..], chunk);
  }

  /** A word is the number its four bytes write, most significant first (section 3.1). */
  lemma {:induction false} WordIsBigEndian(b0: u8, b1: u8, b2: u8, b3: u8)
    ensures FromBe([b0, b1, b2, b3]) == Word(b0, b1, b2, b3)
  {
    assert [b0, b1, b2, b3][..3] == [b0, b1, b2] && [b0, b1, b2][..2] == [b0, b1];
    assert [b0, b1][..1] == [b0] && [b0][..0] == [];
    assert FromBe([b0]) == b0 as int;
    assert FromBe([b0, b1]) == 256 * b0 as int + b1 as int;
    assert FromBe([b0, b1, b2]) == 256 * (256 * b0 as int + b1 as int) + b2 as int;
  }

  lemma {:induction false} BytesOfWord(b0: u8, b1: u8, b2: u8, b3: u8)
    ensures BeBytes(Word(b0, b1, b2, b3), 4) == [b0, b1, b2, b3]
  {
    var n1 := b0 as int * 256 + b1 as int;
    var n2 := n1 * 256 + b2 as int;
    assert BeBytes(b0 as int, 1) == [b0];
    assert n1 / 256 == b0 as int && n1 % 256 == b1 as int && BeBytes(n1, 2) == [b0, b1];
    assert n2 / 256 == n1 && n2 % 256 == b2 as int && BeBytes(n2, 3) == [b0, b1, b2];
    var w := n2 * 256 + b3 as int;
    assert w / 256 == n2 && w % 256 == b3 as int;
  }

  lemma ScheduleMeans(chunk: seq<u8>, t: nat)
    requires |chunk| == 64 && t < 64
    ensures t < 16 ==> BeBytes(Schedule(chunk, t), 4) == chunk[4*t..4*t+4]
    ensures t >= 16 ==>
      var w16, w15, w7, w2 := Schedule(chunk, t-16), Schedule(chunk, t-15), Schedule(chunk, t-7), Schedule(chunk, t-2);
      Schedule(chunk, t) == (w16 + SmallSigma0(w15) + w7 + SmallSigma1(w2)) % TWO_32
  {
    hide SmallSigma0, SmallSigma1, BeBytes, Word;
    if t < 16 {
      BytesOfWord(chunk[4*t], chunk[4*t+1], chunk[4*t+2], chunk[4*t+3]);
    } else {
      AddFour(SmallSigma1(Schedule(chunk, t-2)), Schedule(chunk, t-7), SmallSigma0(Schedule(chunk, t-15)), Schedule(chunk, t-16));
    }
  }

  /** The first 16 words write the chunk, most significant byte first; each later one is a sum of four earlier ones. */
  ghost predicate Expands(w: seq<u32>, chunk: seq<u8>)
    requires |chunk| == 64 == |w|
  {
    && (forall t :: 0 <= t < 16 ==> BeBytes(w[t], 4) == chunk[4*t..4*t+4])
    && forall t :: 16 <= t < 64 ==> w[t] == (w[t-16] + SmallSigma0(w[t-15]) + w[t-7] + SmallSigma1(w[t-2])) % TWO_32
  }

  lemma FilledMeans(w: seq<u32>, chunk: seq<u8>)
    requires |chunk| == 64 && |w| == 64 && Filled(w, chunk)
    ensures Expands(w, chunk)
  {
    hide Schedule, SmallSigma0, SmallSigma1, BeBytes;
    forall t | 0 <= t < 64
      ensures t < 16 ==> BeBytes(w[t], 4) == chunk[4*t..4*t+4]
      ensures t >= 16 ==> w[t] == (w[t-16] + SmallSigma0(w[t-15]) + w[t-7] + SmallSigma1(w[t-2])) % TWO_32
    {
      ScheduleMeans(chunk, t);
    }
  }

  method FirstWords(w: array<u32>, chunk: seq<u8>)
    requires |chunk| == 64 == w.Length
    modifies w
    ensures Filled(w[..16], chunk)
  {
    for i := 0 to 16
      invariant Filled(w[..i], chunk)
    {
      var j := i * 4;
      ghost var before := w[..i];
      w[i] := Word(chunk[j], chunk[j+1], chunk[j+2], chunk[j+3]);
      FirstAreFilled(before, chunk, w[i]);
      assert w[..i+1] == before + [w[i]];
    }
  }

  method LaterWords(w: array<u32>, chunk: seq<u8>)
    requires |chunk| == 64 == w.Length && Filled(w[..16], chunk)
    modifies w
    ensures Filled(w[..], chunk)
  {
    for i := 16 to 64
      invariant Filled(w[..i], chunk)
    {
      ghost var before := w[..i];
      var next := Scheduled(w[i-16], w[i-15], w[i-7], w[i-2]);
      NextIsFilled(before, chunk);
      w[i] := next;
      assert w[..i+1] == before + [next];
    }
    assert w[..64] == w[..];
  }

  lemma FirstAreFilled(before: seq<u32>, chunk: seq<u8>, next: u32)
    requires |chunk| == 64 && |before| < 16 && Filled(before, chunk)
    requires var j := 4 * |before|; next == Word(chunk[j], chunk[j+1], chunk[j+2], chunk[j+3])
    ensures Filled(before + [next], chunk)
  {
  }

  lemma NextIsFilled(before: seq<u32>, chunk: seq<u8>)
    requires |chunk| == 64 && 16 <= |before| < 64 && Filled(before, chunk)
    ensures var i := |before|; Filled(before + [NextWord(before[i-2], before[i-7], before[i-15], before[i-16])], chunk)
  {
  }

  /** The body of the second schedule loop; it adds in the opposite order of the standard. */
  method Scheduled(w16: u32, w15: u32, w7: u32, w2: u32) returns (r: u32)
    ensures r == NextWord(w2, w7, w15, w16)
  {
    var s0 := Xor(Xor(RotateRight(w15, 7), RotateRight(w15, 18)), ShiftRight(w15, 3));
    var s1 := Xor(Xor(RotateRight(w2, 17), RotateRight(w2, 19)), ShiftRight(w2, 10));
    AddReversed(w16, s0, w7, s1);
    r := WrappingAdd(WrappingAdd(WrappingAdd(w16, s0), w7), s1);
  }

  lemma AddAgain(x: nat, y: nat)
    ensures (x % TWO_32 + y) % TWO_32 == (x + y) % TWO_32
  {
    var q := x / TWO_32;
    assert x + y == q * TWO_32 + (x % TWO_32 + y);
    Wraps(q, x % TWO_32 + y);
  }

  lemma Wraps(q: nat, r: nat)
    ensures (q * TWO_32 + r) % TWO_32 == r % TWO_32
  {
    var q2 := r / TWO_32;
    assert q * TWO_32 + r == (q + q2) * TWO_32 + r % TWO_32;
  }

  lemma AddFour(a: u32, b: u32, c: u32, d: u32)
    ensures WrappingAdd(WrappingAdd(WrappingAdd(a, b), c), d) == (a + b + c + d) % TWO_32
  {
    AddAgain(a + b, c);
    AddAgain(a + b + c, d);
  }

  lemma AddReversed(a: u32, b: u32, c: u32, d: u32)
    ensures WrappingAdd(WrappingAdd(WrappingAdd(a, b), c), d) == WrappingAdd(WrappingAdd(WrappingAdd(d, c), b), a)
  {
    AddFour(a, b, c, d);
    AddFour(d, c, b, a);
  }

  /** The two temporary values of a round. */
  method Temporaries(v: array<u32>, k: u32, w: u32) returns (t1: u32, t2: u32)
    requires v.Length == 8
    ensures t1 == Temporary1(v[4], v[5], v[6], v[7], k, w) && t2 == Temporary2(v[0], v[1], v[2])
  {
    var s1 := Xor(Xor(RotateRight(v[4], 6), RotateRight(v[4], 11)), RotateRight(v[4], 25));
    var ch := Xor(And(v[4], v[5]), And(Not(v[4]), v[6]));
    t1 := WrappingAdd(WrappingAdd(WrappingAdd(WrappingAdd(v[7], s1), ch), k), w);
    var s0 := Xor(Xor(RotateRight(v[0], 2), RotateRight(v[0], 13)), RotateRight(v[0], 22));
    var maj := Xor(Xor(And(v[0], v[1]), And(v[0], v[2])), And(v[1], v[2]));
    t2 := WrappingAdd(s0, maj);
  }

  /** One turn of the compression loop, on the working variables in place. */
  method RoundInPlace(v: array<u32>, k: u32, w: u32, ghost r: Regs)
    requires v[..] == Words(r)
    modifies v
    ensures v[..] == Words(Round(r, k, w))
  {
    var t1, t2 := Temporaries(v, k, w);
    v[7] := v[6];
    v[6] := v[5];
    v[5] := v[4];
    v[4] := WrappingAdd(v[3], t1);
    v[3] := v[2];
    v[2] := v[1];
    v[1] := v[0];
    v[0] := WrappingAdd(t1, t2);
  }

  /** One chunk: schedule, 64 rounds on a copy, and the sum back into the hash value, in place. */
  method CompressInPlace(h: array<u32>, chunk: seq<u8>, ghost r: Regs)
    requires h[..] == Words(r) && |chunk| == 64
    modifies h
    ensures h[..] == Words(Compress(r, chunk))
  {
    var w := MessageSchedule(chunk);
    var v := new u32[8](i requires 0 <= i < h.Length reads h => h[i]);
    for i := 0 to 64
      invariant v[..] == Words(Rounds(r, chunk, i)) && h[..] == Words(r)
      invariant Filled(w[..], chunk)
    {
      RoundInPlace(v, C.K(i), w[i], Rounds(r, chunk, i));
    }
    AddInto(h, v, r, Rounds(r, chunk, 64));
  }

  method AddInto(h: array<u32>, v: array<u32>, ghost x: Regs, ghost y: Regs)
    requires h != v && h[..] == Words(x) && v[..] == Words(y)
    modifies h
    ensures h[..] == Words(Sum(x, y))
  {
    for i := 0 to 8
      invariant h.Length == 8 && v[..] == Words(y)
      invariant forall j :: 0 <= j < i ==> h[j] == WrappingAdd(Words(x)[j], Words(y)[j])
      invariant forall j :: i <= j < 8 ==> h[j] == Words(x)[j]
    {
      h[i] := WrappingAdd(h[i], v[i]);
    }
  }

  lemma PaddedLength(data: seq<u8>, bitLength: nat)
    ensures |PaddedWith(data, bitLength)| % 64 == 0
  {
  }

  /** `sha256::digest`, for input of any length. */
  method Digest(data: seq<u8>) returns (out: string)
    ensures out == Hex(Words(HashValue(PaddedWith(data, BitLength(data)))))
    ensures 8 * |data| < TWO_64 ==> out == Standard(data)
  {
    var msg := Pad(data);
    PaddedLength(data, BitLength(data));
    var h := HashInPlace(msg);
    out := HexOf(h[..]);
    NoWrapAround(data);
  }

  method HashInPlace(msg: seq<u8>) returns (h: array<u32>)
    requires |msg| % 64 == 0
    ensures fresh(h) && h[..] == Words(HashValue(msg))
  {
    h := new u32[8](i requires 0 <= i < 8 => C.H_TABLE[i]);
    for i := 0 to |msg| / 64
      invariant h[..] == Words(HashValue(msg[..64*i]))
    {
      var chunk := msg[64*i..64*i+64];
      ghost var upTo := msg[..64*(i+1)];
      assert upTo[..64*i] == msg[..64*i] && upTo[64*i..] == chunk;
      CompressInPlace(h, chunk, HashValue(msg[..64*i]));
    }
    assert msg[..64*(|msg|/64)] == msg;
  }

  method HexOf(words: seq<u32>) returns (out: string)
    ensures out == Hex(words)
  {
    out := "";
    for i := 0 to |words|
      invariant out == Hex(words[..i])
    {
      assert words[..i+1][..i] == words[..i];
      out := out + HexDigits(words[i], 8);
    }
    assert words[..|words|] == words;
  }

  // ---------------------------------------------------------------------------------------------
  // What the standard's padding and the output form guarantee
  // ---------------------------------------------------------------------------------------------

  lemma {:induction false} BeReadsBack(n: nat, count: nat)
    requires n < Pow2(8 * count)
    ensures FromBe(BeBytes(n, count)) == n
  {
    if count > 0 {
      Pow2Of8(8 * count - 8);
      BeReadsBack(n / 256, count - 1);
    }
  }

  lemma Pow2Of8(n: nat)
    ensures Pow2(n + 8) == 256 * Pow2(n)
  {
    Pow2Of4(n);
    Pow2Of4(n + 4);
  }

  lemma Pow2Of4(n: nat)
    ensures Pow2(n + 4) == 16 * Pow2(n)
  {
    assert Pow2(n + 1) == 2 * Pow2(n);
    assert Pow2(n + 2) == 2 * Pow2(n + 1);
    assert Pow2(n + 3) == 2 * Pow2(n + 2);
  }

  function StripZeros(s: seq<u8>): seq<u8> {
    if s != [] && s[|s|-1] == 0 then StripZeros(s[..|s|-1]) else s
  }

  /** Undoes padding: drop the length field, the zeros, and the one marker byte. */
  function Unpadded(msg: seq<u8>): seq<u8> {
    var rest := StripZeros(msg[..if |msg| < 8 then 0 else |msg| - 8]);
    rest[..if rest == [] then 0 else |rest| - 1]
  }

  lemma {:induction false} StripAppended(s: seq<u8>, n: nat)
    requires s != [] && s[|s|-1] != 0
    ensures StripZeros(s + Zeros(n)) == s
  {
    if n == 0 {
      assert s + Zeros(0) == s;
    } else {
      assert (s + Zeros(n))[..|s| + n - 1] == s + Zeros(n - 1);
      StripAppended(s, n - 1);
    }
  }

  /**
    Padding fills whole blocks with fewer than 64 zero bytes, ends in the bit length, and can be undone;
    so no two inputs are padded to the same message, whatever their length.
  */
  lemma PaddingReadsBack(data: seq<u8>, bitLength: nat)
    ensures var msg := PaddedWith(data, bitLength);
      && |msg| % 64 == 0 && |msg| < |data| + 73
      && Unpadded(msg) == data
      && (bitLength < TWO_64 ==> FromBe(msg[|msg|-8..]) == bitLength)
  {
    var msg := PaddedWith(data, bitLength);
    var marked := data + [0x80];
    PaddedLength(data, bitLength);
    assert msg[..|msg|-8] == marked + Zeros(ZeroCount(|data|));
    assert msg[|msg|-8..] == BeBytes(bitLength, 8);
    StripAppended(marked, ZeroCount(|data|));
    if bitLength < TWO_64 {
      Pow2Of64();
      BeReadsBack(bitLength, 8);
    }
  }

  lemma Pow2Of64()
    ensures Pow2(64) == TWO_64
  {
    Pow2Of32();
    Pow2Of8(32);
    Pow2Of8(40);
    Pow2Of8(48);
    Pow2Of8(56);
  }

  lemma PaddingIsInjective(a: seq<u8>, b: seq<u8>)
    requires PaddedWith(a, BitLength(a)) == PaddedWith(b, BitLength(b))
    ensures a == b
  {
    PaddingReadsBack(a, BitLength(a));
    PaddingReadsBack(b, BitLength(b));
  }

  function DigitOf(c: char): nat { if '0' <= c <= '9' then (c - '0') as nat else if 'a' <= c <= 'f' then (c - 'a') as nat + 10 else 0 }

  function FromHex(s: string): nat {
    if s == [] then 0 else 16 * FromHex(s[..|s|-1]) + DigitOf(s[|s|-1])
  }

  predicate IsLowerHex(c: char) { '0' <= c <= '9' || 'a' <= c <= 'f' }

  predicate AllLowerHex(s: string) {
    forall i :: 0 <= i < |s| ==> IsLowerHex(s[i])
  }

  function Pow16(n: nat): nat { if n == 0 then 1 else 16 * Pow16(n - 1) }

  lemma DigitReadsBack(d: nat)
    requires d < 16
    ensures DigitOf(HexDigit(d)) == d && IsLowerHex(HexDigit(d))
  {
  }

  lemma {:induction false} HexReadsBack(n: nat, count: nat)
    requires n < Pow16(count)
    ensures FromHex(HexDigits(n, count)) == n && AllLowerHex(HexDigits(n, count))
  {
    if count > 0 {
      DigitReadsBack(n % 16);
      HexReadsBack(n / 16, count - 1);
    }
  }

  /** The eight digits of word `i`. */
  function TextOf(text: string, i: nat): string
    requires 8 * i + 8 <= |text|
  {
    text[8*i..8*i+8]
  }

  lemma TextInFront(front: string, last: string, i: nat)
    requires 8 * i + 8 <= |front|
    ensures TextOf(front + last, i) == TextOf(front, i)
  {
  }

  lemma TextAtEnd(front: string, last: string, i: nat)
    requires |front| == 8 * i && |last| == 8
    ensures TextOf(front + last, i) == last
  {
  }

  /** The eight words can be read back from the text, digit by digit. */
  lemma {:induction false} TextReadsBack(words: seq<u32>, i: nat)
    requires i < |words|
    ensures |Hex(words)| == 8 * |words|
    ensures FromHex(TextOf(Hex(words), i)) == words[i] && AllLowerHex(TextOf(Hex(words), i))
  {
    var front, last := words[..|words|-1], words[|words|-1];
    HexLength(front);
    if i < |front| {
      TextReadsBack(front, i);
      TextInFront(Hex(front), HexDigits(last, 8), i);
    } else {
      assert Pow16(4) == 0x1_0000;
      assert Pow16(8) == TWO_32;
      HexReadsBack(last, 8);
      TextAtEnd(Hex(front), HexDigits(last, 8), i);
    }
  }

  lemma {:induction false} HexLength(words: seq<u32>)
    ensures |Hex(words)| == 8 * |words|
  {
    if words != [] {
      HexLength(words[..|words|-1]);
    }
  }

  /** A digest is 64 lower-case hexadecimal digits, and they determine the hash value. */
  lemma DigestText(r: Regs)
    ensures |Hex(Words(r))| == 64 && AllLowerHex(Hex(Words(r)))
    ensures forall i :: 0 <= i < 8 ==> FromHex(TextOf(Hex(Words(r)), i)) == Words(r)[i]
  {
    var words := Words(r);
    HexLength(words);
    forall i | 0 <= i < 8 ensures FromHex(TextOf(Hex(words), i)) == words[i] && AllLowerHex(TextOf(Hex(words), i)) {
      TextReadsBack(words, i);
    }
    forall j | 0 <= j < 64 ensures IsLowerHex(Hex(words)[j]) {
      assert AllLowerHex(TextOf(Hex(words), j / 8));
      assert Hex(words)[j] == TextOf(Hex(words), j / 8)[j % 8];
    }
  }
}
