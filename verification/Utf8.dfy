/** UTF-8 as the standard library's strict decoder accepts it (sections 3 and 4 of RFC 3629). */
module Utf8 {
  newtype u8 = x: int | 0 <= x < 256

  predicate Cont(b: u8) { 0x80 <= b <= 0xBF }

  /** The length of the well-formed sequence at the head of `s`, or 0 when there is none. */
  function HeadLength(s: seq<u8>): (n: nat)
    ensures n <= |s| && n <= 4
  {
    if |s| >= 1 && s[0] <= 0x7F then 1
    else if |s| >= 2 && 0xC2 <= s[0] <= 0xDF && Cont(s[1]) then 2
    else if |s| >= 3 && 0xE0 <= s[0] <= 0xEF && Cont(s[1]) && Cont(s[2])
      && (s[0] == 0xE0 ==> s[1] >= 0xA0) && (s[0] == 0xED ==> s[1] <= 0x9F) then 3
    else if |s| >= 4 && 0xF0 <= s[0] <= 0xF4 && Cont(s[1]) && Cont(s[2]) && Cont(s[3])
      && (s[0] == 0xF0 ==> s[1] >= 0x90) && (s[0] == 0xF4 ==> s[1] <= 0x8F) then 4
    else 0
  }

  predicate Valid(s: seq<u8>)
    decreases |s|
  {
    s == [] || (HeadLength(s) > 0 && Valid(s[HeadLength(s)..]))
  }

  function HeadChar(s: seq<u8>): char
    requires HeadLength(s) > 0
  {
    var b := (i: int) requires 0 <= i < |s| => s[i] as int;
    match HeadLength(s)
    case 1 => b(0) as char
    case 2 => ((b(0) - 0xC0) * 64 + (b(1) - 0x80)) as char
    case 3 => ((b(0) - 0xE0) * 4096 + (b(1) - 0x80) * 64 + (b(2) - 0x80)) as char
    case _ => ((b(0) - 0xF0) * 262144 + (b(1) - 0x80) * 4096 + (b(2) - 0x80) * 64 + (b(3) - 0x80)) as char
  }

  function Decode(s: seq<u8>): string
    requires Valid(s)
    decreases |s|
  {
    if s == [] then [] else [HeadChar(s)] + Decode(s[HeadLength(s)..])
  }

  function EncodeChar(c: char): seq<u8> {
    var n := c as int;
    if n < 0x80 then [n as u8]
    else if n < 0x800 then [(0xC0 + n / 64) as u8, (0x80 + n % 64) as u8]
    else if n < 0x10000 then [(0xE0 + n / 4096) as u8, (0x80 + n / 64 % 64) as u8, (0x80 + n % 64) as u8]
    else [(0xF0 + n / 262144) as u8, (0x80 + n / 4096 % 64) as u8, (0x80 + n / 64 % 64) as u8, (0x80 + n % 64) as u8]
  }

  function Encode(s: string): seq<u8> {
    if s == [] then [] else EncodeChar(s[0]) + Encode(s[1..])
  }

  /** A byte below 0x80 is always a character of its own, so it splits a stream without changing validity. */
  lemma {:induction false} AsciiSplits(a: seq<u8>, b: u8, c: seq<u8>)
    requires b <= 0x7F
    ensures Valid(a + [b] + c) <==> Valid(a) && Valid(c)
    decreases |a|
  {
    var s := a + [b] + c;
    if a == [] {
      assert s[1..] == c;
    } else {
      var k := HeadLength(s);
      assert s[|a|] == b && !Cont(b);
      if k > 0 {
        assert k <= |a|;
        assert HeadLength(a) == k;
        assert s[k..] == a[k..] + [b] + c;
        AsciiSplits(a[k..], b, c);
      } else {
        assert HeadLength(a) == 0 || HeadLength(a) == k;
      }
    }
  }

  lemma Split64(n: nat)
    ensures n == n / 64 * 64 + n % 64
    ensures n / 4096 == n / 64 / 64 && n / 262144 == n / 4096 / 64
  {
  }

  lemma EncodeCharDecodes(c: char, rest: seq<u8>)
    ensures HeadLength(EncodeChar(c) + rest) == |EncodeChar(c)| && HeadChar(EncodeChar(c) + rest) == c
  {
    var n := c as int;
    var s := EncodeChar(c) + rest;
    Split64(n);
    Split64(n / 64);
    Split64(n / 4096);
    if n < 0x80 {
      assert s[0] as int == n;
    } else if n < 0x800 {
      assert s[0] as int == 0xC0 + n / 64 && s[1] as int == 0x80 + n % 64;
    } else if n < 0x10000 {
      ThreeBytes(c, rest);
    } else {
      FourBytes(c, rest);
    }
  }

  lemma ThreeBytes(c: char, rest: seq<u8>)
    requires 0x800 <= c as int < 0x10000
    ensures HeadLength(EncodeChar(c) + rest) == 3 && HeadChar(EncodeChar(c) + rest) == c
  {
    var n := c as int;
    var s := EncodeChar(c) + rest;
    var hi, mid, lo := n / 4096, n / 64 % 64, n % 64;
    assert n == hi * 4096 + mid * 64 + lo by {
      Split64(n);
      Split64(n / 64);
    }
    assert s[0] as int == 0xE0 + hi && s[1] as int == 0x80 + mid && s[2] as int == 0x80 + lo;
    assert Cont(s[1]) && Cont(s[2]);
    assert hi == 0 ==> mid >= 0x20;
    assert hi == 13 ==> mid < 0x20;
    assert HeadLength(s) == 3;
  }

  lemma FourBytes(c: char, rest: seq<u8>)
    requires 0x10000 <= c as int
    ensures HeadLength(EncodeChar(c) + rest) == 4 && HeadChar(EncodeChar(c) + rest) == c
  {
    var n := c as int;
    var s := EncodeChar(c) + rest;
    var top, hi, mid, lo := n / 262144, n / 4096 % 64, n / 64 % 64, n % 64;
    assert n == top * 262144 + hi * 4096 + mid * 64 + lo by {
      Split64(n);
      Split64(n / 64);
      Split64(n / 4096);
    }
    assert s[0] as int == 0xF0 + top && s[1] as int == 0x80 + hi && s[2] as int == 0x80 + mid && s[3] as int == 0x80 + lo;
    assert top <= 4;
    assert top == 0 ==> hi >= 0x10;
    assert top == 4 ==> hi < 0x10;
    assert HeadLength(s) == 4;
  }

  /** Encoding is valid and decodes back. */
  lemma {:induction false} EncodeDecodes(s: string)
    ensures Valid(Encode(s)) && Decode(Encode(s)) == s
  {
    if s != [] {
      EncodeDecodes(s[1..]);
      EncodeCharDecodes(s[0], Encode(s[1..]));
      assert Encode(s)[|EncodeChar(s[0])|..] == Encode(s[1..]);
    }
  }

  /** Below 0x80 the bytes of an encoding are exactly the characters: no line feed hides in another one. */
  lemma {:induction false} EncodeKeepsAscii(s: string, b: u8)
    requires b <= 0x7F
    ensures b in Encode(s) <==> b as int as char in s
    ensures s != [] ==> Encode(s) != []
    ensures s != [] ==> (Encode(s)[|Encode(s)|-1] == b <==> s[|s|-1] == b as int as char)
  {
    if s != [] {
      EncodeKeepsAscii(s[1..], b);
    }
  }
}
