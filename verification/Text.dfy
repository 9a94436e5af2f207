/**
  Text built from parts: numbers in decimal, and fields joined by a separator. The lemmas say when the
  parts can be read back from the whole.
*/
module Text {
  function Digit(d: nat): char
    requires d < 10
  {
    '0' + d as char
  }

  /** The decimal form of a number. */
  function Decimal(n: nat): string {
    if n < 10 then [Digit(n)] else Decimal(n / 10) + [Digit(n % 10)]
  }

  function FromDecimal(s: string): int {
    if s == [] then 0 else 10 * FromDecimal(s[..|s|-1]) + (s[|s|-1] as int - '0' as int)
  }

  lemma {:induction false} DecimalHasNo(n: nat, c: char)
    requires !('0' <= c <= '9')
    ensures c !in Decimal(n)
  {
    if n >= 10 {
      DecimalHasNo(n / 10, c);
    }
  }

  lemma {:induction false} DecimalReadsBack(n: nat)
    ensures FromDecimal(Decimal(n)) == n
  {
    if n < 10 {
      assert [Digit(n)][..0] == [];
    } else {
      DecimalReadsBack(n / 10);
      assert Decimal(n)[..|Decimal(n)|-1] == Decimal(n / 10);
    }
  }

  lemma {:induction false} DecimalIsInjective(m: nat, n: nat)
    ensures Decimal(m) == Decimal(n) ==> m == n
  {
    DecimalReadsBack(m);
    DecimalReadsBack(n);
  }

  // ---- one separator ----

  /** What precedes the first separator is determined by the whole. */
  lemma SplitFirst(sep: char, a: string, b: string, c: string, d: string)
    requires sep !in a && sep !in c && a + [sep] + b == c + [sep] + d
    ensures a == c && b == d
  {
    var s, t := a + [sep] + b, c + [sep] + d;
    assert s[|a|] == sep && t[|c|] == sep;
    forall i | 0 <= i < |a| ensures s[i] != sep {
      assert s[i] == a[i];
    }
    forall i | 0 <= i < |c| ensures t[i] != sep {
      assert t[i] == c[i];
    }
    assert s[..|a|] == a && t[..|c|] == c;
    assert s[|a|+1..] == b && t[|c|+1..] == d;
  }

  /** So is what follows the last one. */
  lemma SplitLast(sep: char, a: string, b: string, c: string, d: string)
    requires sep !in b && sep !in d && a + [sep] + b == c + [sep] + d
    ensures a == c && b == d
  {
    var s, t := a + [sep] + b, c + [sep] + d;
    assert s[|a|] == sep && t[|c|] == sep;
    forall i | |a| < i < |s| ensures s[i] != sep {
      assert s[i] == b[i-|a|-1];
    }
    forall i | |c| < i < |t| ensures t[i] != sep {
      assert t[i] == d[i-|c|-1];
    }
    assert s[..|a|] == a && t[..|c|] == c;
    assert s[|a|+1..] == b && t[|c|+1..] == d;
  }

  /** With only one separator there is only one way to split. */
  lemma SplitOnly(sep: char, a: string, b: string, c: string, d: string)
    requires sep !in a && sep !in b && a + [sep] + b == c + [sep] + d
    ensures a == c && b == d
  {
    var s, t := a + [sep] + b, c + [sep] + d;
    assert s[|a|] == sep && t[|c|] == sep;
    forall i | 0 <= i < |s| && i != |a| ensures s[i] != sep {
      assert s[i] == if i < |a| then a[i] else b[i-|a|-1];
    }
    assert s[..|a|] == a && t[..|c|] == c;
    assert s[|a|+1..] == b && t[|c|+1..] == d;
  }

  // ---- fields joined by bars ----

  function JoinBars(fields: seq<string>): string {
    if fields == [] then []
    else if |fields| == 1 then fields[0]
    else JoinBars(fields[..|fields|-1]) + ['|'] + fields[|fields|-1]
  }

  lemma {:induction false} JoinAppend(front: seq<string>, last: string)
    requires front != []
    ensures JoinBars(front + [last]) == JoinBars(front) + ['|'] + last
  {
    assert (front + [last])[..|front|] == front;
  }

  lemma {:induction false} JoinConcat(a: seq<string>, b: seq<string>)
    requires a != [] && b != []
    ensures JoinBars(a + b) == JoinBars(a) + ['|'] + JoinBars(b)
    decreases |b|
  {
    var last := b[|b|-1];
    if |b| == 1 {
      assert b == [last];
      JoinAppend(a, last);
    } else {
      var front := b[..|b|-1];
      assert a + b == (a + front) + [last] && b == front + [last];
      JoinAppend(a + front, last);
      JoinConcat(a, front);
      JoinAppend(front, last);
      var x, y := JoinBars(a), JoinBars(front);
      assert ((x + ['|'] + y) + ['|'] + last) == x + ['|'] + (y + ['|'] + last);
    }
  }

  function Concatenated(groups: seq<seq<string>>): seq<string> {
    if groups == [] then [] else Concatenated(groups[..|groups|-1]) + groups[|groups|-1]
  }

  lemma {:induction false} LastGroup(groups: seq<seq<string>>, fields: seq<string>, n: nat)
    requires |fields| == |groups| == n + 1
    ensures Concatenated(groups) == Concatenated(groups[..n]) + groups[n] && fields == fields[..n] + [fields[n]]
    ensures n == 0 ==> Concatenated(groups) == groups[0] && JoinBars(fields) == fields[0]
  {
    assert [] + groups[n] == groups[n];
  }

  /** A field that is itself joined by bars is the same as its parts. */
  lemma {:induction false} JoinOfJoins(groups: seq<seq<string>>, fields: seq<string>)
    requires |fields| == |groups| && forall i :: 0 <= i < |groups| ==> groups[i] != [] && fields[i] == JoinBars(groups[i])
    ensures JoinBars(fields) == JoinBars(Concatenated(groups))
    ensures groups != [] ==> Concatenated(groups) != []
    decreases |groups|
  {
    if groups != [] {
      var n := |groups| - 1;
      JoinOfJoins(groups[..n], fields[..n]);
      LastGroup(groups, fields, n);
      if n > 0 {
        JoinAppend(fields[..n], fields[n]);
        JoinConcat(Concatenated(groups[..n]), groups[n]);
      }
    }
  }

  /** Equal texts with the same last field, neither holding a bar, are equal before it too. */
  lemma {:induction false} DropLastField(a: seq<string>, b: seq<string>, x: string, y: string)
    requires a != [] && b != [] && JoinBars(a + [x]) == JoinBars(b + [y])
    requires '|' !in x && '|' !in y
    ensures x == y && JoinBars(a) == JoinBars(b)
  {
    JoinAppend(a, x);
    JoinAppend(b, y);
    SplitLast('|', JoinBars(a), x, JoinBars(b), y);
  }

  lemma {:induction false} DropFirstField(x: string, y: string, a: seq<string>, b: seq<string>)
    requires a != [] && b != [] && JoinBars([x] + a) == JoinBars([y] + b)
    requires '|' !in x && '|' !in y
    ensures x == y && JoinBars(a) == JoinBars(b)
  {
    JoinConcat([x], a);
    JoinConcat([y], b);
    SplitFirst('|', x, JoinBars(a), y, JoinBars(b));
  }
}
