/** Reading a rendered candidate block back: the delimiters are the only marks in it. */
module FramingScan {
  import opened Wrappers
  import opened Sequences
  import opened Text
  import opened Framing

  predicate StartsMark(s: string) { Triple(s, '<') }

  /** Where the first `<<<` is; the length when there is none. */
  function FirstMark(s: string): (n: nat)
    ensures n <= |s|
  {
    if s == [] || StartsMark(s) then 0 else 1 + FirstMark(s[1..])
  }

  predicate NoMark(s: string) { FirstMark(s) == |s| }

  /** What is found when reading on to the next mark: none, something unexpected, or `delim` on its line. */
  datatype Cut = End | Unexpected | At(before: string, after: string)

  function NextDelim(s: string, delim: string): Cut {
    CutAt(s, FirstMark(s), delim)
  }

  function CutAt(s: string, i: nat, delim: string): Cut
    requires i <= |s|
  {
    if i == |s| then End
    else if !StartsWith(s[i..], delim + "\n") then Unexpected
    else At(s[..i], s[i + |delim| + 1..])
  }

  /**
    A strict reader: from mark to mark, each must be the next expected delimiter, the close on a line of
    its own; what is between an open and its close is a candidate. Text outside delimiters is skipped.
  */
  function Scan(s: string, n: nat): Option<seq<string>>
    decreases |s|
  {
    match NextDelim(s, OpenDelim(n))
    case End => Some([])
    case Unexpected => None
    case At(_, body) =>
      match NextDelim(body, CloseDelim(n))
      case At(content, rest) =>
        if content == [] || content[|content|-1] != '\n' then None
        else
          (match Scan(rest, n + 1)
           case None => None
           case Some(more) => Some([content[..|content|-1]] + more))
      case _ => None
  }

  function Sanitized(candidates: seq<string>): (r: seq<string>)
    ensures |r| == |candidates|
    ensures forall i :: 0 <= i < |r| ==> r[i] == Sanitize(candidates[i])
  {
    if candidates == [] then [] else [Sanitize(candidates[0])] + Sanitized(candidates[1..])
  }

  lemma {:induction false} NoMarkIffNoTriple(s: string)
    ensures NoMark(s) <==> !HasTriple(s, '<')
  {
    if s != [] {
      NoMarkIffNoTriple(s[1..]);
    }
  }

  /** Text that does not end in `<` neither hides nor makes a mark at the seam. */
  lemma {:induction false} FirstMarkConcat(a: string, b: string)
    requires a != [] ==> a[|a|-1] != '<'
    ensures FirstMark(a + b) == if FirstMark(a) < |a| then FirstMark(a) else |a| + FirstMark(b)
  {
    if a == [] {
      assert a + b == b;
    } else {
      assert (a + b)[1..] == a[1..] + b;
      if !StartsMark(a) {
        FirstMarkConcat(a[1..], b);
      }
    }
  }

  /** How many marks there are, counted from the left without overlap. */
  function Marks(s: string): nat
    decreases |s|
  {
    if s == [] then 0 else if StartsMark(s) then 1 + Marks(s[3..]) else Marks(s[1..])
  }

  lemma DropDrop(s: string, i: nat, j: nat)
    requires i + j <= |s|
    ensures s[i..][j..] == s[i+j..]
  {
  }

  lemma DropConcat(a: string, b: string, k: nat)
    requires k <= |b|
    ensures (a + b)[|a| + k..] == b[k..]
  {
  }

  lemma {:induction false} MarksFrom(s: string)
    requires FirstMark(s) < |s|
    ensures FirstMark(s) + 3 <= |s| && Marks(s) == 1 + Marks(s[FirstMark(s)+3..])
  {
    if !StartsMark(s) {
      MarksFrom(s[1..]);
      DropDrop(s, 1, FirstMark(s[1..]) + 3);
    }
  }

  lemma {:induction false} MarksConcat(a: string, b: string)
    requires a != [] ==> a[|a|-1] != '<'
    ensures Marks(a + b) == Marks(a) + Marks(b)
    decreases |a|
  {
    if a == [] {
      assert a + b == b;
    } else if StartsMark(a) {
      assert (a + b)[3..] == a[3..] + b;
      MarksConcat(a[3..], b);
    } else {
      assert (a + b)[1..] == a[1..] + b;
      MarksConcat(a[1..], b);
    }
  }

  lemma {:induction false} NoLtNoMark(s: string)
    requires '<' !in s
    ensures NoMark(s) && Marks(s) == 0
  {
    if s != [] {
      NoLtNoMark(s[1..]);
    }
  }

  lemma {:induction false} NoMarkNoMarks(s: string)
    ensures Marks(s) == 0 <==> NoMark(s)
  {
    if s != [] && !StartsMark(s) {
      NoMarkNoMarks(s[1..]);
    }
  }

  // ---- one framed candidate ----

  lemma DelimsAreMarks(n: nat)
    ensures PlainTail(OpenDelim(n)) && PlainTail(CloseDelim(n))
    ensures StartsMark(OpenDelim(n)) && StartsMark(CloseDelim(n))
  {
    OpenIsMark(n);
    CloseIsMark(n);
  }

  lemma OpenIsMark(n: nat)
    ensures PlainTail(OpenDelim(n)) && StartsMark(OpenDelim(n))
  {
    DecimalHasNo(n, '<');
    assert OpenDelim(n)[3..] == "CANDIDATE " + Decimal(n) + ">>>";
  }

  lemma CloseIsMark(n: nat)
    ensures PlainTail(CloseDelim(n)) && StartsMark(CloseDelim(n))
  {
    DecimalHasNo(n, '<');
    assert CloseDelim(n)[3..] == "END CANDIDATE " + Decimal(n) + ">>>";
  }

  /** Text without marks, then a delimiter on its line: that is where the reader stops next. */
  lemma {:induction false} NextDelimIs(before: string, delim: string, after: string)
    requires FirstMark(before + (delim + "\n" + after)) == |before| && StartsMark(delim)
    ensures NextDelim(before + (delim + "\n" + after), delim) == At(before, after)
  {
    var s := before + (delim + "\n" + after);
    assert s[|before|..] == delim + "\n" + after;
    assert s[..|before|] == before;
    assert s[|before| + |delim| + 1..] == after;
  }

  lemma {:induction false} ScanStep(s: string, n: nat, before: string, body: string, content: string, rest: string)
    requires NextDelim(s, OpenDelim(n)) == At(before, body)
    requires NextDelim(body, CloseDelim(n)) == At(content + "\n", rest)
    ensures Scan(s, n) ==
      match Scan(rest, n + 1)
      case None => None
      case Some(more) => Some([content] + more)
  {
    assert (content + "\n")[..|content|] == content;
  }

  /** A block opened and closed around text without marks reads back as that text. */
  lemma {:induction false} ScanOne(n: nat, content: string, rest: string)
    requires NoMark(content)
    ensures Scan("\n" + (OpenDelim(n) + "\n" + ((content + "\n") + (CloseDelim(n) + "\n" + rest))), n) ==
      match Scan(rest, n + 1)
      case None => None
      case Some(more) => Some([content] + more)
  {
    DelimsAreMarks(n);
    var closed := CloseDelim(n) + "\n" + rest;
    var body := (content + "\n") + closed;
    ContentThenClose(content, closed);
    NextDelimIs(content + "\n", CloseDelim(n), rest);
    NoLtNoMark("\n");
    FirstMarkConcat("\n", OpenDelim(n) + "\n" + body);
    NextDelimIs("\n", OpenDelim(n), body);
    ScanStep("\n" + (OpenDelim(n) + "\n" + body), n, "\n", body, content, rest);
  }

  lemma {:induction false} ContentThenClose(content: string, rest: string)
    requires NoMark(content) && StartsMark(rest)
    ensures FirstMark(content + "\n" + rest) == |content| + 1
  {
    NoMarkIffNoTriple(content);
    NewlineAddsNoTriple(content);
    NoMarkIffNoTriple(content + "\n");
    FirstMarkConcat(content + "\n", rest);
  }

  lemma {:induction false} NewlineAddsNoTriple(s: string)
    ensures HasTriple(s + "\n", '<') ==> HasTriple(s, '<')
  {
    if s == [] {
      assert s + "\n" == "\n" && "\n"[1..] == [];
    } else {
      assert (s + "\n")[1..] == s[1..] + "\n";
      NewlineAddsNoTriple(s[1..]);
    }
  }

  lemma FramedShape(open: string, content: string, close: string, rest: string)
    ensures "\n" + open + "\n" + content + "\n" + close + "\n" + rest
         == "\n" + (open + "\n" + ((content + "\n") + (close + "\n" + rest)))
  {
  }

  lemma {:induction false} ScanParts(n: nat, candidates: seq<string>)
    ensures Scan(Parts(n, candidates), n) == Some(Sanitized(candidates))
    decreases |candidates|
  {
    if candidates != [] {
      var rest := Parts(n + 1, candidates[1..]);
      ScanParts(n + 1, candidates[1..]);
      SanitizedHasNoMarks(candidates[0]);
      NoMarkIffNoTriple(Sanitize(candidates[0]));
      ScanOne(n, Sanitize(candidates[0]), rest);
      FramedShape(OpenDelim(n), Sanitize(candidates[0]), CloseDelim(n), rest);
    }
  }

  // ---- counting marks ----

  /** What a successful reading says about the number of marks: two for each candidate read. */
  lemma {:induction false} ScanCountsMarks(s: string, n: nat)
    requires Scan(s, n).Some?
    ensures Marks(s) == 2 * |Scan(s, n).value|
    decreases |s|
  {
    DelimsAreMarks(n);
    match NextDelim(s, OpenDelim(n))
    case End => NoMarkNoMarks(s);
    case At(_, body) =>
      DelimCounts(s, OpenDelim(n));
      DelimCounts(body, CloseDelim(n));
      ScanCountsMarks(NextDelim(body, CloseDelim(n)).after, n + 1);
  }

  /** Nothing after its first three characters can start a mark. */
  predicate PlainTail(delim: string) {
    |delim| >= 3 && '<' !in delim[3..]
  }

  lemma {:induction false} DelimCounts(s: string, delim: string)
    requires NextDelim(s, delim).At? && PlainTail(delim)
    ensures Marks(s) == 1 + Marks(NextDelim(s, delim).after)
  {
    MarksFrom(s);
    AfterDelim(s, FirstMark(s), delim);
  }

  /** Behind the three characters of a mark a delimiter line has no further mark. */
  lemma AfterDelim(s: string, i: nat, delim: string)
    requires i + 3 <= |s| && PlainTail(delim) && CutAt(s, i, delim).At?
    ensures Marks(s[i+3..]) == Marks(CutAt(s, i, delim).after)
  {
    var line := delim[3..] + "\n";
    var rest := s[i + |delim| + 1..];
    assert s[i..] == delim + "\n" + rest;
    assert s[i+3..] == s[i..][3..] == line + rest;
    NoLtNoMark(line);
    MarksConcat(line, rest);
  }

  lemma {:induction false} FramedMarks(n: nat, candidates: seq<string>)
    ensures Marks(Parts(n, candidates)) == 2 * |candidates|
  {
    ScanParts(n, candidates);
    ScanCountsMarks(Parts(n, candidates), n);
  }

  lemma {:induction false} TriplePrefix(a: string, b: string, c: char)
    ensures HasTriple(b, c) ==> HasTriple(a + b, c)
    ensures HasTriple(a, c) ==> HasTriple(a + b, c)
  {
    if a == [] {
      assert a + b == b;
    } else {
      assert (a + b)[1..] == a[1..] + b;
      TriplePrefix(a[1..], b, c);
    }
  }

  /** Around a text, lines without `<` add no mark and hide none. */
  lemma {:induction false} SurroundedMarks(before: string, text: string, after: string)
    requires '<' !in before && '<' !in after && after != [] && after[0] == '\n'
    ensures NoMark(before + text + after) <==> !HasTriple(text, '<')
  {
    assert before + text + after == before + (text + after);
    NoLtNoMark(before);
    NoLtNoMark(after);
    FirstMarkConcat(before, text + after);
    SeamAfter(text, after);
    TriplePrefix(text, after, '<');
    NoMarkIffNoTriple(text + after);
    NoMarkIffNoTriple(text);
  }

  /** Text without marks before a line feed makes none with it. */
  lemma SeamAfter(a: string, b: string)
    requires b != [] && b[0] == '\n'
    ensures NoMark(a) && NoMark(b) ==> NoMark(a + b)
  {
    if NoMark(a) && NoMark(b) {
      NoMarkIffNoTriple(a);
      NoMarkIffNoTriple(a + "\n");
      NewlineAddsNoTriple(a);
      assert b == "\n" + b[1..];
      assert FirstMark(b) == 1 + FirstMark(b[1..]);
      assert a + b == (a + "\n") + b[1..];
      FirstMarkConcat(a + "\n", b[1..]);
    }
  }

  /**
    Framing round trip, exactly: for any number of candidates, whatever they contain, reading the
    rendered block gives back the sanitized candidates in order if and only if the original request
    text has no `<<<`. The block itself does not sanitize that text.
  */
  lemma {:induction false} FramingRoundTrip(original: string, candidates: seq<string>)
    ensures Scan(Block(original, candidates), 1) == Some(Sanitized(candidates)) <==> !HasTriple(original, '<')
  {
    var head := REQUEST_HEADER + original + ANSWERS_HEADER;
    var parts := Parts(1, candidates);
    RequestHeaderIsPlain();
    AnswersHeaderIsPlain();
    SurroundedMarks(REQUEST_HEADER, original, ANSWERS_HEADER);
    LastOfConcat(REQUEST_HEADER + original, ANSWERS_HEADER);
    ScanParts(1, candidates);
    FramedMarks(1, candidates);
    MarksConcat(head, parts);
    NoMarkNoMarks(head);
    if !HasTriple(original, '<') {
      ScanSkipsHead(head, parts, 1);
    } else if Scan(head + parts, 1) == Some(Sanitized(candidates)) {
      ScanCountsMarks(head + parts, 1);
      assert false;
    }
  }

  /** A request text that copies a delimiter is enough: the candidate behind it is not read back. */
  lemma {:induction false} CopiedDelimiterBreaksScan()
    ensures Scan(Block("<<<CANDIDATE 1>>>", ["yes"]), 1) != Some(Sanitized(["yes"]))
  {
    FramingRoundTrip("<<<CANDIDATE 1>>>", ["yes"]);
    assert "<<<CANDIDATE 1>>>"[0] == '<';
  }

  lemma LastOfConcat(a: string, b: string)
    requires b != []
    ensures (a + b)[|a + b| - 1] == b[|b|-1]
  {
  }

  lemma {:induction false} ScanSkipsHead(head: string, parts: string, n: nat)
    requires head != [] && head[|head|-1] != '<' && NoMark(head)
    ensures Scan(head + parts, n) == Scan(parts, n)
  {
    FirstMarkConcat(head, parts);
    SameDelim(head, parts, OpenDelim(n));
  }

  lemma {:induction false} SameDelim(head: string, parts: string, delim: string)
    requires FirstMark(head + parts) == |head| + FirstMark(parts)
    ensures var a, b := NextDelim(head + parts, delim), NextDelim(parts, delim);
      (a.End? <==> b.End?) && (a.At? <==> b.At?) && (a.At? ==> a.after == b.after)
  {
    var i := FirstMark(parts);
    DropConcat(head, parts, i);
    if i + |delim| + 1 <= |parts| {
      DropConcat(head, parts, i + |delim| + 1);
    }
  }
}
