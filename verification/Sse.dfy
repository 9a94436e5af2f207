/** The incremental SSE parser (crates/moaray-providers/src/anthropic_sse.rs). */
module Sse {
  import opened Wrappers
  import opened Sequences
  import opened Utf8
  import opened Errors

  const LF: u8 := 0x0A
  const CR: u8 := 0x0D

  datatype SseEvent = SseEvent(event: Option<string>, data: string)

  const EMPTY := SseEvent(None, "")

  /** Unicode White_Space, what `str::trim` removes. */
  predicate IsWhite(c: char) {
    var n := c as int;
    || 0x09 <= n <= 0x0D || n == 0x20 || n == 0x85 || n == 0xA0 || n == 0x1680
    || 0x2000 <= n <= 0x200A || n == 0x2028 || n == 0x2029 || n == 0x202F || n == 0x205F || n == 0x3000
  }

  function TrimStart(s: string): string {
    if s != [] && IsWhite(s[0]) then TrimStart(s[1..]) else s
  }

  function TrimEnd(s: string): string {
    if s != [] && IsWhite(s[|s|-1]) then TrimEnd(s[..|s|-1]) else s
  }

  function Trim(s: string): string { TrimEnd(TrimStart(s)) }

  /** The code points with the property White_Space, one by one. */
  const WHITE: seq<int> := [
    0x0009, 0x000A, 0x000B, 0x000C, 0x000D, 0x0020, 0x0085, 0x00A0, 0x1680, 0x2000, 0x2001, 0x2002, 0x2003, 0x2004,
    0x2005, 0x2006, 0x2007, 0x2008, 0x2009, 0x200A, 0x2028, 0x2029, 0x202F, 0x205F, 0x3000]

  lemma WhiteSpaceIs(c: char)
    ensures IsWhite(c) <==> c as int in WHITE
  {
  }

  predicate AllWhite(s: string) {
    forall i :: 0 <= i < |s| ==> IsWhite(s[i])
  }

  /** Trimming removes white space at both ends, all of it, and nothing else. */
  lemma {:induction false} TrimStartMeans(s: string) returns (front: string)
    ensures s == front + TrimStart(s) && AllWhite(front)
    ensures TrimStart(s) == [] || !IsWhite(TrimStart(s)[0])
  {
    front := [];
    if s != [] && IsWhite(s[0]) {
      var rest := TrimStartMeans(s[1..]);
      front := [s[0]] + rest;
      assert s == [s[0]] + s[1..];
    }
  }

  lemma {:induction false} TrimEndMeans(s: string) returns (end: string)
    ensures s == TrimEnd(s) + end && AllWhite(end)
    ensures TrimEnd(s) == [] || !IsWhite(TrimEnd(s)[|TrimEnd(s)|-1])
    ensures s != [] && !IsWhite(s[0]) ==> TrimEnd(s) != [] && TrimEnd(s)[0] == s[0]
  {
    end := [];
    if s != [] && IsWhite(s[|s|-1]) {
      var n := |s| - 1;
      var rest := TrimEndMeans(s[..n]);
      end := rest + [s[n]];
      assert s == s[..n] + [s[n]];
    }
  }

  lemma {:induction false} TrimMeans(s: string) returns (front: string, end: string)
    ensures s == front + Trim(s) + end && AllWhite(front) && AllWhite(end)
    ensures Trim(s) == [] || (!IsWhite(Trim(s)[0]) && !IsWhite(Trim(s)[|Trim(s)|-1]))
  {
    front := TrimStartMeans(s);
    end := TrimEndMeans(TrimStart(s));
    assert s == front + (Trim(s) + end);
  }

  // ---- the reference reading of a stream ----

  /** Where the first line feed is; the length when there is none. */
  function FirstLf(s: seq<u8>): (n: nat)
    ensures n <= |s|
  {
    if s == [] || s[0] == LF then 0 else 1 + FirstLf(s[1..])
  }

  lemma {:induction false} FirstLfIsFirst(s: seq<u8>)
    ensures FirstLf(s) < |s| ==> s[FirstLf(s)] == LF
    ensures forall i :: 0 <= i < FirstLf(s) ==> s[i] != LF
  {
    if s != [] && s[0] != LF {
      FirstLfIsFirst(s[1..]);
    }
  }

  /** The complete lines of a stream, without their line feeds. */
  function Lines(s: seq<u8>): seq<seq<u8>>
    decreases |s|
  {
    var n := FirstLf(s);
    if n == |s| then [] else [s[..n]] + Lines(s[n+1..])
  }

  /** What follows the last line feed. */
  function Tail(s: seq<u8>): (t: seq<u8>)
    ensures |t| <= |s|
    decreases |s|
  {
    var n := FirstLf(s);
    if n == |s| then s else Tail(s[n+1..])
  }

  function StripCr(raw: seq<u8>): seq<u8> {
    if raw != [] && raw[|raw|-1] == CR then raw[..|raw|-1] else raw
  }

  /** The line rule: an empty line dispatches, a field line adds to the current event, the rest is ignored. */
  function FoldLine(cur: SseEvent, line: string): (SseEvent, seq<SseEvent>) {
    if line == [] then
      if cur.event.Some? || cur.data != [] then (EMPTY, [cur]) else (cur, [])
    else if StartsWith(line, "event:") then
      (cur.(event := Some(Trim(line[6..]))), [])
    else if StartsWith(line, "data:") then
      (cur.(data := (if cur.data == [] then [] else cur.data + "\n") + TrimStart(line[5..])), [])
    else (cur, [])
  }

  /** What folding some lines gives; `ok` is false when a line was not UTF-8, and nothing after it counts. */
  datatype Folded = Folded(cur: SseEvent, events: seq<SseEvent>, ok: bool)

  /** `f` with `events` in front. */
  function After(events: seq<SseEvent>, f: Folded): Folded { f.(events := events + f.events) }

  lemma AfterAfter(a: seq<SseEvent>, b: seq<SseEvent>, f: Folded)
    ensures After(a, After(b, f)) == After(a + b, f)
  {
    assert a + (b + f.events) == (a + b) + f.events;
  }

  function FoldLines(cur: SseEvent, lines: seq<seq<u8>>): Folded
    decreases |lines|
  {
    if lines == [] then Folded(cur, [], true)
    else
      var raw := StripCr(lines[0]);
      if !Valid(raw) then Folded(cur, [], false)
      else
        var (next, emitted) := FoldLine(cur, Decode(raw));
        var rest := FoldLines(next, lines[1..]);
        After(emitted, rest)
  }

  lemma {:induction false} FoldCons(cur: SseEvent, first: seq<u8>, lines: seq<seq<u8>>)
    ensures FoldLines(cur, [first] + lines) ==
      if !Valid(StripCr(first)) then Folded(cur, [], false)
      else
        var step := FoldLine(cur, Decode(StripCr(first)));
        After(step.1, FoldLines(step.0, lines))
  {
    assert ([first] + lines)[1..] == lines;
  }

  lemma {:induction false} LinesCons(buf: seq<u8>)
    requires FirstLf(buf) < |buf|
    ensures Lines(buf) == [buf[..FirstLf(buf)]] + Lines(buf[FirstLf(buf)+1..])
    ensures Tail(buf) == Tail(buf[FirstLf(buf)+1..])
  {
  }

  lemma {:induction false} FoldFirstLine(cur: SseEvent, buf: seq<u8>)
    requires FirstLf(buf) < |buf|
    ensures var raw := StripCr(buf[..FirstLf(buf)]);
      FoldLines(cur, Lines(buf)) ==
        if !Valid(raw) then Folded(cur, [], false)
        else
          var step := FoldLine(cur, Decode(raw));
          After(step.1, FoldLines(step.0, Lines(buf[FirstLf(buf)+1..])))
  {
    LinesCons(buf);
    FoldCons(cur, buf[..FirstLf(buf)], Lines(buf[FirstLf(buf)+1..]));
  }

  /** What one turn of the parser's loop amounts to. */
  lemma {:induction false} OneLine(out: seq<SseEvent>, cur: SseEvent, buf: seq<u8>)
    requires FirstLf(buf) < |buf|
    ensures var n := FirstLf(buf);
      var raw := StripCr(buf[..n]);
      && Tail(buf) == Tail(buf[n+1..])
      && After(out, FoldLines(cur, Lines(buf))) ==
           if !Valid(raw) then Folded(cur, out, false)
           else
             var step := FoldLine(cur, Decode(raw));
             After(out + step.1, FoldLines(step.0, Lines(buf[n+1..])))
  {
    var n := FirstLf(buf);
    var raw := StripCr(buf[..n]);
    LinesCons(buf);
    FoldFirstLine(cur, buf);
    if Valid(raw) {
      var step := FoldLine(cur, Decode(raw));
      AfterAfter(out, step.1, FoldLines(step.0, Lines(buf[n+1..])));
    }
  }

  // ---- the parser ----

  class SseParser {
    var buf: seq<u8>
    var cur: SseEvent

    constructor ()
      ensures buf == [] && cur == EMPTY
    {
      buf, cur := [], EMPTY;
    }

    /**
      Feeds one chunk. The events appended and the verdict are those of folding every line that is
      complete by now; only the unfinished rest of the last line stays buffered.
    */
    method Push(chunk: seq<u8>, out: seq<SseEvent>) returns (r: Result<(), Error>, newOut: seq<SseEvent>)
      modifies this
      ensures var whole := old(buf) + chunk;
        var f := FoldLines(old(cur), Lines(whole));
        && newOut == out + f.events
        && r == (if f.ok then Ok(()) else Err(UpstreamError))
        && (f.ok ==> cur == f.cur && buf == Tail(whole))
    {
      newOut := out;
      buf := buf + chunk;
      ghost var whole := buf;
      ghost var f := FoldLines(cur, Lines(whole));
      while FirstLf(buf) < |buf|
        invariant After(out, f) == After(newOut, FoldLines(cur, Lines(buf)))
        invariant Tail(whole) == Tail(buf)
        decreases |buf|
      {
        OneLine(newOut, cur, buf);
        var raw := DrainLine();
        if !Valid(raw) {
          return Err(UpstreamError), newOut;
        }
        newOut := TakeLine(Decode(raw), newOut);
      }
      r := Ok(());
    }

    /** Takes the first complete line out of the buffer, without its line feed and one carriage return. */
    method DrainLine() returns (raw: seq<u8>)
      requires FirstLf(buf) < |buf|
      modifies this`buf
      ensures raw == StripCr(old(buf)[..FirstLf(old(buf))])
      ensures buf == old(buf)[FirstLf(old(buf))+1..]
    {
      var nl := FirstLf(buf);
      raw := buf[..nl+1];
      assert raw[..|raw|-1] == buf[..nl];
      buf := buf[nl+1..];
      raw := raw[..|raw|-1];
      if raw != [] && raw[|raw|-1] == CR {
        raw := raw[..|raw|-1];
      }
    }

    /** The body of the loop once the line is decoded. */
    method TakeLine(line: string, out: seq<SseEvent>) returns (newOut: seq<SseEvent>)
      modifies this`cur
      ensures cur == FoldLine(old(cur), line).0 && newOut == out + FoldLine(old(cur), line).1
    {
      newOut := out;
      if line == [] {
        if cur.event.Some? || cur.data != [] {
          newOut := newOut + [cur];
          cur := EMPTY;
        }
        return;
      }
      if StartsWith(line, "event:") {
        cur := cur.(event := Some(Trim(line[6..])));
      } else if StartsWith(line, "data:") {
        if cur.data != [] {
          cur := cur.(data := cur.data + "\n");
        }
        cur := cur.(data := cur.data + TrimStart(line[5..]));
      }
    }
  }

  // ---- chunks ----

  function Flatten(chunks: seq<seq<u8>>): seq<u8> {
    if chunks == [] then [] else chunks[0] + Flatten(chunks[1..])
  }

  /** Feeding chunks one after another, as the translator does: the first bad line ends it. */
  method FeedAll(chunks: seq<seq<u8>>) returns (events: seq<SseEvent>, ok: bool)
    ensures Fed([], EMPTY, chunks).events == events && Fed([], EMPTY, chunks).ok == ok
  {
    var parser := new SseParser();
    events := [];
    assert chunks[0..] == chunks;
    for n := 0 to |chunks|
      invariant Fed([], EMPTY, chunks).ok == Fed(parser.buf, parser.cur, chunks[n..]).ok
      invariant Fed([], EMPTY, chunks).events == events + Fed(parser.buf, parser.cur, chunks[n..]).events
    {
      ghost var f := FoldLines(parser.cur, Lines(parser.buf + chunks[n]));
      assert chunks[n..][1..] == chunks[n+1..];
      AfterAfter(events, f.events, Fed(Tail(parser.buf + chunks[n]), f.cur, chunks[n+1..]));
      var r;
      r, events := parser.Push(chunks[n], events);
      if r.Err? {
        return events, false;
      }
    }
    ok := true;
  }

  function Fed(buf: seq<u8>, cur: SseEvent, chunks: seq<seq<u8>>): Folded
    decreases |chunks|
  {
    if chunks == [] then Folded(cur, [], true)
    else
      var whole := buf + chunks[0];
      var f := FoldLines(cur, Lines(whole));
      if !f.ok then f
      else
        var rest := Fed(Tail(whole), f.cur, chunks[1..]);
        After(f.events, rest)
  }

  lemma {:induction false} FirstLfConcat(a: seq<u8>, b: seq<u8>)
    ensures FirstLf(a + b) == if FirstLf(a) < |a| then FirstLf(a) else |a| + FirstLf(b)
  {
    if a == [] {
      assert a + b == b;
    } else {
      assert (a + b)[1..] == a[1..] + b;
      if a[0] != LF {
        FirstLfConcat(a[1..], b);
      }
    }
  }

  lemma {:induction false} FirstLineOfConcat(a: seq<u8>, b: seq<u8>)
    requires FirstLf(a) < |a|
    ensures Lines(a + b) == [a[..FirstLf(a)]] + Lines(a[FirstLf(a)+1..] + b)
  {
    var n := FirstLf(a);
    FirstLfConcat(a, b);
    LinesCons(a + b);
    assert (a + b)[..n] == a[..n] && (a + b)[n+1..] == a[n+1..] + b;
  }

  /** Lines survive being cut: the lines of a whole are those of its first part, then those of the carry-over. */
  lemma {:induction false} LinesConcat(a: seq<u8>, b: seq<u8>)
    ensures Lines(a + b) == Lines(a) + Lines(Tail(a) + b)
    decreases |a|
  {
    if FirstLf(a) < |a| {
      var rest := a[FirstLf(a)+1..];
      FirstLineOfConcat(a, b);
      LinesCons(a);
      LinesConcat(rest, b);
      Regroup([a[..FirstLf(a)]], Lines(rest), Lines(Tail(rest) + b));
    }
  }

  lemma {:induction false} FoldConcat(cur: SseEvent, x: seq<seq<u8>>, y: seq<seq<u8>>)
    ensures var f := FoldLines(cur, x);
      FoldLines(cur, x + y) ==
        if !f.ok then f else
          var g := FoldLines(f.cur, y);
          After(f.events, g)
    decreases |x|
  {
    if x == [] {
      assert x + y == y;
    } else {
      assert (x + y)[1..] == x[1..] + y;
      var raw := StripCr(x[0]);
      if Valid(raw) {
        var (next, emitted) := FoldLine(cur, Decode(raw));
        FoldConcat(next, x[1..], y);
        var f1 := FoldLines(next, x[1..]);
        if f1.ok {
          var g := FoldLines(f1.cur, y);
          AfterAfter(emitted, f1.events, g);
        }
      }
    }
  }

  lemma {:induction false} FedIsFold(buf: seq<u8>, cur: SseEvent, chunks: seq<seq<u8>>)
    requires FirstLf(buf) == |buf|
    ensures Fed(buf, cur, chunks) == FoldLines(cur, Lines(buf + Flatten(chunks)))
    decreases |chunks|
  {
    if chunks == [] {
      assert buf + Flatten(chunks) == buf;
    } else {
      var whole := buf + chunks[0];
      var f := FoldLines(cur, Lines(whole));
      var rest := Flatten(chunks[1..]);
      assert buf + Flatten(chunks) == whole + rest;
      LinesConcat(whole, rest);
      FoldConcat(cur, Lines(whole), Lines(Tail(whole) + rest));
      if f.ok {
        TailHasNoLf(whole);
        FedIsFold(Tail(whole), f.cur, chunks[1..]);
      }
    }
  }

  lemma {:induction false} TailHasNoLf(s: seq<u8>)
    ensures FirstLf(Tail(s)) == |Tail(s)|
    decreases |s|
  {
    var n := FirstLf(s);
    if n < |s| {
      TailHasNoLf(s[n+1..]);
    }
  }

  /**
    Chunk independence: however a byte stream is cut into chunks, the parser yields the events and the
    verdict of folding the lines of the whole stream.
  */
  lemma {:induction false} ChunkIndependence(chunks: seq<seq<u8>>)
    ensures Fed([], EMPTY, chunks) == FoldLines(EMPTY, Lines(Flatten(chunks)))
    ensures Fed([], EMPTY, chunks) == Fed([], EMPTY, [Flatten(chunks)])
  {
    FedIsFold([], EMPTY, chunks);
    FedIsFold([], EMPTY, [Flatten(chunks)]);
    assert Flatten([Flatten(chunks)]) == Flatten(chunks) + Flatten([]);
    assert [] + Flatten(chunks) == Flatten(chunks);
    assert Flatten(chunks) + [] == Flatten(chunks);
  }

  lemma {:induction false} StripKeepsValidity(line: seq<u8>)
    ensures Valid(StripCr(line)) <==> Valid(line)
  {
    if line != [] && line[|line|-1] == CR {
      AsciiSplits(line[..|line|-1], CR, []);
      assert line == line[..|line|-1] + [CR] + [];
    }
  }

  predicate AllValid(lines: seq<seq<u8>>) {
    lines == [] || (Valid(lines[0]) && AllValid(lines[1..]))
  }

  lemma {:induction false} OkIffAllValid(cur: SseEvent, lines: seq<seq<u8>>)
    ensures FoldLines(cur, lines).ok <==> AllValid(lines)
    decreases |lines|
  {
    if lines != [] {
      StripKeepsValidity(lines[0]);
      if Valid(lines[0]) {
        OkIffAllValid(FoldLine(cur, Decode(StripCr(lines[0]))).0, lines[1..]);
      }
    }
  }

  /** Up to its last line feed a stream is its first line, a line feed, and the rest up to there. */
  lemma {:induction false} UpToLastLf(s: seq<u8>)
    requires FirstLf(s) < |s|
    ensures var n := FirstLf(s);
      var rest := s[n+1..];
      s[..|s|-|Tail(s)|] == s[..n] + [LF] + rest[..|rest|-|Tail(rest)|]
  {
    LinesCons(s);
    FirstLfIsFirst(s);
  }

  lemma {:induction false} AllValidCons(line: seq<u8>, lines: seq<seq<u8>>)
    ensures AllValid([line] + lines) <==> Valid(line) && AllValid(lines)
  {
    assert ([line] + lines)[1..] == lines;
  }

  lemma {:induction false} LinesAreWholeStream(s: seq<u8>)
    ensures AllValid(Lines(s)) <==> Valid(s[..|s|-|Tail(s)|])
    decreases |s|
  {
    var n := FirstLf(s);
    if n < |s| {
      var line, rest := s[..n], s[n+1..];
      LinesCons(s);
      AllValidCons(line, Lines(rest));
      UpToLastLf(s);
      AsciiSplits(line, LF, rest[..|rest|-|Tail(rest)|]);
      LinesAreWholeStream(rest);
    } else {
      assert s[..0] == [];
    }
  }

  /**
    Decoding line by line accepts exactly the streams whose bytes up to the last line feed are UTF-8 as
    a whole: a line feed or carriage return is never part of a longer character.
  */
  lemma {:induction false} VerdictIsWholeStreamUtf8(chunks: seq<seq<u8>>)
    ensures var s := Flatten(chunks);
      Fed([], EMPTY, chunks).ok <==> Valid(s[..|s|-|Tail(s)|])
  {
    ChunkIndependence(chunks);
    OkIffAllValid(EMPTY, Lines(Flatten(chunks)));
    LinesAreWholeStream(Flatten(chunks));
  }
}
