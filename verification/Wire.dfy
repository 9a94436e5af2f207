/** From bytes to frames in one statement: a reply written on the wire, cut anywhere, parsed and translated. */
module Wire {
  import opened Wrappers
  import opened Sequences
  import opened Utf8
  import opened Errors
  import opened Bits
  import opened Sse
  import opened AnthropicMap
  import opened Translate
  import T = Translate
  import opened StreamTheorems

  // ---- events as an upstream may write them ----

  /** Lines that carry nothing, a type line if there is a type, and the data in one or more lines. */
  datatype Written = Written(noise: seq<string>, event: Option<string>, parts: seq<string>)

  function JoinLines(parts: seq<string>): string
    requires parts != []
  {
    var n := |parts| - 1;
    if n == 0 then parts[0] else JoinLines(parts[..n]) + "\n" + parts[n]
  }

  function DataLines(parts: seq<string>): seq<string> {
    if parts == [] then [] else DataLines(parts[..|parts|-1]) + ["data: " + parts[|parts|-1]]
  }

  function TypeLine(event: Option<string>): seq<string> { if event.Some? then ["event: " + event.value] else [] }

  function LinesOf(w: Written): seq<string> { w.noise + TypeLine(w.event) + DataLines(w.parts) + [""] }

  function AllLines(ws: seq<Written>): seq<string> {
    if ws == [] then [] else LinesOf(ws[0]) + AllLines(ws[1..])
  }

  function LineEnd(crlf: bool): seq<u8> { if crlf then [CR, LF] else [LF] }

  /** The lines in UTF-8, each ended by a line feed, with or without a carriage return before it. */
  function Bytes(lines: seq<string>, crlf: bool): seq<u8> {
    if lines == [] then [] else Encode(lines[0]) + LineEnd(crlf) + Bytes(lines[1..], crlf)
  }

  predicate SingleLine(s: string) { '\n' !in s && (s != [] ==> s[|s|-1] != '\r') }

  /** A comment, or a field other than type and data. */
  predicate Noise(line: string) {
    line != [] && SingleLine(line) && !StartsWith(line, "event:") && !StartsWith(line, "data:")
  }

  predicate DataPart(s: string) { SingleLine(s) && TrimStart(s) == s }

  /** The parts survive the line rule: single lines, without white space where the parser trims. */
  predicate Plain(w: Written) {
    && (forall i :: 0 <= i < |w.noise| ==> Noise(w.noise[i]))
    && (w.event.Some? ==> SingleLine(w.event.value) && Trim(w.event.value) == w.event.value)
    && w.parts != [] && w.parts[0] != [] && forall i :: 0 <= i < |w.parts| ==> DataPart(w.parts[i])
  }

  predicate AllPlain(ws: seq<Written>) {
    forall i :: 0 <= i < |ws| ==> Plain(ws[i])
  }

  /** The event that was written. */
  function EventOf(w: Written): SseEvent
    requires w.parts != []
  {
    SseEvent(w.event, JoinLines(w.parts))
  }

  function Events(ws: seq<Written>): (events: seq<SseEvent>)
    requires AllPlain(ws)
    ensures |events| == |ws| && forall i :: 0 <= i < |ws| ==> events[i] == EventOf(ws[i])
  {
    if ws == [] then []
    else
      assert AllPlain(ws[1..]) by { RestIsPlain(ws); }
      [EventOf(ws[0])] + Events(ws[1..])
  }

  lemma RestIsPlain(ws: seq<Written>)
    requires ws != [] && AllPlain(ws)
    ensures Plain(ws[0]) && AllPlain(ws[1..])
  {
  }

  // ---- lines are read back ----

  lemma {:induction false} NoLf(bytes: seq<u8>)
    requires LF !in bytes
    ensures FirstLf(bytes) == |bytes|
  {
    if bytes != [] {
      NoLf(bytes[1..]);
    }
  }

  /** One carriage return before the line feed is not part of the line. */
  lemma {:induction false} CrIsDropped(raw: seq<u8>)
    ensures StripCr(raw + [CR]) == raw
    ensures raw == [] || raw[|raw|-1] != CR ==> StripCr(raw) == raw
  {
    assert (raw + [CR])[..|raw|] == raw;
  }

  /** A line of text is read back as it was written. */
  lemma {:induction false} LineReadsBack(line: string, crlf: bool)
    requires SingleLine(line)
    ensures var raw := if crlf then Encode(line) + [CR] else Encode(line);
      FirstLf(raw) == |raw| && StripCr(raw) == Encode(line)
    ensures Valid(Encode(line)) && Decode(Encode(line)) == line
  {
    EncodeKeepsAscii(line, LF);
    EncodeKeepsAscii(line, CR);
    EncodeDecodes(line);
    NoLf(Encode(line));
    NoLf(Encode(line) + [CR]);
    CrIsDropped(Encode(line));
  }

  /** Folding lines of text. */
  function FoldTexts(cur: SseEvent, lines: seq<string>): (SseEvent, seq<SseEvent>)
    decreases |lines|
  {
    if lines == [] then (cur, [])
    else
      var step := FoldLine(cur, lines[0]);
      var later := FoldTexts(step.0, lines[1..]);
      (later.0, step.1 + later.1)
  }

  lemma {:induction false} FoldOne(cur: SseEvent, line: string)
    ensures FoldTexts(cur, [line]) == FoldLine(cur, line)
  {
    assert [line][1..] == [];
    assert FoldLine(cur, line).1 + [] == FoldLine(cur, line).1;
  }

  lemma {:induction false} FoldTextsConcat(cur: SseEvent, a: seq<string>, b: seq<string>)
    ensures FoldTexts(cur, a + b) ==
      (FoldTexts(FoldTexts(cur, a).0, b).0, FoldTexts(cur, a).1 + FoldTexts(FoldTexts(cur, a).0, b).1)
    decreases |a|
  {
    if a == [] {
      assert a + b == b && [] + FoldTexts(cur, b).1 == FoldTexts(cur, b).1;
    } else {
      assert (a + b)[1..] == a[1..] + b && (a + b)[0] == a[0];
      var step := FoldLine(cur, a[0]);
      FoldTextsConcat(step.0, a[1..], b);
      var mid := FoldTexts(step.0, a[1..]);
      Regroup(step.1, mid.1, FoldTexts(mid.0, b).1);
    }
  }

  /** Bytes of lines fold like the lines, whichever line end is used, and leave nothing over. */
  lemma {:induction false} BytesFold(cur: SseEvent, lines: seq<string>, crlf: bool)
    requires forall i :: 0 <= i < |lines| ==> SingleLine(lines[i])
    ensures FoldLines(cur, Lines(Bytes(lines, crlf))) == Folded(FoldTexts(cur, lines).0, FoldTexts(cur, lines).1, true)
    ensures Tail(Bytes(lines, crlf)) == []
    decreases |lines|
  {
    if lines != [] {
      var later := Bytes(lines[1..], crlf);
      var raw := if crlf then Encode(lines[0]) + [CR] else Encode(lines[0]);
      LineReadsBack(lines[0], crlf);
      assert Bytes(lines, crlf) == raw + [LF] + later;
      LineInFront(raw, later);
      FoldCons(cur, raw, Lines(later));
      BytesFold(FoldLine(cur, lines[0]).0, lines[1..], crlf);
    }
  }

  // ---- events are read back ----

  lemma {:induction false} TrimAfterBlank(s: string)
    ensures Trim(" " + s) == Trim(s) && TrimStart(" " + s) == TrimStart(s)
  {
    assert (" " + s)[1..] == s;
  }

  lemma {:induction false} TypeField(cur: SseEvent, v: string)
    ensures FoldLine(cur, "event: " + v) == (cur.(event := Some(Trim(v))), [])
  {
    var line := "event: " + v;
    TrimAfterBlank(v);
    assert line[6..] == " " + v && line[..6] == "event:";
  }

  /** Further data lines are joined by line feeds. */
  lemma {:induction false} DataField(cur: SseEvent, d: string)
    ensures FoldLine(cur, "data: " + d)
      == (SseEvent(cur.event, if cur.data == [] then TrimStart(d) else cur.data + "\n" + TrimStart(d)), [])
  {
    var line := "data: " + d;
    TrimAfterBlank(d);
    assert line[5..] == " " + d && line[..5] == "data:";
    assert line[..6][0] == 'd';
    assert [] + TrimStart(d) == TrimStart(d);
  }

  lemma {:induction false} NoiseFolds(cur: SseEvent, noise: seq<string>)
    requires forall i :: 0 <= i < |noise| ==> Noise(noise[i])
    ensures FoldTexts(cur, noise) == (cur, [])
    decreases |noise|
  {
    if noise != [] {
      NoiseFolds(cur, noise[1..]);
      assert Noise(noise[0]);
      assert FoldLine(cur, noise[0]) == (cur, []);
      var none: seq<SseEvent> := [];
      assert none + none == none;
    }
  }

  lemma {:induction false} JoinIsSomething(parts: seq<string>)
    requires parts != [] && parts[0] != []
    ensures JoinLines(parts) != []
  {
  }

  /** One more data line. */
  lemma {:induction false} DataStep(cur: SseEvent, so: SseEvent, lines: seq<string>, d: string)
    requires FoldTexts(cur, lines) == (so, []) && TrimStart(d) == d
    ensures FoldTexts(cur, lines + ["data: " + d]) == (SseEvent(so.event, if so.data == [] then d else so.data + "\n" + d), [])
  {
    hide FoldTexts, FoldLine;
    FoldOne(so, "data: " + d);
    DataField(so, d);
    FoldTextsConcat(cur, lines, ["data: " + d]);
    var none: seq<SseEvent> := [];
    assert none + none == none;
  }

  lemma {:induction false} DataFolds(event: Option<string>, parts: seq<string>)
    requires parts != [] && parts[0] != [] && forall i :: 0 <= i < |parts| ==> DataPart(parts[i])
    ensures FoldTexts(SseEvent(event, []), DataLines(parts)) == (SseEvent(event, JoinLines(parts)), [])
    decreases |parts|
  {
    hide FoldTexts;
    var n := |parts| - 1;
    assert DataPart(parts[n]);
    if n == 0 {
      NothingFolds(SseEvent(event, []));
      assert DataLines(parts[..n]) == [];
      DataStep(SseEvent(event, []), SseEvent(event, []), [], parts[0]);
    } else {
      DataFolds(event, parts[..n]);
      JoinIsSomething(parts[..n]);
      DataStep(SseEvent(event, []), SseEvent(event, JoinLines(parts[..n])), DataLines(parts[..n]), parts[n]);
    }
  }

  lemma {:induction false} NothingFolds(cur: SseEvent)
    ensures FoldTexts(cur, []) == (cur, [])
  {
  }

  lemma {:induction false} TypeFolds(event: Option<string>)
    requires event.Some? ==> Trim(event.value) == event.value
    ensures FoldTexts(EMPTY, TypeLine(event)) == (SseEvent(event, []), [])
  {
    if event.Some? {
      TypeField(EMPTY, event.value);
      FoldOne(EMPTY, "event: " + event.value);
    }
  }

  lemma {:induction false} EndFolds(e: SseEvent)
    requires e.event.Some? || e.data != []
    ensures FoldTexts(e, [""]) == (EMPTY, [e])
  {
    FoldOne(e, "");
  }

  lemma {:induction false} WrittenFolds(w: Written)
    requires Plain(w)
    ensures FoldTexts(EMPTY, LinesOf(w)) == (EMPTY, [EventOf(w)])
  {
    hide FoldTexts, FoldLine, Noise, JoinLines, DataLines, TypeLine;
    var named := w.noise + TypeLine(w.event);
    var none: seq<SseEvent> := [];
    assert none + none == none && none + [EventOf(w)] == [EventOf(w)];
    NoiseFolds(EMPTY, w.noise);
    TypeFolds(w.event);
    FoldTextsConcat(EMPTY, w.noise, TypeLine(w.event));
    DataFolds(w.event, w.parts);
    FoldTextsConcat(EMPTY, named, DataLines(w.parts));
    JoinIsSomething(w.parts);
    EndFolds(EventOf(w));
    FoldTextsConcat(EMPTY, named + DataLines(w.parts), [""]);
  }

  lemma {:induction false} AllWrittenFold(ws: seq<Written>)
    requires AllPlain(ws)
    ensures FoldTexts(EMPTY, AllLines(ws)) == (EMPTY, Events(ws))
    decreases |ws|
  {
    hide LinesOf, Plain;
    if ws != [] {
      RestIsPlain(ws);
      WrittenFolds(ws[0]);
      AllWrittenFold(ws[1..]);
      FoldTextsConcat(EMPTY, LinesOf(ws[0]), AllLines(ws[1..]));
    }
  }

  lemma {:induction false} DataLinesAreSingle(parts: seq<string>)
    requires forall i :: 0 <= i < |parts| ==> DataPart(parts[i])
    ensures forall i :: 0 <= i < |DataLines(parts)| ==> SingleLine(DataLines(parts)[i])
  {
    if parts != [] {
      var n := |parts| - 1;
      DataLinesAreSingle(parts[..n]);
      assert DataPart(parts[n]);
    }
  }

  lemma {:induction false} LinesAreSingle(ws: seq<Written>)
    requires AllPlain(ws)
    ensures forall i :: 0 <= i < |AllLines(ws)| ==> SingleLine(AllLines(ws)[i])
    decreases |ws|
  {
    if ws != [] {
      RestIsPlain(ws);
      DataLinesAreSingle(ws[0].parts);
      LinesAreSingle(ws[1..]);
    }
  }

  function WireAll(ws: seq<Written>, crlf: bool): seq<u8> { Bytes(AllLines(ws), crlf) }

  /**
    Round trip: written with either line end, with or without a type line, with data in several lines
    and among lines that carry nothing, events fold back into exactly those events.
  */
  lemma {:induction false} WireRoundTrip(ws: seq<Written>, crlf: bool)
    requires AllPlain(ws)
    ensures FoldLines(EMPTY, Lines(WireAll(ws, crlf))) == Folded(EMPTY, Events(ws), true)
    ensures Tail(WireAll(ws, crlf)) == []
  {
    LinesAreSingle(ws);
    BytesFold(EMPTY, AllLines(ws), crlf);
    AllWrittenFold(ws);
  }

  // ---- what events say ----

  /** The event has this name, on its type line or else in its payload, and this payload. */
  predicate Says(parse: Parse, e: SseEvent, name: string, p: Payload) {
    && Trim(e.data) != [] && parse(Trim(e.data)) == Some(p)
    && (e.event == Some(name) || (e.event == None && p.kind == Some(name)))
  }

  const NAMES: seq<string> := ["message_start", "content_block_start", "content_block_delta", "message_delta", "message_stop"]

  /** Blank data, data that is not JSON, or a name that is none of the five. */
  predicate SaysNothing(parse: Parse, e: SseEvent) {
    || Trim(e.data) == [] || parse(Trim(e.data)) == None
    || (e.event.Some? && e.event.value !in NAMES)
    || (e.event == None && parse(Trim(e.data)).value.kind.Some? && parse(Trim(e.data)).value.kind.value !in NAMES)
    || (e.event == None && parse(Trim(e.data)).value.kind == None)
  }

  /** The event carries the message, in the words of the Messages API. */
  ghost predicate Carries(parse: Parse, e: SseEvent, m: Msg) {
    match m
    case MessageStart(id) => exists p :: Says(parse, e, "message_start", p) && p.messageId == id
    case BlockStart(kind) =>
      exists p :: Says(parse, e, "content_block_start", p) && (p.blockKind == Some(kind) || (p.blockKind == None && kind == "text"))
    case BlockDelta(kind, text) =>
      exists p :: Says(parse, e, "content_block_delta", p) && p.deltaText == text
                  && (p.deltaKind == Some(kind) || (p.deltaKind == None && kind == "text_delta"))
    case MessageDelta(reason) => exists p :: Says(parse, e, "message_delta", p) && p.stopReason == reason
    case MessageStop => exists p :: Says(parse, e, "message_stop", p)
    case Other => SaysNothing(parse, e)
  }

  /** An event is read as what it carries. */
  lemma {:induction false} CarriedIsRead(parse: Parse, e: SseEvent, m: Msg)
    requires Carries(parse, e, m)
    ensures Read(parse, e) == m
  {
    hide Trim;
  }

  /** The events carry the messages, in order, with any number of events among them that carry nothing. */
  ghost predicate Spells(parse: Parse, events: seq<SseEvent>, msgs: seq<Msg>)
    decreases |events|
  {
    if events == [] then msgs == []
    else
      || (Carries(parse, events[0], Other) && Spells(parse, events[1..], msgs))
      || (msgs != [] && !msgs[0].Other? && Carries(parse, events[0], msgs[0]) && Spells(parse, events[1..], msgs[1..]))
  }

  lemma {:induction false} SpelledIsRead(parse: Parse, events: seq<SseEvent>, msgs: seq<Msg>)
    requires Spells(parse, events, msgs)
    ensures Loud(ReadAll(parse, events)) == msgs
    decreases |events|
  {
    hide Carries, Read;
    if events != [] {
      var all := ReadAll(parse, events);
      assert all[1..] == ReadAll(parse, events[1..]);
      if Carries(parse, events[0], Other) && Spells(parse, events[1..], msgs) {
        CarriedIsRead(parse, events[0], Other);
        SpelledIsRead(parse, events[1..], msgs);
      } else {
        CarriedIsRead(parse, events[0], msgs[0]);
        SpelledIsRead(parse, events[1..], msgs[1..]);
        assert msgs == [msgs[0]] + msgs[1..];
      }
    }
  }

  // ---- end to end ----

  /**
    End to end: write the events of a streamed reply, with any ignorable events and lines among them, cut
    the bytes anywhere, even inside a character, and translate. The client gets one content frame per
    text delta and the closing frames of the non-streaming translation of the same reply, and nothing
    else. Of the decoder only what it makes of these events matters.
  */
  lemma {:induction false} StreamedReplyEndToEnd(
    parse: Parse, model: string, ws: seq<Written>, crlf: bool, chunks: seq<seq<u8>>,
    id: Option<string>, blocks: seq<seq<string>>, stopReason: Option<string>, tokens: (Option<u64>, Option<u64>), whole: Completion)
    requires AllPlain(ws) && Spells(parse, Events(ws), ReplyMsgs(id, blocks, stopReason))
    requires Flatten(chunks) == WireAll(ws, crlf)
    requires Translated(Reply(id, blocks, stopReason, tokens), model, whole)
    ensures Run(parse, model, AllOk(chunks)) ==
      Frames(model, whole.id, AllPieces(blocks)) + [Finish(model, whole.id, whole.finish), Done]
    ensures Contents(Run(parse, model, AllOk(chunks))) == whole.content
  {
    hide Spells;
    var events := Events(ws);
    WireRoundTrip(ws, crlf);
    ChunkIndependence(chunks);
    GoodStream(parse, model, [], EMPTY, INITIAL, chunks);
    SpelledIsRead(parse, events, ReplyMsgs(id, blocks, stopReason));
    ReplyOutput(model, ReadAll(parse, events), id, blocks, stopReason);
    StreamingAgrees(model, ReadAll(parse, events), id, blocks, stopReason, tokens, whole);
  }

  /** The same when the stream ends after the stop reason, without its stop message. */
  lemma {:induction false} CutShortEndToEnd(
    parse: Parse, model: string, ws: seq<Written>, crlf: bool, chunks: seq<seq<u8>>,
    id: Option<string>, blocks: seq<seq<string>>, stopReason: Option<string>, tokens: (Option<u64>, Option<u64>), whole: Completion)
    requires AllPlain(ws) && Spells(parse, Events(ws), [MessageStart(id)] + BlockMsgs(blocks) + [MessageDelta(stopReason)])
    requires Flatten(chunks) == WireAll(ws, crlf)
    requires Translated(Reply(id, blocks, stopReason, tokens), model, whole)
    ensures Run(parse, model, AllOk(chunks)) ==
      Frames(model, whole.id, AllPieces(blocks)) + [Finish(model, whole.id, whole.finish), Done]
  {
    hide Spells;
    WireRoundTrip(ws, crlf);
    ChunkIndependence(chunks);
    GoodStream(parse, model, [], EMPTY, INITIAL, chunks);
    SpelledIsRead(parse, Events(ws), [MessageStart(id)] + BlockMsgs(blocks) + [MessageDelta(stopReason)]);
    CutShortOutput(model, ReadAll(parse, Events(ws)), id, blocks, stopReason);
  }

  /** The message asks for something other than text. */
  predicate AsksFor(m: Msg, kind: string) {
    || (m == BlockStart(kind) && kind != "text")
    || (m.BlockDelta? && m.kind == kind && kind != "text_delta")
  }

  lemma {:induction false} UnsupportedStops(model: string, st: State, m: Msg, kind: string, later: seq<Msg>)
    requires AsksFor(m, kind)
    ensures OnMsgs(model, st, [m] + later) == Progress(st, [Failed(Unsupported(kind))], true)
  {
  }

  lemma {:induction false} UnsupportedAfterText(
    model: string, id: Option<string>, blocks: seq<seq<string>>, m: Msg, kind: string, later: seq<Msg>)
    requires AsksFor(m, kind)
    ensures var p := OnMsgs(model, INITIAL, [MessageStart(id)] + BlockMsgs(blocks) + ([m] + later));
      && p.stopped
      && p.items == Frames(model, if id.Some? then id.value else "chatcmpl-anthropic", AllPieces(blocks)) + [Failed(Unsupported(kind))]
  {
    hide OnMsgs, Frames, AllPieces, BlockMsgs, AsksFor;
    var st := INITIAL.(id := OrElse(id, DEFAULT_ID));
    StartOutput(model, id);
    OnMsgsConcat(model, INITIAL, [MessageStart(id)], BlockMsgs(blocks));
    BlocksGiveFrames(model, st, blocks);
    OnMsgsConcat(model, INITIAL, [MessageStart(id)] + BlockMsgs(blocks), [m] + later);
    UnsupportedStops(model, st, m, kind, later);
    assert [] + Frames(model, st.id, AllPieces(blocks)) == Frames(model, st.id, AllPieces(blocks));
  }

  /** A block or delta that is not text ends the output with an error that names it, after the text before it. */
  lemma {:induction false} UnsupportedEndsStream(
    parse: Parse, model: string, ws: seq<Written>, crlf: bool, chunks: seq<seq<u8>>,
    id: Option<string>, blocks: seq<seq<string>>, m: Msg, kind: string, later: seq<Msg>)
    requires AllPlain(ws) && Spells(parse, Events(ws), [MessageStart(id)] + BlockMsgs(blocks) + ([m] + later))
    requires Flatten(chunks) == WireAll(ws, crlf) && AsksFor(m, kind)
    ensures Run(parse, model, AllOk(chunks)) ==
      Frames(model, if id.Some? then id.value else "chatcmpl-anthropic", AllPieces(blocks)) + [Failed(Unsupported(kind))]
  {
    hide Spells, OnMsgs, ReadAll, AsksFor;
    var events, begin := Events(ws), [MessageStart(id)] + BlockMsgs(blocks);
    WireRoundTrip(ws, crlf);
    ChunkIndependence(chunks);
    GoodStream(parse, model, [], EMPTY, INITIAL, chunks);
    SpelledIsRead(parse, events, begin + ([m] + later));
    OnlyLoudMatters(model, INITIAL, ReadAll(parse, events));
    UnsupportedAfterText(model, id, blocks, m, kind, later);
  }

  /** Both translations of one reply: the streamed one and the whole one say the same. */
  method TranslateBoth(
    parse: Parse, model: string, chunks: seq<seq<u8>>, ghost ws: seq<Written>, ghost crlf: bool,
    id: Option<string>, blocks: seq<seq<string>>, stopReason: Option<string>, tokens: (Option<u64>, Option<u64>))
    returns (out: seq<Item>, whole: Result<Completion, Error>)
    requires AllPlain(ws) && Spells(parse, Events(ws), ReplyMsgs(id, blocks, stopReason))
    requires Flatten(chunks) == WireAll(ws, crlf)
    ensures whole.Ok?
    ensures out == Frames(model, whole.value.id, AllPieces(blocks)) + [Finish(model, whole.value.id, whole.value.finish), Done]
    ensures Contents(out) == whole.value.content
    ensures whole.value.id == (if id.Some? then id.value else "chatcmpl-anthropic")
    ensures whole.value.finish == (if stopReason == Some("max_tokens") then "length" else "stop")
  {
    hide Spells, AllPlain;
    BlocksHoldAllText(blocks);
    whole := AnthropicToOpenai(Reply(id, blocks, stopReason, tokens), model);
    out := T.Translate(parse, AllOk(chunks), model);
    StreamedReplyEndToEnd(parse, model, ws, crlf, chunks, id, blocks, stopReason, tokens, whole.value);
  }

  // ---- a stream whose output depends on the cut ----

  /** A stop whose data is an object without fields; its name is that of the type line. */
  const STOP := Written([], Some("message_stop"), ["{}"])

  const BAD_LINE: seq<u8> := [0xFF, LF]

  lemma {:induction false} BadLineIsBad(cur: SseEvent)
    ensures Lines(BAD_LINE) == [[0xFF]] && FoldLines(cur, Lines(BAD_LINE)) == Folded(cur, [], false)
  {
    assert BAD_LINE[1..] == [LF] && BAD_LINE[..1] == [0xFF] && BAD_LINE[2..] == [];
    assert FirstLf(BAD_LINE) == 1;
    LinesCons(BAD_LINE);
    assert !Valid([0xFF]);
  }

  lemma {:induction false} NothingToTrim()
    ensures Trim("message_stop") == "message_stop" && Trim("{}") == "{}" && TrimStart("{}") == "{}"
  {
  }

  lemma {:induction false} StopIsWritten()
    ensures AllPlain([STOP]) && Events([STOP]) == [SseEvent(Some("message_stop"), "{}")]
  {
    NothingToTrim();
    assert JoinLines(STOP.parts) == "{}";
    assert DataPart(STOP.parts[0]) && Plain(STOP) && AllPlain([STOP]);
    assert EventOf(STOP) == SseEvent(Some("message_stop"), "{}");
  }

  lemma {:induction false} StopIsRead(parse: Parse)
    requires parse("{}") == Some(Payload(None, None, None, None, None, None))
    ensures ReadAll(parse, [SseEvent(Some("message_stop"), "{}")]) == [MessageStop]
  {
    NothingToTrim();
    var e := SseEvent(Some("message_stop"), "{}");
    assert Read(parse, e) == MessageStop && [e][1..] == [];
  }

  /** A stop event and then a line that is not UTF-8: in one chunk the closing frames are lost. */
  lemma {:induction false} CutsCanMatter(parse: Parse, model: string)
    requires parse("{}") == Some(Payload(None, None, None, None, None, None))
    ensures !CutsDoNotMatter(parse, model, WireAll([STOP], false) + BAD_LINE)
  {
    hide Valid, WireAll, Plain, ReadAll;
    StopIsWritten();
    StopIsRead(parse);
    WireRoundTrip([STOP], false);
    BadLineIsBad(EMPTY);
    var wire := WireAll([STOP], false);
    LinesConcat(wire, BAD_LINE);
    assert Tail(wire) + BAD_LINE == BAD_LINE;
    FoldConcat(EMPTY, Lines(wire), Lines(BAD_LINE));
    assert [MessageStop][1..] == [];
    assert OnMsgs(model, INITIAL, [MessageStop]).items == Closing(model, INITIAL) + [];
  }
}
