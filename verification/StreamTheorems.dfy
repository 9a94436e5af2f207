/** What the stream translation guarantees, for every stream and every way of cutting it into chunks. */
module StreamTheorems {
  import opened Wrappers
  import opened Sequences
  import opened Utf8
  import opened Bits
  import opened Errors
  import opened Sse
  import opened AnthropicMap
  import opened Translate

  function Run(parse: Parse, model: string, upstream: seq<Result<seq<u8>, Error>>): seq<Item> {
    Rest(parse, model, [], EMPTY, INITIAL, upstream)
  }

  // ---- errors end the stream ----

  predicate NoFailure(items: seq<Item>) { forall i :: 0 <= i < |items| ==> !items[i].Failed? }

  predicate FailureOnlyLast(items: seq<Item>) { items == [] || NoFailure(items[..|items|-1]) }

  lemma FailureOnlyLastConcat(a: seq<Item>, b: seq<Item>)
    requires NoFailure(a) && FailureOnlyLast(b)
    ensures FailureOnlyLast(a + b)
  {
    if b != [] {
      assert (a + b)[..|a + b| - 1] == a + b[..|b|-1];
    }
  }

  lemma {:induction false} OnMsgsFailsLast(model: string, st: State, msgs: seq<Msg>)
    ensures var p := OnMsgs(model, st, msgs);
      FailureOnlyLast(p.items) && (!p.stopped ==> NoFailure(p.items))
      && (p.stopped ==> p.items != [] && p.items[|p.items|-1].Failed?)
    decreases |msgs|
  {
    if msgs != [] {
      var p := OnMsg(model, st, msgs[0]);
      if !p.stopped {
        OnMsgsFailsLast(model, p.st, msgs[1..]);
        FailureOnlyLastConcat(p.items, OnMsgs(model, p.st, msgs[1..]).items);
      }
    }
  }

  /** Nothing follows an error item, wherever the error comes from: transport, decoding or translation. */
  lemma {:induction false} ErrorIsLast(
    parse: Parse, model: string, buf: seq<u8>, cur: SseEvent, st: State, upstream: seq<Result<seq<u8>, Error>>)
    ensures FailureOnlyLast(Rest(parse, model, buf, cur, st, upstream))
    decreases |upstream|
  {
    if upstream != [] && upstream[0].Ok? {
      var whole := buf + upstream[0].value;
      var f := FoldLines(cur, Lines(whole));
      if f.ok {
        var p := OnMsgs(model, st, ReadAll(parse, f.events));
        OnMsgsFailsLast(model, st, ReadAll(parse, f.events));
        if !p.stopped {
          ErrorIsLast(parse, model, Tail(whole), f.cur, p.st, upstream[1..]);
          FailureOnlyLastConcat(p.items, Rest(parse, model, Tail(whole), f.cur, p.st, upstream[1..]));
        }
      }
    }
  }

  // ---- chunk independence of the translation ----

  function AllOk(chunks: seq<seq<u8>>): (r: seq<Result<seq<u8>, Error>>)
    ensures |r| == |chunks|
  {
    if chunks == [] then [] else [Ok(chunks[0])] + AllOk(chunks[1..])
  }

  /** Everything a run of messages yields, with the closing frames when no stop message came. */
  function OutputFrom(model: string, st: State, msgs: seq<Msg>): seq<Item> {
    var p := OnMsgs(model, st, msgs);
    if p.stopped || p.st.doneSent then p.items else p.items + Closing(model, p.st)
  }

  lemma {:induction false} ReadAllConcat(parse: Parse, a: seq<SseEvent>, b: seq<SseEvent>)
    ensures ReadAll(parse, a + b) == ReadAll(parse, a) + ReadAll(parse, b)
  {
    if a == [] {
      assert a + b == b;
    } else {
      assert (a + b)[1..] == a[1..] + b;
      ReadAllConcat(parse, a[1..], b);
    }
  }

  lemma {:induction false} OnMsgsConcat(model: string, st: State, a: seq<Msg>, b: seq<Msg>)
    ensures var p := OnMsgs(model, st, a);
      OnMsgs(model, st, a + b) == if p.stopped then p else Then(p.items, OnMsgs(model, p.st, b))
    decreases |a|
  {
    if a == [] {
      assert a + b == b;
    } else {
      assert (a + b)[1..] == a[1..] + b;
      var p := OnMsg(model, st, a[0]);
      if !p.stopped {
        OnMsgsConcat(model, p.st, a[1..], b);
        var q := OnMsgs(model, p.st, a[1..]);
        ThenThen(p.items, q.items, OnMsgs(model, q.st, b));
      }
    }
  }

  /** On a stream that decodes, the output depends on the events only. */
  lemma {:induction false} GoodStream(parse: Parse, model: string, buf: seq<u8>, cur: SseEvent, st: State, chunks: seq<seq<u8>>)
    requires Fed(buf, cur, chunks).ok
    ensures Rest(parse, model, buf, cur, st, AllOk(chunks)) == OutputFrom(model, st, ReadAll(parse, Fed(buf, cur, chunks).events))
    decreases |chunks|
  {
    if chunks != [] {
      var whole := buf + chunks[0];
      var f := FoldLines(cur, Lines(whole));
      var p := OnMsgs(model, st, ReadAll(parse, f.events));
      var later := Fed(Tail(whole), f.cur, chunks[1..]);
      ReadAllConcat(parse, f.events, later.events);
      OnMsgsConcat(model, st, ReadAll(parse, f.events), ReadAll(parse, later.events));
      GoodStream(parse, model, Tail(whole), f.cur, p.st, chunks[1..]);
      assert AllOk(chunks)[1..] == AllOk(chunks[1..]);
      if !p.stopped {
        var q := OnMsgs(model, p.st, ReadAll(parse, later.events));
        Regroup(p.items, q.items, Closing(model, q.st));
      }
    }
  }

  /** A transport error ends the output: what came before it was translated, the error itself is passed on. */
  lemma {:induction false} TransportErrorEnds(
    parse: Parse, model: string, buf: seq<u8>, cur: SseEvent, st: State, chunks: seq<seq<u8>>, e: Error, more: seq<Result<seq<u8>, Error>>)
    requires Fed(buf, cur, chunks).ok && !OnMsgs(model, st, ReadAll(parse, Fed(buf, cur, chunks).events)).stopped
    ensures Rest(parse, model, buf, cur, st, AllOk(chunks) + ([Err(e)] + more)) ==
      OnMsgs(model, st, ReadAll(parse, Fed(buf, cur, chunks).events)).items + [Failed(e)]
    decreases |chunks|
  {
    var upstream := AllOk(chunks) + ([Err(e)] + more);
    if chunks == [] {
      assert upstream[0] == Err(e);
    } else {
      var whole := buf + chunks[0];
      var f := FoldLines(cur, Lines(whole));
      var p := OnMsgs(model, st, ReadAll(parse, f.events));
      var later := Fed(Tail(whole), f.cur, chunks[1..]);
      ReadAllConcat(parse, f.events, later.events);
      OnMsgsConcat(model, st, ReadAll(parse, f.events), ReadAll(parse, later.events));
      assert upstream[0] == Ok(chunks[0]) && upstream[1..] == AllOk(chunks[1..]) + ([Err(e)] + more);
      TransportErrorEnds(parse, model, Tail(whole), f.cur, p.st, chunks[1..], e, more);
      Regroup(p.items, OnMsgs(model, p.st, ReadAll(parse, later.events)).items, [Failed(e)]);
    }
  }

  /** On a stream with a bad line whose earlier events yield nothing, the output is the one error. */
  lemma {:induction false} SilentBadStream(parse: Parse, model: string, buf: seq<u8>, cur: SseEvent, st: State, chunks: seq<seq<u8>>)
    requires var all := Fed(buf, cur, chunks);
      !all.ok && OnMsgs(model, st, ReadAll(parse, all.events)).items == []
    ensures Rest(parse, model, buf, cur, st, AllOk(chunks)) == [Failed(UpstreamError)]
    decreases |chunks|
  {
    var whole := buf + chunks[0];
    var f := FoldLines(cur, Lines(whole));
    if f.ok {
      var p := OnMsgs(model, st, ReadAll(parse, f.events));
      var later := Fed(Tail(whole), f.cur, chunks[1..]);
      ReadAllConcat(parse, f.events, later.events);
      OnMsgsConcat(model, st, ReadAll(parse, f.events), ReadAll(parse, later.events));
      OnMsgsFailsLast(model, st, ReadAll(parse, f.events));
      assert p.items == [];
      SilentBadStream(parse, model, Tail(whole), f.cur, p.st, chunks[1..]);
      assert AllOk(chunks)[1..] == AllOk(chunks[1..]);
    }
  }

  /** The cut is at the end of a line, and the first bad line of `s` comes right after it. */
  predicate CutAtBadLine(cur: SseEvent, s: seq<u8>, a: seq<u8>, b: seq<u8>) {
    var f := FoldLines(cur, Lines(a));
    && s == a + b && Tail(a) == []
    && f.ok && f.events == FoldLines(cur, Lines(s)).events && !FoldLines(f.cur, Lines(b)).ok
  }

  /** A stream with a bad line can be cut right before that line. */
  lemma {:induction false} CutBeforeBadLine(cur: SseEvent, s: seq<u8>) returns (a: seq<u8>, b: seq<u8>)
    requires !FoldLines(cur, Lines(s)).ok
    ensures CutAtBadLine(cur, s, a, b)
    decreases |s|
  {
    LinesCons(s);
    var n := FirstLf(s);
    var line, later := s[..n], s[n+1..];
    FoldCons(cur, line, Lines(later));
    if !Valid(StripCr(line)) {
      a, b := [], s;
    } else {
      var step := FoldLine(cur, Decode(StripCr(line)));
      var a1;
      a1, b := CutBeforeBadLine(step.0, later);
      a := line + [LF] + a1;
      NoLfBefore(s);
      LineInFront(line, a1);
      FirstLfIsFirst(s);
      Reassemble(s, n, a1, b);
      FoldCons(cur, line, Lines(a1));
    }
  }

  lemma Reassemble(s: seq<u8>, n: nat, a: seq<u8>, b: seq<u8>)
    requires n < |s| && s[n] == LF && s[n+1..] == a + b
    ensures s == (s[..n] + [LF] + a) + b
  {
    assert s == s[..n] + [LF] + s[n+1..];
  }

  lemma {:induction false} LineInFront(line: seq<u8>, later: seq<u8>)
    requires FirstLf(line) == |line|
    ensures Lines(line + [LF] + later) == [line] + Lines(later)
    ensures Tail(line + [LF] + later) == Tail(later)
  {
    var whole := line + [LF] + later;
    assert whole == line + ([LF] + later);
    FirstLfConcat(line, [LF] + later);
    assert FirstLf(whole) == |line|;
    assert whole[..|line|] == line && whole[|line|+1..] == later;
    LinesCons(whole);
  }

  lemma {:induction false} NoLfBefore(s: seq<u8>)
    ensures FirstLf(s[..FirstLf(s)]) == FirstLf(s)
  {
    if s != [] && s[0] != LF {
      NoLfBefore(s[1..]);
      assert s[..FirstLf(s)][1..] == s[1..][..FirstLf(s[1..])];
    }
  }

  /** The messages a byte stream carries, up to its first line that does not decode. */
  function MsgsIn(parse: Parse, bytes: seq<u8>): seq<Msg> {
    ReadAll(parse, FoldLines(EMPTY, Lines(bytes)).events)
  }

  /** The stream decodes, or nothing was to be output before its first bad line. */
  predicate CutsDoNotMatter(parse: Parse, model: string, s: seq<u8>) {
    FoldLines(EMPTY, Lines(s)).ok || OnMsgs(model, INITIAL, MsgsIn(parse, s)).items == []
  }

  lemma {:induction false} SameOutputAsOneChunk(parse: Parse, model: string, chunks: seq<seq<u8>>)
    requires CutsDoNotMatter(parse, model, Flatten(chunks))
    ensures Run(parse, model, AllOk(chunks)) == Run(parse, model, AllOk([Flatten(chunks)]))
  {
    ChunkIndependence(chunks);
    if FoldLines(EMPTY, Lines(Flatten(chunks))).ok {
      GoodStream(parse, model, [], EMPTY, INITIAL, chunks);
      GoodStream(parse, model, [], EMPTY, INITIAL, [Flatten(chunks)]);
    } else {
      SilentBadStream(parse, model, [], EMPTY, INITIAL, chunks);
      SilentBadStream(parse, model, [], EMPTY, INITIAL, [Flatten(chunks)]);
    }
  }

  lemma CutThatDiffers(parse: Parse, model: string, s: seq<u8>) returns (chunks: seq<seq<u8>>)
    requires !CutsDoNotMatter(parse, model, s)
    ensures Flatten(chunks) == s && Run(parse, model, AllOk(chunks)) != Run(parse, model, AllOk([s]))
  {
    var a, b := CutBeforeBadLine(EMPTY, s);
    TwoChunksKeepEvents(parse, model, s, a, b);
    chunks := [a, b];
    assert Flatten([b]) == b + Flatten([]) == b;
    assert chunks[1..] == [b];
    assert Flatten(chunks) == a + Flatten(chunks[1..]);
    assert AllOk([b]) == [Ok(b)] + AllOk([b][1..]) == [Ok(b)];
    assert AllOk(chunks) == [Ok(a)] + AllOk(chunks[1..]) == [Ok(a), Ok(b)];
    assert AllOk([s]) == [Ok(s)] + AllOk([s][1..]) == [Ok(s)];
  }

  predicate CutAs(chunks: seq<seq<u8>>, s: seq<u8>) { Flatten(chunks) == s }

  /**
    Chunk independence of the translation, exactly: every way of cutting the stream gives the output of
    a single chunk if and only if the stream decodes, or nothing was to be output before the bad line.
    Otherwise events completed in the chunk of the bad line are discarded with it.
  */
  lemma TranslationChunkIndependence(parse: Parse, model: string, s: seq<u8>)
    ensures CutsDoNotMatter(parse, model, s)
       <==> forall chunks :: CutAs(chunks, s) ==> Run(parse, model, AllOk(chunks)) == Run(parse, model, AllOk([s]))
  {
    if CutsDoNotMatter(parse, model, s) {
      forall chunks | CutAs(chunks, s) ensures Run(parse, model, AllOk(chunks)) == Run(parse, model, AllOk([s])) {
        SameOutputAsOneChunk(parse, model, chunks);
      }
    } else {
      var chunks := CutThatDiffers(parse, model, s);
      assert CutAs(chunks, s);
    }
  }

  lemma {:induction false} TwoChunksKeepEvents(parse: Parse, model: string, s: seq<u8>, a: seq<u8>, b: seq<u8>)
    requires CutAtBadLine(EMPTY, s, a, b) && !CutsDoNotMatter(parse, model, s)
    ensures Run(parse, model, [Ok(s)]) == [Failed(UpstreamError)]
    ensures Run(parse, model, [Ok(a), Ok(b)]) != [Failed(UpstreamError)]
  {
    assert [] + s == s && [] + a == a && [] + b == b;
    var f := FoldLines(EMPTY, Lines(a));
    var p := OnMsgs(model, INITIAL, ReadAll(parse, f.events));
    NeverUpstreamError(model, INITIAL, ReadAll(parse, f.events));
    var two := [Ok(a), Ok(b)];
    assert two[1..] == [Ok(b)];
    assert Run(parse, model, two)[0] == p.items[0];
  }

  /** The translator itself only ever fails with `Unsupported`. */
  lemma {:induction false} NeverUpstreamError(model: string, st: State, msgs: seq<Msg>)
    ensures forall i :: 0 <= i < |OnMsgs(model, st, msgs).items| ==> OnMsgs(model, st, msgs).items[i] != Failed(UpstreamError)
    decreases |msgs|
  {
    if msgs != [] {
      var p := OnMsg(model, st, msgs[0]);
      if !p.stopped {
        NeverUpstreamError(model, p.st, msgs[1..]);
      }
    }
  }

  // ---- the end marker ----

  function Dones(items: seq<Item>): nat {
    if items == [] then 0 else (if items[0].Done? then 1 else 0) + Dones(items[1..])
  }

  function Stops(msgs: seq<Msg>): nat {
    if msgs == [] then 0 else (if msgs[0].MessageStop? then 1 else 0) + Stops(msgs[1..])
  }

  lemma {:induction false} DonesConcat(a: seq<Item>, b: seq<Item>)
    ensures Dones(a + b) == Dones(a) + Dones(b)
  {
    if a == [] {
      assert a + b == b;
    } else {
      assert (a + b)[1..] == a[1..] + b;
      DonesConcat(a[1..], b);
    }
  }

  lemma ClosingHasOneDone(model: string, st: State)
    ensures Dones(Closing(model, st)) == 1
  {
    assert Closing(model, st)[1..] == [Done] && [Done][1..] == [];
    assert Dones([Done]) == 1 + Dones([Done][1..]);
  }

  lemma {:induction false} DoneIsStop(model: string, st: State, m: Msg)
    ensures var p := OnMsg(model, st, m);
      Dones(p.items) == (if m.MessageStop? then 1 else 0) && (p.st.doneSent <==> st.doneSent || m.MessageStop?)
  {
    ClosingHasOneDone(model, st);
    if m.BlockDelta? && m.text.Some? {
      assert [Content(model, st.id, m.text.value)][1..] == [];
    }
  }

  lemma {:induction false} DonesAreStops(model: string, st: State, msgs: seq<Msg>)
    requires !OnMsgs(model, st, msgs).stopped
    ensures var p := OnMsgs(model, st, msgs);
      Dones(p.items) == Stops(msgs) && (p.st.doneSent <==> st.doneSent || Stops(msgs) > 0)
    decreases |msgs|
  {
    if msgs != [] {
      var p := OnMsg(model, st, msgs[0]);
      DoneIsStop(model, st, msgs[0]);
      DonesAreStops(model, p.st, msgs[1..]);
      DonesConcat(p.items, OnMsgs(model, p.st, msgs[1..]).items);
    }
  }

  /**
    A stream that is translated to its end carries exactly one end marker if and only if the upstream
    sent at most one stop message; a repeated stop message is answered again each time.
  */
  lemma {:induction false} ExactlyOneDoneIff(model: string, msgs: seq<Msg>)
    requires !OnMsgs(model, INITIAL, msgs).stopped
    ensures Dones(OutputFrom(model, INITIAL, msgs)) == 1 <==> Stops(msgs) <= 1
    ensures Dones(OutputFrom(model, INITIAL, msgs)) >= 1
  {
    var p := OnMsgs(model, INITIAL, msgs);
    DonesAreStops(model, INITIAL, msgs);
    ClosingHasOneDone(model, p.st);
    DonesConcat(p.items, Closing(model, p.st));
  }

  /** Two stop messages, two end markers. */
  lemma {:induction false} TwoStopsTwoDones(model: string)
    ensures var p := OnMsgs(model, INITIAL, [MessageStop, MessageStop]);
      !p.stopped && Dones(OutputFrom(model, INITIAL, [MessageStop, MessageStop])) == 2
  {
    var msgs := [MessageStop, MessageStop];
    assert msgs[1..] == [MessageStop] && [MessageStop][1..] == [];
    assert !OnMsgs(model, INITIAL.(doneSent := true), [MessageStop]).stopped;
    DonesAreStops(model, INITIAL, msgs);
    assert Stops([MessageStop]) == 1 && Stops(msgs) == 2;
  }

  /** The message yields a content frame. */
  predicate Speaks(m: Msg) { m.BlockDelta? && m.text.Some? }

  predicate Silent(msgs: seq<Msg>) {
    forall i :: 0 <= i < |msgs| ==> !Speaks(msgs[i])
  }

  /** What follows the first stop message. */
  function AfterStop(msgs: seq<Msg>): seq<Msg> {
    if msgs == [] then [] else if msgs[0].MessageStop? then msgs[1..] else AfterStop(msgs[1..])
  }

  predicate OnlyContent(items: seq<Item>) {
    forall i :: 0 <= i < |items| ==> items[i].Content?
  }

  /** Without a stop message there is only content, and none exactly if nothing speaks. */
  lemma {:induction false} ItemsBeforeStop(model: string, st: State, msgs: seq<Msg>)
    requires !OnMsgs(model, st, msgs).stopped && Stops(msgs) == 0
    ensures var p := OnMsgs(model, st, msgs);
      OnlyContent(p.items) && (p.items == [] <==> Silent(msgs)) && p.st.doneSent == st.doneSent
    decreases |msgs|
  {
    if msgs != [] {
      var p := OnMsg(model, st, msgs[0]);
      ItemsBeforeStop(model, p.st, msgs[1..]);
      assert msgs == [msgs[0]] + msgs[1..];
      assert Silent(msgs) <==> !Speaks(msgs[0]) && Silent(msgs[1..]);
    }
  }

  lemma {:induction false} SplitAtStop(msgs: seq<Msg>) returns (before: seq<Msg>)
    requires Stops(msgs) >= 1
    ensures msgs == before + ([MessageStop] + AfterStop(msgs)) && Stops(before) == 0
    ensures Stops(msgs) == 1 + Stops(AfterStop(msgs))
    decreases |msgs|
  {
    if msgs[0].MessageStop? {
      before := [];
      assert msgs == [] + ([MessageStop] + msgs[1..]);
    } else {
      before := SplitAtStop(msgs[1..]);
      before := [msgs[0]] + before;
      assert before[1..] + ([MessageStop] + AfterStop(msgs)) == msgs[1..];
      assert msgs == [msgs[0]] + msgs[1..];
    }
  }

  /** The output of a stream that has its one stop: content, the closing frames, and what comes after. */
  lemma {:induction false} OutputAroundStop(model: string, st: State, before: seq<Msg>, after: seq<Msg>)
    requires Stops(before) == 0 && !OnMsgs(model, st, before + ([MessageStop] + after)).stopped
    ensures var p := OnMsgs(model, st, before);
      var q := OnMsgs(model, p.st.(doneSent := true), after);
      && !p.stopped && !q.stopped
      && OnMsgs(model, st, before + ([MessageStop] + after)).items == p.items + (Closing(model, p.st) + q.items)
  {
    OnMsgsConcat(model, st, before, [MessageStop] + after);
    assert ([MessageStop] + after)[0] == MessageStop && ([MessageStop] + after)[1..] == after;
  }

  lemma LastOfAppended(a: seq<Item>, b: seq<Item>)
    requires b != []
    ensures a + b != [] && (a + b)[|a + b| - 1] == b[|b|-1]
  {
  }

  predicate EndsWithDone(items: seq<Item>) { items != [] && items[|items|-1].Done? }

  /**
    The stream ends in its only end marker if and only if the upstream sent at most one stop message and
    nothing that speaks after it; with no stop message the translator closes the stream itself.
  */
  lemma {:induction false} OnlyDoneIsLastIff(model: string, msgs: seq<Msg>)
    requires !OnMsgs(model, INITIAL, msgs).stopped
    ensures var out := OutputFrom(model, INITIAL, msgs);
      Dones(out) == 1 && EndsWithDone(out) <==> Stops(msgs) <= 1 && Silent(AfterStop(msgs))
  {
    ExactlyOneDoneIff(model, msgs);
    var p := OnMsgs(model, INITIAL, msgs);
    if Stops(msgs) == 0 {
      ItemsBeforeStop(model, INITIAL, msgs);
      LastOfAppended(p.items, Closing(model, p.st));
      NothingAfterNoStop(msgs);
    } else if Stops(msgs) == 1 {
      var before := SplitAtStop(msgs);
      OutputAroundStop(model, INITIAL, before, AfterStop(msgs));
      var b := OnMsgs(model, INITIAL, before);
      var q := OnMsgs(model, b.st.(doneSent := true), AfterStop(msgs));
      ItemsBeforeStop(model, b.st.(doneSent := true), AfterStop(msgs));
      DonesAreStops(model, INITIAL, msgs);
      LastOfAppended(b.items, Closing(model, b.st) + q.items);
      if q.items != [] {
        LastOfAppended(Closing(model, b.st), q.items);
      }
    }
  }

  /** Text after a stop follows the only end marker. */
  lemma {:induction false} TextAfterStop(model: string)
    ensures var msgs := [MessageStop, BlockDelta("text_delta", Some("x"))];
      && !OnMsgs(model, INITIAL, msgs).stopped
      && Dones(OutputFrom(model, INITIAL, msgs)) == 1 && !EndsWithDone(OutputFrom(model, INITIAL, msgs))
  {
    var delta := BlockDelta("text_delta", Some("x"));
    var msgs := [MessageStop, delta];
    assert msgs[1..] == [delta] && [delta][1..] == [];
    assert !OnMsgs(model, INITIAL.(doneSent := true), [delta]).stopped;
    assert Stops([delta]) == 0 && Stops(msgs) == 1;
    assert AfterStop(msgs) == [delta] && Speaks(AfterStop(msgs)[0]);
    ExactlyOneDoneIff(model, msgs);
    OnlyDoneIsLastIff(model, msgs);
  }

  lemma {:induction false} NothingAfterNoStop(msgs: seq<Msg>)
    requires Stops(msgs) == 0
    ensures AfterStop(msgs) == []
  {
    if msgs != [] {
      NothingAfterNoStop(msgs[1..]);
    }
  }

  /** Every line decodes and no message ends the translation with an error. */
  predicate Unbroken(parse: Parse, model: string, bytes: seq<u8>) {
    FoldLines(EMPTY, Lines(bytes)).ok && !OnMsgs(model, INITIAL, MsgsIn(parse, bytes)).stopped
  }

  /** The same of the translation of bytes, however they are cut. */
  lemma {:induction false} TranslationEndsWithOnlyDoneIff(parse: Parse, model: string, chunks: seq<seq<u8>>)
    requires Unbroken(parse, model, Flatten(chunks))
    ensures var out, msgs := Run(parse, model, AllOk(chunks)), MsgsIn(parse, Flatten(chunks));
      && (Dones(out) == 1 <==> Stops(msgs) <= 1)
      && (Dones(out) == 1 && EndsWithDone(out) <==> Stops(msgs) <= 1 && Silent(AfterStop(msgs)))
  {
    hide OnMsgs, ReadAll, Dones, Stops, Silent, AfterStop;
    ChunkIndependence(chunks);
    GoodStream(parse, model, [], EMPTY, INITIAL, chunks);
    ExactlyOneDoneIff(model, MsgsIn(parse, Flatten(chunks)));
    OnlyDoneIsLastIff(model, MsgsIn(parse, Flatten(chunks)));
  }

  // ---- streaming agrees with non-streaming ----

  function Join(pieces: seq<string>): string {
    if pieces == [] then [] else pieces[0] + Join(pieces[1..])
  }

  function Deltas(pieces: seq<string>): seq<Msg> {
    if pieces == [] then [] else [BlockDelta("text_delta", Some(pieces[0]))] + Deltas(pieces[1..])
  }

  /** The messages of a reply whose blocks arrive in the given pieces. */
  function BlockMsgs(blocks: seq<seq<string>>): seq<Msg> {
    if blocks == [] then [] else [BlockStart("text")] + Deltas(blocks[0]) + BlockMsgs(blocks[1..])
  }

  function ReplyMsgs(id: Option<string>, blocks: seq<seq<string>>, stopReason: Option<string>): seq<Msg> {
    [MessageStart(id)] + BlockMsgs(blocks) + [MessageDelta(stopReason), MessageStop]
  }

  /** The same reply when it is not streamed. */
  function Reply(id: Option<string>, blocks: seq<seq<string>>, stopReason: Option<string>, tokens: (Option<u64>, Option<u64>)): Message {
    Message(id, WholeBlocks(blocks), stopReason, tokens.0, tokens.1)
  }

  function WholeBlocks(blocks: seq<seq<string>>): (r: seq<Block>)
    ensures |r| == |blocks|
  {
    if blocks == [] then [] else [Block(Some("text"), Some(Join(blocks[0])))] + WholeBlocks(blocks[1..])
  }

  /** The messages that do anything: pings, block ends and frames that are not JSON are left out. */
  function Loud(msgs: seq<Msg>): seq<Msg> {
    if msgs == [] then [] else (if msgs[0].Other? then [] else [msgs[0]]) + Loud(msgs[1..])
  }

  lemma {:induction false} OnlyLoudMatters(model: string, st: State, msgs: seq<Msg>)
    ensures OnMsgs(model, st, msgs) == OnMsgs(model, st, Loud(msgs))
    decreases |msgs|
  {
    if msgs != [] {
      var p := OnMsg(model, st, msgs[0]);
      OnlyLoudMatters(model, p.st, msgs[1..]);
      if msgs[0].Other? {
        assert Loud(msgs) == Loud(msgs[1..]);
        assert Then([], OnMsgs(model, st, msgs[1..])) == OnMsgs(model, st, msgs[1..]);
      } else {
        assert Loud(msgs)[1..] == Loud(msgs[1..]);
      }
    }
  }

  function Frames(model: string, id: string, pieces: seq<string>): seq<Item> {
    if pieces == [] then [] else [Content(model, id, pieces[0])] + Frames(model, id, pieces[1..])
  }

  function AllPieces(blocks: seq<seq<string>>): seq<string> {
    if blocks == [] then [] else blocks[0] + AllPieces(blocks[1..])
  }

  lemma {:induction false} FramesConcat(model: string, id: string, a: seq<string>, b: seq<string>)
    ensures Frames(model, id, a + b) == Frames(model, id, a) + Frames(model, id, b)
  {
    if a == [] {
      assert a + b == b;
    } else {
      assert (a + b)[1..] == a[1..] + b;
      FramesConcat(model, id, a[1..], b);
    }
  }

  lemma {:induction false} DeltasGiveFrames(model: string, st: State, pieces: seq<string>)
    ensures OnMsgs(model, st, Deltas(pieces)) == Progress(st, Frames(model, st.id, pieces), false)
    decreases |pieces|
  {
    if pieces != [] {
      assert Deltas(pieces)[1..] == Deltas(pieces[1..]);
      DeltasGiveFrames(model, st, pieces[1..]);
    }
  }

  lemma {:induction false} BlocksGiveFrames(model: string, st: State, blocks: seq<seq<string>>)
    ensures OnMsgs(model, st, BlockMsgs(blocks)) == Progress(st, Frames(model, st.id, AllPieces(blocks)), false)
    decreases |blocks|
  {
    if blocks != [] {
      var tail := BlockMsgs(blocks[1..]);
      var here := [BlockStart("text")] + Deltas(blocks[0]);
      assert here[1..] == Deltas(blocks[0]);
      DeltasGiveFrames(model, st, blocks[0]);
      assert OnMsgs(model, st, here) == Progress(st, Frames(model, st.id, blocks[0]), false);
      OnMsgsConcat(model, st, here, tail);
      BlocksGiveFrames(model, st, blocks[1..]);
      FramesConcat(model, st.id, blocks[0], AllPieces(blocks[1..]));
    }
  }

  lemma {:induction false} JoinConcat(a: seq<string>, b: seq<string>)
    ensures Join(a + b) == Join(a) + Join(b)
  {
    if a == [] {
      assert a + b == b;
    } else {
      assert (a + b)[1..] == a[1..] + b;
      JoinConcat(a[1..], b);
    }
  }

  lemma {:induction false} BlocksHoldAllText(blocks: seq<seq<string>>)
    ensures TextOf(WholeBlocks(blocks)) == Join(AllPieces(blocks))
    ensures forall i :: 0 <= i < |WholeBlocks(blocks)| ==> IsText(WholeBlocks(blocks)[i])
  {
    if blocks != [] {
      assert WholeBlocks(blocks)[1..] == WholeBlocks(blocks[1..]);
      BlocksHoldAllText(blocks[1..]);
      JoinConcat(blocks[0], AllPieces(blocks[1..]));
    }
  }

  /** The text of all content frames, in order. */
  function Contents(items: seq<Item>): string {
    if items == [] then [] else (if items[0].Content? then items[0].text else []) + Contents(items[1..])
  }

  lemma {:induction false} ContentsOfFrames(model: string, id: string, pieces: seq<string>, end: seq<Item>)
    requires Contents(end) == []
    ensures Contents(Frames(model, id, pieces) + end) == Join(pieces)
  {
    var all := Frames(model, id, pieces) + end;
    if pieces == [] {
      assert all == end;
    } else {
      assert all[1..] == Frames(model, id, pieces[1..]) + end;
      ContentsOfFrames(model, id, pieces[1..], end);
    }
  }

  /** The output for a reply, frame by frame. */
  lemma {:induction false} ReplyOutput(model: string, msgs: seq<Msg>, id: Option<string>, blocks: seq<seq<string>>, stopReason: Option<string>)
    requires Loud(msgs) == ReplyMsgs(id, blocks, stopReason)
    ensures !OnMsgs(model, INITIAL, msgs).stopped
    ensures OutputFrom(model, INITIAL, msgs) ==
      Frames(model, OrElse(id, DEFAULT_ID), AllPieces(blocks))
      + [Finish(model, OrElse(id, DEFAULT_ID), OrElse(MapStopReason(stopReason), "stop")), Done]
  {
    OnlyLoudMatters(model, INITIAL, msgs);
    var st := INITIAL.(id := OrElse(id, DEFAULT_ID));
    StartOutput(model, id);
    OnMsgsConcat(model, INITIAL, [MessageStart(id)], BlockMsgs(blocks));
    BlocksGiveFrames(model, st, blocks);
    OnMsgsConcat(model, INITIAL, [MessageStart(id)] + BlockMsgs(blocks), [MessageDelta(stopReason), MessageStop]);
    EndOutput(model, st, stopReason);
  }

  lemma {:induction false} StartOutput(model: string, id: Option<string>)
    ensures OnMsgs(model, INITIAL, [MessageStart(id)]) == Progress(INITIAL.(id := OrElse(id, DEFAULT_ID)), [], false)
  {
    assert [MessageStart(id)][1..] == [];
  }

  lemma {:induction false} EndOutput(model: string, st: State, stopReason: Option<string>)
    ensures var st2 := if stopReason.Some? then st.(finish := MapStopReason(stopReason)) else st;
      OnMsgs(model, st, [MessageDelta(stopReason), MessageStop]) == Progress(st2.(doneSent := true), Closing(model, st2), false)
  {
    var st2 := if stopReason.Some? then st.(finish := MapStopReason(stopReason)) else st;
    assert [MessageDelta(stopReason), MessageStop][1..] == [MessageStop] && [MessageStop][1..] == [];
    assert OnMsgs(model, st2, [MessageStop]) == Progress(st2.(doneSent := true), Closing(model, st2), false);
  }

  /** A reply whose stream ends without its stop message is closed in the same way. */
  lemma {:induction false} CutShortOutput(model: string, msgs: seq<Msg>, id: Option<string>, blocks: seq<seq<string>>, stopReason: Option<string>)
    requires Loud(msgs) == [MessageStart(id)] + BlockMsgs(blocks) + [MessageDelta(stopReason)]
    ensures OutputFrom(model, INITIAL, msgs) ==
      Frames(model, OrElse(id, DEFAULT_ID), AllPieces(blocks))
      + [Finish(model, OrElse(id, DEFAULT_ID), OrElse(MapStopReason(stopReason), "stop")), Done]
  {
    hide Frames, AllPieces, BlockMsgs, Loud;
    OnlyLoudMatters(model, INITIAL, msgs);
    var st := INITIAL.(id := OrElse(id, DEFAULT_ID));
    StartOutput(model, id);
    OnMsgsConcat(model, INITIAL, [MessageStart(id)], BlockMsgs(blocks));
    BlocksGiveFrames(model, st, blocks);
    OnMsgsConcat(model, INITIAL, [MessageStart(id)] + BlockMsgs(blocks), [MessageDelta(stopReason)]);
    assert [MessageDelta(stopReason)][1..] == [];
  }

  /** Ids and reasons that come later win, absent ones leave the last, and a delta without text says nothing. */
  lemma LastWordCounts(model: string, st: State, m: Msg)
    ensures var p := OnMsg(model, st, m);
      && (m.MessageStart? ==> p == Progress(st.(id := if m.id.Some? then m.id.value else st.id), [], false))
      && (m.MessageDelta? ==> p == Progress(
            if m.stopReason == None then st else st.(finish := Some(if m.stopReason.value == "max_tokens" then "length" else "stop")), [], false))
      && (m == BlockDelta("text_delta", None) ==> p == Progress(st, [], false))
  {
  }

  /**
    Streaming agrees with non-streaming: however the text of a reply is split into deltas, and whatever
    ignorable events come in between, the frames carry exactly the text, id and finish reason of the
    non-streaming translation of the same reply, and the stream ends with its only end marker.
  */
  lemma {:induction false} StreamingAgrees(
    model: string, msgs: seq<Msg>, id: Option<string>, blocks: seq<seq<string>>, stopReason: Option<string>,
    tokens: (Option<u64>, Option<u64>), whole: Completion)
    requires Loud(msgs) == ReplyMsgs(id, blocks, stopReason)
    requires Translated(Reply(id, blocks, stopReason, tokens), model, whole)
    ensures var out := OutputFrom(model, INITIAL, msgs);
      && Contents(out) == whole.content
      && (forall i :: 0 <= i < |out| && out[i].Content? ==> out[i].id == whole.id)
      && |out| >= 2 && out[|out|-2] == Finish(model, whole.id, whole.finish) && out[|out|-1] == Done
      && Dones(out) == 1
  {
    ReplyOutput(model, msgs, id, blocks, stopReason);
    BlocksHoldAllText(blocks);
    var end := [Finish(model, whole.id, whole.finish), Done];
    assert end[1..] == [Done] && [Done][1..] == [];
    assert Contents([Done]) == [] && Contents(end) == [];
    ContentsOfFrames(model, whole.id, AllPieces(blocks), end);
    FramesShape(model, whole.id, AllPieces(blocks));
    DonesConcat(Frames(model, whole.id, AllPieces(blocks)), end);
    assert Dones([Done]) == 1 && Dones(end) == 1;
  }

  lemma {:induction false} FramesShape(model: string, id: string, pieces: seq<string>)
    ensures forall i :: 0 <= i < |Frames(model, id, pieces)| ==>
      Frames(model, id, pieces)[i].Content? && Frames(model, id, pieces)[i].id == id
    ensures Dones(Frames(model, id, pieces)) == 0
  {
    if pieces != [] {
      FramesShape(model, id, pieces[1..]);
      assert Frames(model, id, pieces)[1..] == Frames(model, id, pieces[1..]);
    }
  }
}
