/** Anthropic event stream to OpenAI frame stream (crates/moaray-providers/src/anthropic_sse.rs). */
module Translate {
  import opened Wrappers
  import opened Utf8
  import opened Errors
  import opened Sse
  import opened AnthropicMap

  /** The fields of a decoded JSON payload that the translator looks at. */
  datatype Payload = Payload(
    kind: Option<string>,
    messageId: Option<string>,
    blockKind: Option<string>,
    deltaKind: Option<string>,
    deltaText: Option<string>,
    stopReason: Option<string>)

  /** The JSON decoder; `None` when the text is not JSON. */
  type Parse = string -> Option<Payload>

  /** One frame of the output stream, or the error that ends it. */
  datatype Item =
    | Content(model: string, id: string, text: string)
    | Finish(model: string, id: string, reason: string)
    | Done
    | Failed(error: Error)

  /** What an event means to the translator. */
  datatype Msg =
    | MessageStart(id: Option<string>)
    | BlockStart(kind: string)
    | BlockDelta(kind: string, text: Option<string>)
    | MessageDelta(stopReason: Option<string>)
    | MessageStop
    | Other

  function Read(parse: Parse, ev: SseEvent): Msg {
    var data := Trim(ev.data);
    if data == [] then Other
    else
      match parse(data)
      case None => Other
      case Some(p) =>
        var kind := if ev.event.Some? then ev.event.value else OrElse(p.kind, "");
        if kind == "message_start" then MessageStart(p.messageId)
        else if kind == "content_block_start" then BlockStart(OrElse(p.blockKind, "text"))
        else if kind == "content_block_delta" then BlockDelta(OrElse(p.deltaKind, "text_delta"), p.deltaText)
        else if kind == "message_delta" then MessageDelta(p.stopReason)
        else if kind == "message_stop" then MessageStop
        else Other
  }

  function ReadAll(parse: Parse, events: seq<SseEvent>): (msgs: seq<Msg>)
    ensures |msgs| == |events|
  {
    if events == [] then [] else [Read(parse, events[0])] + ReadAll(parse, events[1..])
  }

  datatype State = State(id: string, finish: Option<string>, doneSent: bool)

  const INITIAL := State(DEFAULT_ID, None, false)

  /** Output so far, and whether an error item ended it. */
  datatype Progress = Progress(st: State, items: seq<Item>, stopped: bool)

  function Closing(model: string, st: State): seq<Item> {
    [Finish(model, st.id, OrElse(st.finish, "stop")), Done]
  }

  function OnMsg(model: string, st: State, m: Msg): Progress {
    match m
    case MessageStart(id) => Progress(st.(id := OrElse(id, st.id)), [], false)
    case BlockStart(kind) => if kind == "text" then Progress(st, [], false) else Progress(st, [Failed(Unsupported(kind))], true)
    case BlockDelta(kind, text) =>
      if kind != "text_delta" then Progress(st, [Failed(Unsupported(kind))], true)
      else if text.Some? then Progress(st, [Content(model, st.id, text.value)], false)
      else Progress(st, [], false)
    case MessageDelta(reason) =>
      Progress(if reason.Some? then st.(finish := MapStopReason(reason)) else st, [], false)
    case MessageStop => Progress(st.(doneSent := true), Closing(model, st), false)
    case Other => Progress(st, [], false)
  }

  function Then(items: seq<Item>, p: Progress): Progress { p.(items := items + p.items) }

  function OnMsgs(model: string, st: State, msgs: seq<Msg>): Progress
    decreases |msgs|
  {
    if msgs == [] then Progress(st, [], false)
    else
      var p := OnMsg(model, st, msgs[0]);
      if p.stopped then p else Then(p.items, OnMsgs(model, p.st, msgs[1..]))
  }

  lemma ThenThen(a: seq<Item>, b: seq<Item>, p: Progress)
    ensures Then(a, Then(b, p)) == Then(a + b, p)
  {
    assert a + (b + p.items) == (a + b) + p.items;
  }

  /** One turn of the event loop. */
  lemma {:induction false} OneEvent(parse: Parse, model: string, out: seq<Item>, st: State, events: seq<SseEvent>)
    requires events != []
    ensures var p := OnMsg(model, st, Read(parse, events[0]));
      Then(out, OnMsgs(model, st, ReadAll(parse, events))) ==
        if p.stopped then Then(out, p) else Then(out + p.items, OnMsgs(model, p.st, ReadAll(parse, events[1..])))
  {
    var p := OnMsg(model, st, Read(parse, events[0]));
    assert ReadAll(parse, events)[1..] == ReadAll(parse, events[1..]);
    ThenThen(out, p.items, OnMsgs(model, p.st, ReadAll(parse, events[1..])));
  }

  // ---- the translator ----

  /** The output for the rest of the upstream, from a given parser and translator state. */
  function Rest(
    parse: Parse, model: string, buf: seq<u8>, cur: SseEvent, st: State, upstream: seq<Result<seq<u8>, Error>>): seq<Item>
    decreases |upstream|
  {
    if upstream == [] then if st.doneSent then [] else Closing(model, st)
    else
      match upstream[0]
      case Err(e) => [Failed(e)]
      case Ok(bytes) =>
        var f := FoldLines(cur, Lines(buf + bytes));
        if !f.ok then [Failed(UpstreamError)]
        else
          var p := OnMsgs(model, st, ReadAll(parse, f.events));
          if p.stopped then p.items
          else p.items + Rest(parse, model, Tail(buf + bytes), f.cur, p.st, upstream[1..])
  }

  class Translator {
    const model: string
    var id: string
    var finish: Option<string>
    var doneSent: bool

    constructor (model: string)
      ensures this.model == model && View() == INITIAL
    {
      this.model := model;
      id := DEFAULT_ID;
      finish := None;
      doneSent := false;
    }

    function View(): State
      reads this
    {
      State(id, finish, doneSent)
    }

    /** The body of the event loop; `stop` is the early return after an error item. */
    method OnEvent(parse: Parse, ev: SseEvent, out: seq<Item>) returns (newOut: seq<Item>, stop: bool)
      modifies this
      ensures var p := OnMsg(model, old(View()), Read(parse, ev));
        View() == p.st && newOut == out + p.items && stop == p.stopped
    {
      newOut, stop := out, false;
      var data := Trim(ev.data);
      if data == [] {
        return;
      }
      var parsed := parse(data);
      if parsed.None? {
        return;
      }
      var p := parsed.value;
      var kind := if ev.event.Some? then ev.event.value else OrElse(p.kind, "");
      if kind == "message_start" {
        if p.messageId.Some? {
          id := p.messageId.value;
        }
      } else if kind == "content_block_start" {
        var block := OrElse(p.blockKind, "text");
        if block != "text" {
          return out + [Failed(Unsupported(block))], true;
        }
      } else if kind == "content_block_delta" {
        var delta := OrElse(p.deltaKind, "text_delta");
        if delta != "text_delta" {
          return out + [Failed(Unsupported(delta))], true;
        }
        if p.deltaText.Some? {
          newOut := out + [Content(model, id, p.deltaText.value)];
        }
      } else if kind == "message_delta" {
        if p.stopReason.Some? {
          finish := MapStopReason(p.stopReason);
        }
      } else if kind == "message_stop" {
        newOut := out + [Finish(model, id, OrElse(finish, "stop")), Done];
        doneSent := true;
      }
    }

    /** All events of one chunk. */
    method OnEvents(parse: Parse, events: seq<SseEvent>, out: seq<Item>) returns (newOut: seq<Item>, stop: bool)
      modifies this
      ensures var p := OnMsgs(model, old(View()), ReadAll(parse, events));
        newOut == out + p.items && stop == p.stopped && (!stop ==> View() == p.st)
    {
      newOut, stop := out, false;
      ghost var all := Then(out, OnMsgs(model, View(), ReadAll(parse, events)));
      assert events[0..] == events;
      for n := 0 to |events|
        invariant !stop && all == Then(newOut, OnMsgs(model, View(), ReadAll(parse, events[n..])))
      {
        OneEvent(parse, model, newOut, View(), events[n..]);
        assert events[n..][1..] == events[n+1..];
        newOut, stop := OnEvent(parse, events[n], newOut);
        if stop {
          return;
        }
      }
    }
  }

  /** One chunk through the parser and the translator. */
  method TakeChunk(parse: Parse, parser: SseParser, translator: Translator, bytes: seq<u8>, out: seq<Item>)
    returns (newOut: seq<Item>, stop: bool)
    modifies parser, translator
    ensures var whole := old(parser.buf) + bytes;
      var f := FoldLines(old(parser.cur), Lines(whole));
      if !f.ok then stop && newOut == out + [Failed(UpstreamError)]
      else
        var p := OnMsgs(translator.model, old(translator.View()), ReadAll(parse, f.events));
        && newOut == out + p.items && stop == p.stopped
        && (!stop ==> parser.buf == Tail(whole) && parser.cur == f.cur && translator.View() == p.st)
  {
    ghost var f := FoldLines(parser.cur, Lines(parser.buf + bytes));
    var r, events := parser.Push(bytes, []);
    if r.Err? {
      return out + [Failed(r.error)], true;
    }
    assert events == f.events;
    newOut, stop := translator.OnEvents(parse, events, out);
  }

  /** The whole translation: one parser and one translator over all chunks, ended by the first error. */
  method Translate(parse: Parse, upstream: seq<Result<seq<u8>, Error>>, model: string) returns (out: seq<Item>)
    ensures out == Rest(parse, model, [], EMPTY, INITIAL, upstream)
  {
    var parser := new SseParser();
    var translator := new Translator(model);
    out := [];
    assert upstream[0..] == upstream;
    for n := 0 to |upstream|
      invariant translator.model == model
      invariant Rest(parse, model, [], EMPTY, INITIAL, upstream)
             == out + Rest(parse, model, parser.buf, parser.cur, translator.View(), upstream[n..])
    {
      match upstream[n] {
        case Err(e) => return out + [Failed(e)];
        case Ok(bytes) =>
          OneChunk(parse, model, out, parser.buf, parser.cur, translator.View(), bytes, upstream[n..]);
          assert upstream[n..][1..] == upstream[n+1..];
          var stop;
          out, stop := TakeChunk(parse, parser, translator, bytes, out);
          if stop {
            return;
          }
      }
    }
    if !translator.doneSent {
      out := out + [Finish(model, translator.id, OrElse(translator.finish, "stop")), Done];
    }
  }

  lemma {:induction false} OneChunk(
    parse: Parse, model: string, out: seq<Item>, buf: seq<u8>, cur: SseEvent, st: State, bytes: seq<u8>,
    upstream: seq<Result<seq<u8>, Error>>)
    requires upstream != [] && upstream[0] == Ok(bytes)
    ensures var f := FoldLines(cur, Lines(buf + bytes));
      var p := OnMsgs(model, st, ReadAll(parse, f.events));
      out + Rest(parse, model, buf, cur, st, upstream) ==
        if !f.ok then out + [Failed(UpstreamError)]
        else if p.stopped then out + p.items
        else (out + p.items) + Rest(parse, model, Tail(buf + bytes), f.cur, p.st, upstream[1..])
  {
    var f := FoldLines(cur, Lines(buf + bytes));
    var p := OnMsgs(model, st, ReadAll(parse, f.events));
    var rest := Rest(parse, model, Tail(buf + bytes), f.cur, p.st, upstream[1..]);
    assert out + (p.items + rest) == (out + p.items) + rest;
  }
}
