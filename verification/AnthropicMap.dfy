/** Anthropic response to OpenAI response, non-streaming (crates/moaray-providers/src/anthropic_map.rs). */
module AnthropicMap {
  import opened Wrappers
  import opened Errors
  import opened Bits

  const DEFAULT_ID := "chatcmpl-anthropic"

  /** The fields of a content block that are looked at; `None` is an absent or non-string field. */
  datatype Block = Block(kind: Option<string>, text: Option<string>)

  /** A decoded Messages response; `blocks` is empty when `content` is absent. */
  datatype Message = Message(
    id: Option<string>, blocks: seq<Block>, stopReason: Option<string>, inputTokens: Option<u64>, outputTokens: Option<u64>)

  datatype Completion = Completion(
    id: string, model: string, content: string, finish: string, promptTokens: u64, completionTokens: u64, totalTokens: u64)

  function OrElse<T>(o: Option<T>, default: T): T { if o.Some? then o.value else default }

  function MapStopReason(reason: Option<string>): Option<string> {
    match reason
    case None => None
    case Some(r) =>
      if r == "end_turn" || r == "stop_sequence" then Some("stop")
      else if r == "max_tokens" then Some("length")
      else Some("stop")
  }

  predicate IsText(b: Block) { OrElse(b.kind, "text") == "text" }

  /** The text of the blocks, in order, nothing between. */
  function TextOf(blocks: seq<Block>): string {
    if blocks == [] then [] else OrElse(blocks[0].text, "") + TextOf(blocks[1..])
  }

  lemma {:induction false} TextOfConcat(a: seq<Block>, b: seq<Block>)
    ensures TextOf(a + b) == TextOf(a) + TextOf(b)
  {
    if a == [] {
      assert a + b == b;
    } else {
      assert (a + b)[1..] == a[1..] + b;
      TextOfConcat(a[1..], b);
    }
  }

  /**
    The whole text, the id, the mapped stop reason and the token counts, each with its default. The total
    is a 64-bit sum: exact if and only if it fits.
  */
  predicate Translated(resp: Message, model: string, r: Completion) {
    && r.id == OrElse(resp.id, DEFAULT_ID) && r.model == model
    && r.content == TextOf(resp.blocks)
    && r.finish == OrElse(MapStopReason(resp.stopReason), "stop")
    && r.promptTokens == OrElse(resp.inputTokens, 0) && r.completionTokens == OrElse(resp.outputTokens, 0)
    && (r.totalTokens == r.promptTokens + r.completionTokens <==> r.promptTokens + r.completionTokens < TWO_64)
    && r.totalTokens == (r.promptTokens + r.completionTokens) % TWO_64
  }

  /** The first block that is not text. */
  predicate FirstOther(blocks: seq<Block>, i: nat)
    requires i < |blocks|
  {
    && blocks[i].kind.Some? && blocks[i].kind.value != "text"
    && forall j :: 0 <= j < i ==> blocks[j].kind == None || blocks[j].kind == Some("text")
  }

  /** Refused exactly when some block is not text; otherwise translated. */
  method AnthropicToOpenai(resp: Message, model: string) returns (r: Result<Completion, Error>)
    ensures r.Ok? <==> forall i :: 0 <= i < |resp.blocks| ==> resp.blocks[i].kind == None || resp.blocks[i].kind == Some("text")
    ensures r.Err? ==> exists i :: 0 <= i < |resp.blocks| && FirstOther(resp.blocks, i) && r.error == Unsupported(resp.blocks[i].kind.value)
    ensures r.Ok? ==> Translated(resp, model, r.value)
    ensures r.Ok? ==>
      && r.value.id == (if resp.id.Some? then resp.id.value else "chatcmpl-anthropic")
      && r.value.finish == (if resp.stopReason == Some("max_tokens") then "length" else "stop")
      && r.value.promptTokens == (if resp.inputTokens.Some? then resp.inputTokens.value else 0)
      && r.value.completionTokens == (if resp.outputTokens.Some? then resp.outputTokens.value else 0)
  {
    var text := "";
    for n := 0 to |resp.blocks|
      invariant forall i :: 0 <= i < n ==> IsText(resp.blocks[i])
      invariant text == TextOf(resp.blocks[..n])
    {
      var b := resp.blocks[n];
      if !IsText(b) {
        assert FirstOther(resp.blocks, n);
        return Err(Unsupported(OrElse(b.kind, "text")));
      }
      if b.text.Some? {
        text := text + b.text.value;
      }
      assert resp.blocks[..n+1] == resp.blocks[..n] + [b];
      TextOfConcat(resp.blocks[..n], [b]);
    }
    assert resp.blocks[..|resp.blocks|] == resp.blocks;
    var prompt, completion := OrElse(resp.inputTokens, 0), OrElse(resp.outputTokens, 0);
    return Ok(Completion(
      OrElse(resp.id, DEFAULT_ID), model, text, OrElse(MapStopReason(resp.stopReason), "stop"),
      prompt, completion, (prompt + completion) % TWO_64));
  }
}
