/** Whole Anthropic messages and their translation (app/providers/anthropic.py:170-226). */
module AnthropicResponse {
  import opened Arithmetic
  import opened Wrappers
  import opened Schemas

  datatype Json =
    | Null
    | Bool(b: bool)
    | Number(n: int)
    | String(s: string)
    | Array(items: seq<Json>)
    | Object(fields: seq<(string, Json)>)

  const EMPTY_OBJECT := Object([])

  /** JSON text, which this model does not look into. */
  datatype JsonCodec = JsonCodec(dumps: Json -> string, loads: string -> Option<Json>)

  ghost predicate Lawful(codec: JsonCodec) {
    (forall j :: codec.loads(codec.dumps(j)) == Some(j)) && codec.loads("") == None
  }

  datatype Block =
    | TextBlock(text: string)
    | ToolUse(id: Option<string>, name: Option<string>, input: Json)
    | OtherBlock

  datatype AnthropicMessage = AnthropicMessage(id: Option<string>, blocks: seq<Block>, stopReason: Option<string>,
                                               inputTokens: Option<int>, outputTokens: Option<int>)

  function FinishOf(stopReason: Option<string>): (finish: Finish)
    ensures finish == Length <==> stopReason == Some("max_tokens")
    ensures finish == ToolCalls <==> stopReason == Some("tool_use")
    ensures finish != ContentFilter
  {
    if stopReason == Some("end_turn") then Stop
    else if stopReason == Some("max_tokens") then Length
    else if stopReason == Some("tool_use") then ToolCalls
    else Stop
  }

  function TextOf(blocks: seq<Block>): string {
    if blocks == [] then ""
    else (if blocks[0].TextBlock? then blocks[0].text else "") + TextOf(blocks[1..])
  }

  function CallsOf(blocks: seq<Block>, codec: JsonCodec): seq<ToolCall> {
    if blocks == [] then []
    else if blocks[0].ToolUse? then
      [ToolCall(blocks[0].id, blocks[0].name, codec.dumps(blocks[0].input))] + CallsOf(blocks[1..], codec)
    else CallsOf(blocks[1..], codec)
  }

  /** A message without text has no content. */
  function NonEmpty(text: string): (content: Option<string>)
    ensures content.GetOr("") == text
    ensures content.None? <==> text == ""
  {
    if text == "" then None else Some(text)
  }

  /** The text and the calls of adjoining blocks adjoin: with `OneBlockGives` this fixes both. */
  lemma {:induction false} BlocksConcatenate(a: seq<Block>, b: seq<Block>, codec: JsonCodec)
    ensures TextOf(a + b) == TextOf(a) + TextOf(b)
    ensures CallsOf(a + b, codec) == CallsOf(a, codec) + CallsOf(b, codec)
  {
    if a == [] {
      assert a + b == b;
    } else {
      assert (a + b)[1..] == a[1..] + b;
      BlocksConcatenate(a[1..], b, codec);
      Associates(if a[0].TextBlock? then a[0].text else "", TextOf(a[1..]), TextOf(b));
    }
  }

  lemma OneBlockGives(block: Block, codec: JsonCodec)
    ensures TextOf([block]) == if block.TextBlock? then block.text else ""
    ensures CallsOf([block], codec)
         == if block.ToolUse? then [ToolCall(block.id, block.name, codec.dumps(block.input))] else []
  {
    assert [block][1..] == [];
  }

  function ToolCount(blocks: seq<Block>): nat {
    if blocks == [] then 0
    else ToolCount(blocks[..|blocks| - 1]) + if blocks[|blocks| - 1].ToolUse? then 1 else 0
  }

  lemma {:induction false} CallsCounted(blocks: seq<Block>, codec: JsonCodec)
    ensures |CallsOf(blocks, codec)| == ToolCount(blocks)
  {
    if blocks == [] {
    } else {
      var rest, last := blocks[..|blocks| - 1], blocks[|blocks| - 1];
      assert blocks == rest + [last];
      CallsCounted(rest, codec);
      BlocksConcatenate(rest, [last], codec);
      OneBlockGives(last, codec);
    }
  }

  /** Call `k` is the tool block that has `k` tool blocks before it. */
  lemma CallAt(blocks: seq<Block>, i: nat, codec: JsonCodec)
    requires i < |blocks| && blocks[i].ToolUse?
    ensures var calls, k := CallsOf(blocks, codec), ToolCount(blocks[..i]);
            k < |calls| && calls[k] == ToolCall(blocks[i].id, blocks[i].name, codec.dumps(blocks[i].input))
  {
    var before, after := blocks[..i], blocks[i + 1..];
    assert blocks == (before + [blocks[i]]) + after;
    BlocksConcatenate(before, [blocks[i]], codec);
    BlocksConcatenate(before + [blocks[i]], after, codec);
    OneBlockGives(blocks[i], codec);
    CallsCounted(before, codec);
  }

  function ResponseOf(m: AnthropicMessage, fallbackId: string, model: string, codec: JsonCodec): Response {
    var prompt, completion := m.inputTokens.GetOr(0), m.outputTokens.GetOr(0);
    Response(m.id.GetOr(fallbackId), model,
             Message(NonEmpty(TextOf(m.blocks)), CallsOf(m.blocks, codec)),
             FinishOf(m.stopReason),
             UsageInfo(prompt, completion, prompt + completion))
  }

  /** The loop over the content blocks. */
  method CollectBlocks(blocks: seq<Block>, codec: JsonCodec) returns (text: string, calls: seq<ToolCall>)
    ensures text == TextOf(blocks) && calls == CallsOf(blocks, codec)
  {
    text, calls := "", [];
    assert blocks[0..] == blocks;
    for i := 0 to |blocks|
      invariant TextOf(blocks) == text + TextOf(blocks[i..])
      invariant CallsOf(blocks, codec) == calls + CallsOf(blocks[i..], codec)
    {
      assert blocks[i..][1..] == blocks[i + 1..];
      match blocks[i] {
        case TextBlock(piece) => text := text + piece;
        case ToolUse(id, name, input) => calls := calls + [ToolCall(id, name, codec.dumps(input))];
        case OtherBlock =>
      }
    }
  }

  method TranslateResponse(m: AnthropicMessage, fallbackId: string, model: string, codec: JsonCodec)
    returns (r: Response)
    ensures r == ResponseOf(m, fallbackId, model, codec)
    ensures r.id == m.id.GetOr(fallbackId) && r.model == model
    ensures r.message.content.GetOr("") == TextOf(m.blocks)
    ensures r.message.content.None? <==> TextOf(m.blocks) == ""
    ensures |r.message.toolCalls| == ToolCount(m.blocks)
    ensures forall i :: 0 <= i < |m.blocks| && m.blocks[i].ToolUse? ==>
              var k := ToolCount(m.blocks[..i]);
              && k < |r.message.toolCalls|
              && r.message.toolCalls[k]
                 == ToolCall(m.blocks[i].id, m.blocks[i].name, codec.dumps(m.blocks[i].input))
    ensures r.finish == FinishOf(m.stopReason)
    ensures r.usage.promptTokens == m.inputTokens.GetOr(0)
    ensures r.usage.completionTokens == m.outputTokens.GetOr(0)
    ensures r.usage.totalTokens == r.usage.promptTokens + r.usage.completionTokens
  {
    var text, calls := CollectBlocks(m.blocks, codec);
    var prompt, completion := m.inputTokens.GetOr(0), m.outputTokens.GetOr(0);
    r := Response(m.id.GetOr(fallbackId), model, Message(NonEmpty(text), calls),
                  FinishOf(m.stopReason), UsageInfo(prompt, completion, prompt + completion));
    CallsCounted(m.blocks, codec);
    forall i | 0 <= i < |m.blocks| && m.blocks[i].ToolUse?
      ensures var k := ToolCount(m.blocks[..i]);
              && k < |calls|
              && calls[k] == ToolCall(m.blocks[i].id, m.blocks[i].name, codec.dumps(m.blocks[i].input))
    {
      CallAt(m.blocks, i, codec);
    }
  }
}
