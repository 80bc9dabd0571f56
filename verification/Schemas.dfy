/** The OpenAI-shaped values the gateway returns (app/schemas/openai.py:36-83). */
module Schemas {
  import opened Arithmetic
  import opened Wrappers

  datatype Finish = Stop | Length | ToolCalls | ContentFilter

  datatype UsageInfo = UsageInfo(promptTokens: int, completionTokens: int, totalTokens: int)

  datatype ToolCall = ToolCall(id: Option<string>, name: Option<string>, arguments: string)

  datatype Message = Message(content: Option<string>, toolCalls: seq<ToolCall>)

  datatype Response = Response(id: string, model: string, message: Message, finish: Finish, usage: UsageInfo)

  /** A streamed tool call opens with an id and a name, then receives its arguments piecewise. */
  datatype ToolDelta =
    | Opens(index: int, id: Option<string>, name: Option<string>)
    | Extends(index: int, arguments: string)

  datatype Delta = Delta(role: Option<string>, content: Option<string>, toolCalls: seq<ToolDelta>)

  datatype Choice = Choice(delta: Delta, finish: Option<Finish>)

  datatype Chunk = Chunk(id: string, model: string, choices: seq<Choice>, usage: Option<UsageInfo>)

  /** The deltas of the first choice, joined. */
  function ContentOf(chunks: seq<Chunk>): string {
    if chunks == [] then "" else ContentOf(chunks[..|chunks| - 1]) + DeltaContent(chunks[|chunks| - 1])
  }

  function DeltaContent(chunk: Chunk): string {
    if chunk.choices == [] then "" else chunk.choices[0].delta.content.GetOr("")
  }

  /** The usage of the last chunk that reports one. */
  function LastUsage(chunks: seq<Chunk>): Option<UsageInfo> {
    if chunks == [] then None
    else if chunks[|chunks| - 1].usage.Some? then chunks[|chunks| - 1].usage
    else LastUsage(chunks[..|chunks| - 1])
  }

  lemma ContentSnoc(chunks: seq<Chunk>, last: Chunk)
    ensures ContentOf(chunks + [last]) == ContentOf(chunks) + DeltaContent(last)
  {
    assert (chunks + [last])[..|chunks|] == chunks;
  }

  lemma LastUsageSnoc(chunks: seq<Chunk>, last: Chunk)
    requires last.usage.Some?
    ensures LastUsage(chunks + [last]) == last.usage
  {
  }

  lemma {:induction false} ContentAppend(a: seq<Chunk>, b: seq<Chunk>)
    ensures ContentOf(a + b) == ContentOf(a) + ContentOf(b)
  {
    if b == [] {
      assert a + b == a;
    } else {
      var rest, last := b[..|b| - 1], b[|b| - 1];
      ContentAppend(a, rest);
      AppendSnoc(a, rest, last, b);
    }
  }

  lemma AppendSnoc(a: seq<Chunk>, rest: seq<Chunk>, last: Chunk, b: seq<Chunk>)
    requires ContentOf(a + rest) == ContentOf(a) + ContentOf(rest) && b == rest + [last]
    ensures ContentOf(a + b) == ContentOf(a) + ContentOf(b)
  {
    assert a + b == (a + rest) + [last];
    ContentSnoc(a + rest, last);
    ContentSnoc(rest, last);
    Associates(ContentOf(a), ContentOf(rest), DeltaContent(last));
  }
}
