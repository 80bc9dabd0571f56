/**
 Gemini's whole and streamed responses (app/providers/gemini.py:149-210 and 261-365): text and
 token counts agree however the text is cut, the reported total may not.
 */
module Gemini {
  import opened Wrappers
  import opened Schemas
  import opened Cost
  import opened Ledger
  import opened Completions
  import opened AnthropicResponse

  datatype Part = TextPart(text: string) | CallPart(name: Option<string>, args: Json) | OtherPart

  datatype UsageMeta = UsageMeta(prompt: Option<int>, completion: Option<int>, total: Option<int>)

  /** The first candidate of a response, and its usage. */
  datatype GeminiResponse = GeminiResponse(parts: seq<Part>, finish: Option<string>, usage: UsageMeta)

  /** A stream line: not JSON, or a chunk with the parts of its first candidate. */
  datatype Line = Unparsed | Data(parts: seq<Part>, finish: Option<string>, usage: Option<UsageMeta>)

  function PartText(part: Part): string {
    if part.TextPart? then part.text else ""
  }

  function PartsText(parts: seq<Part>): string {
    if parts == [] then "" else PartsText(parts[..|parts| - 1]) + PartText(parts[|parts| - 1])
  }

  function CallsIn(parts: seq<Part>, ids: nat -> string, codec: JsonCodec): seq<ToolCall> {
    if parts == [] then []
    else
      var rest, last := CallsIn(parts[..|parts| - 1], ids, codec), parts[|parts| - 1];
      if last.CallPart? then rest + [ToolCall(Some(ids(|rest|)), last.name, codec.dumps(last.args))] else rest
  }

  /** Calls come before any reported reason, and an unknown reason reads as a stop. */
  function WholeFinish(r: GeminiResponse, calls: seq<ToolCall>): (finish: Finish)
    ensures finish == ToolCalls <==> calls != []
    ensures finish == Length <==> calls == [] && r.finish == Some("MAX_TOKENS")
    ensures finish == ContentFilter <==> calls == [] && r.finish == Some("SAFETY")
  {
    if calls != [] then ToolCalls
    else if r.finish == Some("MAX_TOKENS") then Length
    else if r.finish == Some("SAFETY") then ContentFilter
    else Stop
  }

  method CollectParts(parts: seq<Part>, ids: nat -> string, codec: JsonCodec)
    returns (text: string, calls: seq<ToolCall>)
    ensures text == PartsText(parts) && calls == CallsIn(parts, ids, codec)
  {
    text, calls := "", [];
    for i := 0 to |parts|
      invariant text == PartsText(parts[..i]) && calls == CallsIn(parts[..i], ids, codec)
    {
      assert parts[..i + 1][..i] == parts[..i];
      match parts[i] {
        case TextPart(piece) => text := text + piece;
        case CallPart(name, args) =>
          calls := calls + [ToolCall(Some(ids(|calls|)), name, codec.dumps(args))];
          assert text + "" == text;
        case OtherPart => assert text + "" == text;
      }
    }
    assert parts[..|parts|] == parts;
  }

  function WholeUsage(usage: UsageMeta): UsageInfo {
    var prompt, completion := usage.prompt.GetOr(0), usage.completion.GetOr(0);
    UsageInfo(prompt, completion, usage.total.GetOr(prompt + completion))
  }

  method TranslateResponse(r: GeminiResponse, id: string, model: string, ids: nat -> string, codec: JsonCodec)
    returns (response: Response)
    ensures response.message == Message(NonEmpty(PartsText(r.parts)), CallsIn(r.parts, ids, codec))
    ensures response.id == id && response.model == model
    ensures response.message.content.GetOr("") == PartsText(r.parts)
    ensures response.message.content.None? <==> PartsText(r.parts) == ""
    ensures response.usage == WholeUsage(r.usage)
    ensures response.usage.promptTokens == r.usage.prompt.GetOr(0)
    ensures response.usage.completionTokens == r.usage.completion.GetOr(0)
    ensures response.usage.totalTokens
         == r.usage.total.GetOr(response.usage.promptTokens + response.usage.completionTokens)
    ensures response.finish == WholeFinish(r, response.message.toolCalls)
  {
    var text, calls := CollectParts(r.parts, ids, codec);
    var finish := Stop;
    if r.finish == Some("STOP") {
      finish := Stop;
    } else if r.finish == Some("MAX_TOKENS") {
      finish := Length;
    } else if r.finish == Some("SAFETY") {
      finish := ContentFilter;
    }
    if calls != [] {
      finish := ToolCalls;
    }
    response := Response(id, model, Message(NonEmpty(text), calls), finish, WholeUsage(r.usage));
  }

  // ----- the stream -----

  /** A chunk's reason; the stream passes on no other than these two. */
  function StreamFinish(finish: Option<string>): (streamed: Option<Finish>)
    ensures streamed == Some(Stop) <==> finish == Some("STOP")
    ensures streamed == Some(Length) <==> finish == Some("MAX_TOKENS")
    ensures streamed in {None, Some(Stop), Some(Length)}
  {
    if finish == Some("STOP") then Some(Stop) else if finish == Some("MAX_TOKENS") then Some(Length) else None
  }

  /** A streamed call is opened and filled at once under the identifier `callId`, always at index 0. */
  function PartChunks(part: Part, finish: Option<string>, id: string, model: string, callId: string,
                      codec: JsonCodec): seq<Chunk> {
    match part
    case TextPart(text) => [Chunk(id, model, [Choice(Delta(None, Some(text), []), StreamFinish(finish))], None)]
    case CallPart(name, args) =>
      [Chunk(id, model, [Choice(Delta(None, None, [Opens(0, Some(callId), name), Extends(0, codec.dumps(args))]),
                                Some(ToolCalls))], None)]
    case OtherPart => []
  }

  function LineChunks(parts: seq<Part>, finish: Option<string>, id: string, model: string, ids: nat -> string,
                      codec: JsonCodec): seq<Chunk> {
    if parts == [] then []
    else
      LineChunks(parts[..|parts| - 1], finish, id, model, ids, codec)
      + PartChunks(parts[|parts| - 1], finish, id, model, ids(|parts| - 1), codec)
  }

  function ChunksOf(line: Line, id: string, model: string, ids: nat -> string, codec: JsonCodec): seq<Chunk> {
    if line.Data? then LineChunks(line.parts, line.finish, id, model, ids, codec) else []
  }

  function InLine(ids: (nat, nat) -> string, i: nat): (line: nat -> string)
    ensures forall j: nat :: line(j) == ids(i, j)
  {
    (j: nat) => ids(i, j)
  }

  /** The call in part `j` of line `i` gets the fresh identifier `ids(i, j)`. */
  function BodyChunks(lines: seq<Line>, id: string, model: string, ids: (nat, nat) -> string,
                      codec: JsonCodec): seq<Chunk> {
    if lines == [] then []
    else
      var last := lines[|lines| - 1];
      BodyChunks(lines[..|lines| - 1], id, model, ids, codec)
        + ChunksOf(last, id, model, InLine(ids, |lines| - 1), codec)
  }

  /** The last counts reported, kept separately. */
  function LastCounts(lines: seq<Line>): Usage {
    if lines == [] then Usage(0, 0)
    else
      var before, last := LastCounts(lines[..|lines| - 1]), lines[|lines| - 1];
      if last.Data? && last.usage.Some?
      then Usage(last.usage.value.prompt.GetOr(before.promptTokens),
                 last.usage.value.completion.GetOr(before.completionTokens))
      else before
  }

  predicate Reports(line: Line) {
    line.Data? && line.usage.Some?
  }

  /** The prompt count of the last line that reports one, or zero when none does. */
  ghost predicate PromptReported(lines: seq<Line>, tokens: int) {
    || (tokens == 0 && forall i :: 0 <= i < |lines| && Reports(lines[i]) ==> lines[i].usage.value.prompt.None?)
    || exists i :: 0 <= i < |lines| && Reports(lines[i]) && lines[i].usage.value.prompt == Some(tokens)
                   && forall j :: i < j < |lines| && Reports(lines[j]) ==> lines[j].usage.value.prompt.None?
  }

  /** The completion count of the last line that reports one, or zero when none does. */
  ghost predicate CompletionReported(lines: seq<Line>, tokens: int) {
    || (tokens == 0 && forall i :: 0 <= i < |lines| && Reports(lines[i]) ==> lines[i].usage.value.completion.None?)
    || exists i :: 0 <= i < |lines| && Reports(lines[i]) && lines[i].usage.value.completion == Some(tokens)
                   && forall j :: i < j < |lines| && Reports(lines[j]) ==> lines[j].usage.value.completion.None?
  }

  /** The two counts are each the last one reported, wherever the other was. */
  lemma {:induction false} LastCountsReported(lines: seq<Line>)
    ensures PromptReported(lines, LastCounts(lines).promptTokens)
    ensures CompletionReported(lines, LastCounts(lines).completionTokens)
  {
    if lines == [] {
    } else {
      var rest, last := lines[..|lines| - 1], lines[|lines| - 1];
      LastCountsReported(rest);
      PromptSnoc(rest, last, LastCounts(rest).promptTokens);
      CompletionSnoc(rest, last, LastCounts(rest).completionTokens);
      assert lines == rest + [last];
    }
  }

  lemma PromptSnoc(rest: seq<Line>, last: Line, tokens: int)
    requires PromptReported(rest, tokens)
    ensures PromptReported(rest + [last], if Reports(last) then last.usage.value.prompt.GetOr(tokens) else tokens)
  {
    var lines := rest + [last];
    if Reports(last) && last.usage.value.prompt.Some? {
      assert lines[|rest|] == last;
    } else if i :| 0 <= i < |rest| && Reports(rest[i]) && rest[i].usage.value.prompt == Some(tokens)
                   && forall j :: i < j < |rest| && Reports(rest[j]) ==> rest[j].usage.value.prompt.None? {
      assert lines[i] == rest[i];
    }
  }

  lemma CompletionSnoc(rest: seq<Line>, last: Line, tokens: int)
    requires CompletionReported(rest, tokens)
    ensures CompletionReported(rest + [last],
                               if Reports(last) then last.usage.value.completion.GetOr(tokens) else tokens)
  {
    var lines := rest + [last];
    if Reports(last) && last.usage.value.completion.Some? {
      assert lines[|rest|] == last;
    } else if i :| 0 <= i < |rest| && Reports(rest[i]) && rest[i].usage.value.completion == Some(tokens)
                   && forall j :: i < j < |rest| && Reports(rest[j]) ==> rest[j].usage.value.completion.None? {
      assert lines[i] == rest[i];
    }
  }

  /** What was reported last is one number. */
  lemma ReportedOnce(lines: seq<Line>, a: int, b: int)
    ensures PromptReported(lines, a) && PromptReported(lines, b) ==> a == b
    ensures CompletionReported(lines, a) && CompletionReported(lines, b) ==> a == b
  {
  }

  function CountsChunk(lines: seq<Line>, id: string, model: string): Chunk {
    var counts := LastCounts(lines);
    var total := counts.promptTokens + counts.completionTokens;
    Chunk(id, model, [], Some(UsageInfo(counts.promptTokens, counts.completionTokens, total)))
  }

  function RoleChunk(id: string, model: string): Chunk {
    Chunk(id, model, [Choice(Delta(Some("assistant"), None, []), None)], None)
  }

  function StreamChunks(lines: seq<Line>, id: string, model: string, ids: (nat, nat) -> string,
                        codec: JsonCodec): seq<Chunk> {
    [RoleChunk(id, model)] + BodyChunks(lines, id, model, ids, codec) + [CountsChunk(lines, id, model)]
  }

  method TranslateLine(parts: seq<Part>, finish: Option<string>, id: string, model: string, ids: nat -> string,
                       codec: JsonCodec)
    returns (chunks: seq<Chunk>)
    ensures chunks == LineChunks(parts, finish, id, model, ids, codec)
  {
    chunks := [];
    for i := 0 to |parts|
      invariant chunks == LineChunks(parts[..i], finish, id, model, ids, codec)
    {
      assert parts[..i + 1][..i] == parts[..i];
      chunks := chunks + PartChunks(parts[i], finish, id, model, ids(i), codec);
    }
    assert parts[..|parts|] == parts;
  }

  ghost predicate Labelled(chunks: seq<Chunk>, id: string, model: string) {
    forall i :: 0 <= i < |chunks| ==> chunks[i].id == id && chunks[i].model == model
  }

  lemma {:induction false} LineLabelled(parts: seq<Part>, finish: Option<string>, id: string, model: string,
                                        ids: nat -> string, codec: JsonCodec)
    ensures Labelled(LineChunks(parts, finish, id, model, ids, codec), id, model)
  {
    if parts == [] {
    } else {
      LineLabelled(parts[..|parts| - 1], finish, id, model, ids, codec);
    }
  }

  lemma {:induction false} BodyLabelled(lines: seq<Line>, id: string, model: string, ids: (nat, nat) -> string,
                                        codec: JsonCodec)
    ensures Labelled(BodyChunks(lines, id, model, ids, codec), id, model)
  {
    if lines == [] {
    } else {
      var rest, last := lines[..|lines| - 1], lines[|lines| - 1];
      BodyLabelled(rest, id, model, ids, codec);
      if last.Data? {
        LineLabelled(last.parts, last.finish, id, model, InLine(ids, |rest|), codec);
      }
    }
  }

  /** Every part of every line is streamed in place: after the text and the calls before it, under its own id. */
  lemma PartIsStreamed(parts: seq<Part>, i: nat, finish: Option<string>, id: string, model: string,
                       ids: nat -> string, codec: JsonCodec)
    returns (before: seq<Chunk>, own: seq<Chunk>, after: seq<Chunk>)
    requires i < |parts|
    ensures LineChunks(parts, finish, id, model, ids, codec) == before + own + after
    ensures ContentOf(before) == PartsText(parts[..i]) && |before| == |parts[..i]| - OtherCount(parts[..i])
    ensures parts[i].TextPart? ==>
              own == [Chunk(id, model, [Choice(Delta(None, Some(parts[i].text), []), StreamFinish(finish))], None)]
    ensures parts[i].CallPart? ==>
              var deltas := [Opens(0, Some(ids(i)), parts[i].name), Extends(0, codec.dumps(parts[i].args))];
              own == [Chunk(id, model, [Choice(Delta(None, None, deltas), Some(ToolCalls))], None)]
    ensures parts[i].OtherPart? ==> own == []
  {
    before := LineChunks(parts[..i], finish, id, model, ids, codec);
    own := PartChunks(parts[i], finish, id, model, ids(i), codec);
    assert parts[..i + 1][..i] == parts[..i];
    LineContent(parts[..i], finish, id, model, ids, codec);
    LineLength(parts[..i], finish, id, model, ids, codec);
    after := LineGoesOn(parts, i + 1, finish, id, model, ids, codec);
  }

  lemma {:induction false} LineGoesOn(parts: seq<Part>, i: nat, finish: Option<string>, id: string, model: string,
                                      ids: nat -> string, codec: JsonCodec)
    returns (after: seq<Chunk>)
    requires i <= |parts|
    ensures LineChunks(parts, finish, id, model, ids, codec)
         == LineChunks(parts[..i], finish, id, model, ids, codec) + after
    decreases |parts|
  {
    if i == |parts| {
      after := [];
      assert parts[..i] == parts;
    } else {
      var rest := parts[..|parts| - 1];
      after := LineGoesOn(rest, i, finish, id, model, ids, codec);
      assert rest[..i] == parts[..i];
      after := after + PartChunks(parts[|rest|], finish, id, model, ids(|rest|), codec);
    }
  }

  function OtherCount(parts: seq<Part>): nat {
    if parts == [] then 0
    else OtherCount(parts[..|parts| - 1]) + if parts[|parts| - 1].OtherPart? then 1 else 0
  }

  lemma {:induction false} LineLength(parts: seq<Part>, finish: Option<string>, id: string, model: string,
                                      ids: nat -> string, codec: JsonCodec)
    ensures |LineChunks(parts, finish, id, model, ids, codec)| == |parts| - OtherCount(parts)
  {
    if parts == [] {
    } else {
      LineLength(parts[..|parts| - 1], finish, id, model, ids, codec);
    }
  }

  /** One translated stream: the role first, a chunk for each text and call, the last counts reported at the end. */
  method TranslateStream(lines: seq<Line>, id: string, model: string, ids: (nat, nat) -> string, codec: JsonCodec)
    returns (chunks: seq<Chunk>)
    ensures chunks == StreamChunks(lines, id, model, ids, codec)
    ensures |chunks| >= 2 && Labelled(chunks, id, model)
    ensures chunks[0] == Chunk(id, model, [Choice(Delta(Some("assistant"), None, []), None)], None)
    ensures var last := chunks[|chunks| - 1];
            && last.choices == [] && last.usage.Some?
            && PromptReported(lines, last.usage.value.promptTokens)
            && CompletionReported(lines, last.usage.value.completionTokens)
            && last.usage.value.totalTokens == last.usage.value.promptTokens + last.usage.value.completionTokens
  {
    var prompt, completion := 0, 0;
    var opening := [Chunk(id, model, [Choice(Delta(Some("assistant"), None, []), None)], None)];
    var body := [];
    for i := 0 to |lines|
      invariant body == BodyChunks(lines[..i], id, model, ids, codec)
                && LastCounts(lines[..i]) == Usage(prompt, completion)
    {
      assert lines[..i + 1][..i] == lines[..i];
      match lines[i] {
        case Unparsed => assert body + [] == body;
        case Data(parts, finish, usage) =>
          if usage.Some? {
            prompt, completion := usage.value.prompt.GetOr(prompt), usage.value.completion.GetOr(completion);
          }
          var out := TranslateLine(parts, finish, id, model, InLine(ids, i), codec);
          body := body + out;
      }
    }
    assert lines[..|lines|] == lines;
    LastCountsReported(lines);
    BodyLabelled(lines, id, model, ids, codec);
    chunks := opening + body + [Chunk(id, model, [], Some(UsageInfo(prompt, completion, prompt + completion)))];
  }

  // ----- agreement -----

  function LineText(line: Line): string {
    if line.Data? then PartsText(line.parts) else ""
  }

  function LinesText(lines: seq<Line>): string {
    if lines == [] then "" else LinesText(lines[..|lines| - 1]) + LineText(lines[|lines| - 1])
  }

  lemma PartContent(part: Part, finish: Option<string>, id: string, model: string, callId: string, codec: JsonCodec)
    ensures ContentOf(PartChunks(part, finish, id, model, callId, codec)) == PartText(part)
  {
    var chunks := PartChunks(part, finish, id, model, callId, codec);
    if chunks != [] {
      assert chunks[..0] == [] && ContentOf([]) == "";
    }
  }

  lemma {:induction false} LineContent(parts: seq<Part>, finish: Option<string>, id: string, model: string,
                                       ids: nat -> string, codec: JsonCodec)
    ensures ContentOf(LineChunks(parts, finish, id, model, ids, codec)) == PartsText(parts)
  {
    if parts == [] {
    } else {
      var rest, last := parts[..|parts| - 1], parts[|parts| - 1];
      LineContent(rest, finish, id, model, ids, codec);
      PartContent(last, finish, id, model, ids(|rest|), codec);
      ContentAppend(LineChunks(rest, finish, id, model, ids, codec),
                    PartChunks(last, finish, id, model, ids(|rest|), codec));
    }
  }

  lemma OneLineContent(line: Line, id: string, model: string, ids: nat -> string, codec: JsonCodec)
    ensures ContentOf(ChunksOf(line, id, model, ids, codec)) == LineText(line)
  {
    if line.Data? {
      LineContent(line.parts, line.finish, id, model, ids, codec);
    }
  }

  lemma {:induction false} BodyContent(lines: seq<Line>, id: string, model: string, ids: (nat, nat) -> string,
                                       codec: JsonCodec)
    ensures ContentOf(BodyChunks(lines, id, model, ids, codec)) == LinesText(lines)
  {
    if lines == [] {
    } else {
      var rest, last := lines[..|lines| - 1], lines[|lines| - 1];
      BodyContent(rest, id, model, ids, codec);
      OneLineContent(last, id, model, InLine(ids, |rest|), codec);
      ContentAppend(BodyChunks(rest, id, model, ids, codec), ChunksOf(last, id, model, InLine(ids, |rest|), codec));
    }
  }

  /** What a client folds from a stream. */
  lemma StreamFold(lines: seq<Line>, id: string, model: string, ids: (nat, nat) -> string, codec: JsonCodec)
    ensures ContentOf(StreamChunks(lines, id, model, ids, codec)) == LinesText(lines)
    ensures LastUsage(StreamChunks(lines, id, model, ids, codec)) == CountsChunk(lines, id, model).usage
  {
    var body, closing := BodyChunks(lines, id, model, ids, codec), CountsChunk(lines, id, model);
    var front := [RoleChunk(id, model)] + body;
    BodyContent(lines, id, model, ids, codec);
    ContentAppend([RoleChunk(id, model)], body);
    RoleIsSilent(id, model);
    ContentSnoc(front, closing);
    LastUsageSnoc(front, closing);
    assert "" + LinesText(lines) == LinesText(lines) && LinesText(lines) + "" == LinesText(lines);
  }

  lemma RoleIsSilent(id: string, model: string)
    ensures ContentOf([RoleChunk(id, model)]) == ""
  {
    assert [RoleChunk(id, model)][..0] == [];
  }

  /** `lines` streams `r`: its text in order under any cut, its counts reported last. */
  ghost predicate Streams(lines: seq<Line>, r: GeminiResponse) {
    && LinesText(lines) == PartsText(r.parts)
    && PromptReported(lines, r.usage.prompt.GetOr(0))
    && CompletionReported(lines, r.usage.completion.GetOr(0))
  }

  /** What chunks that carry a response fold to, against its whole usage. */
  predicate FoldsTo(chunks: seq<Chunk>, r: GeminiResponse) {
    var whole := WholeUsage(r.usage);
    && ContentOf(chunks) == PartsText(r.parts)
    && LastUsage(chunks).Some?
    && LastUsage(chunks).value.promptTokens == whole.promptTokens
    && LastUsage(chunks).value.completionTokens == whole.completionTokens
    && (LastUsage(chunks) == Some(whole) <==>
          r.usage.total.None? || r.usage.total.value == whole.promptTokens + whole.completionTokens)
  }

  /**
   Streamed text and token counts are those of the whole response. The totals agree exactly when
   the whole response reports no total of its own or one that is the sum of its counts.
   */
  lemma StreamAgrees(lines: seq<Line>, r: GeminiResponse, id: string, model: string, ids: (nat, nat) -> string,
                     codec: JsonCodec)
    requires Streams(lines, r)
    ensures FoldsTo(StreamChunks(lines, id, model, ids, codec), r)
  {
    StreamReports(lines, r, id, model, ids, codec);
    FoldAgrees(StreamChunks(lines, id, model, ids, codec), r);
  }

  lemma StreamReports(lines: seq<Line>, r: GeminiResponse, id: string, model: string, ids: (nat, nat) -> string,
                      codec: JsonCodec)
    requires Streams(lines, r)
    ensures var p, c := r.usage.prompt.GetOr(0), r.usage.completion.GetOr(0);
            && ContentOf(StreamChunks(lines, id, model, ids, codec)) == PartsText(r.parts)
            && LastUsage(StreamChunks(lines, id, model, ids, codec)) == Some(UsageInfo(p, c, p + c))
  {
    StreamFold(lines, id, model, ids, codec);
    CountsAgree(lines, r, id, model);
  }

  /** The agreement for any chunks that fold to the response's text and counts. */
  lemma FoldAgrees(chunks: seq<Chunk>, r: GeminiResponse)
    requires ContentOf(chunks) == PartsText(r.parts)
    requires var p, c := r.usage.prompt.GetOr(0), r.usage.completion.GetOr(0);
             LastUsage(chunks) == Some(UsageInfo(p, c, p + c))
    ensures FoldsTo(chunks, r)
  {
  }

  lemma CountsAgree(lines: seq<Line>, r: GeminiResponse, id: string, model: string)
    requires PromptReported(lines, r.usage.prompt.GetOr(0)) && CompletionReported(lines, r.usage.completion.GetOr(0))
    ensures var p, c := r.usage.prompt.GetOr(0), r.usage.completion.GetOr(0);
            CountsChunk(lines, id, model).usage == Some(UsageInfo(p, c, p + c))
  {
    LastCountsReported(lines);
    ReportedOnce(lines, LastCounts(lines).promptTokens, r.usage.prompt.GetOr(0));
    ReportedOnce(lines, LastCounts(lines).completionTokens, r.usage.completion.GetOr(0));
  }

  /**
   Charges look at the two counts only: streamed and drained or returned whole, the same money
   moves, and the same tables are left exactly when `RecordedAlike`.
   */
  lemma StreamedAndWholeChargeAlike(t: Tables, prices: map<string, Price>, call: Call, pulls: nat, count: Counter,
                                    lines: seq<Line>, r: GeminiResponse, whole: Response, id: string,
                                    ids: (nat, nat) -> string, codec: JsonCodec)
    requires Streams(lines, r) && whole.usage == WholeUsage(r.usage)
    requires pulls >= |StreamChunks(lines, id, call.requested, ids, codec)| + 2
    ensures var chunks := StreamChunks(lines, id, call.requested, ids, codec);
            var s := StreamedTables(t, prices, call, Upstream(chunks, false), pulls, count);
            var h := HandledTables(t, prices, call, Completed(whole));
            && s.balances == h.balances && s.transactions == h.transactions
            && (s == h <==> RecordedAlike(t, prices, call, Usage(r.usage.prompt.GetOr(0), r.usage.completion.GetOr(0))))
  {
    StreamAgrees(lines, r, id, call.requested, ids, codec);
    DrainedAgainstWhole(t, prices, call, StreamChunks(lines, id, call.requested, ids, codec), pulls, count, whole);
  }
}
