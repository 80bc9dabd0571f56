/**
 What a client folds from Gemini's stream against the whole response, calls and finish reasons
 included (app/providers/gemini.py:149-210 and 261-365).
 */
module GeminiClient {
  import opened Arithmetic
  import opened Wrappers
  import opened Schemas
  import opened AnthropicResponse
  import opened Gemini
  import Stream = AnthropicStream

  // ----- what the lines say -----

  /** What decides the streamed finish reason: nothing, a call, or the reason reported beside a text. */
  datatype Decision = Undecided | ByCall | ByReason(reason: string)

  function PartDecision(part: Part, finish: Option<string>): Decision {
    match part
    case CallPart(_, _) => ByCall
    case TextPart(_) => if StreamFinish(finish).Some? then ByReason(finish.value) else Undecided
    case OtherPart => Undecided
  }

  function Later(earlier: Decision, later: Decision): Decision {
    if later == Undecided then earlier else later
  }

  function PartsDecision(parts: seq<Part>, finish: Option<string>): Decision {
    if parts == [] then Undecided
    else Later(PartsDecision(parts[..|parts| - 1], finish), PartDecision(parts[|parts| - 1], finish))
  }

  /** The last part that is a call, or a text in a chunk that reports STOP or MAX_TOKENS. */
  function LinesDecision(lines: seq<Line>): Decision {
    if lines == [] then Undecided
    else
      var last := lines[|lines| - 1];
      Later(LinesDecision(lines[..|lines| - 1]),
            if last.Data? then PartsDecision(last.parts, last.finish) else Undecided)
  }

  function FinishOfDecision(decision: Decision): Option<Finish> {
    match decision
    case Undecided => None
    case ByCall => Some(ToolCalls)
    case ByReason(reason) => StreamFinish(Some(reason))
  }

  datatype Named = Named(name: Option<string>, args: Json)

  /** The calls of some parts, by name and arguments. */
  function PartsCalls(parts: seq<Part>): seq<Named> {
    if parts == [] then []
    else
      var last := parts[|parts| - 1];
      PartsCalls(parts[..|parts| - 1]) + if last.CallPart? then [Named(last.name, last.args)] else []
  }

  function LinesCalls(lines: seq<Line>): seq<Named> {
    if lines == [] then []
    else
      var last := lines[|lines| - 1];
      LinesCalls(lines[..|lines| - 1]) + if last.Data? then PartsCalls(last.parts) else []
  }

  // ----- what the client collects -----

  ghost predicate Collects(collected: seq<Stream.Collected>, calls: seq<Named>, codec: JsonCodec) {
    && |collected| == |calls|
    && forall i :: 0 <= i < |calls| ==>
         && collected[i].index == 0 && collected[i].id.Some?
         && collected[i].name == calls[i].name && collected[i].arguments == codec.dumps(calls[i].args)
  }

  lemma CollectsAppend(a: seq<Stream.Collected>, b: seq<Stream.Collected>, x: seq<Named>, y: seq<Named>,
                       codec: JsonCodec)
    requires Collects(a, x, codec) && Collects(b, y, codec)
    ensures Collects(a + b, x + y, codec)
  {
  }

  /** How a client's assembly grows. */
  ghost predicate Grows(a: Stream.Assembly, b: Stream.Assembly, text: string, calls: seq<Named>, decision: Decision,
                        codec: JsonCodec) {
    && b == a.(content := b.content, tools := b.tools, finish := b.finish)
    && b.content == a.content + text
    && |a.tools| <= |b.tools| && b.tools[..|a.tools|] == a.tools && Collects(b.tools[|a.tools|..], calls, codec)
    && b.finish == if decision == Undecided then a.finish else FinishOfDecision(decision)
  }

  lemma GrowsNot(a: Stream.Assembly, codec: JsonCodec)
    ensures Grows(a, a, "", [], Undecided, codec)
  {
    assert a.content + "" == a.content && a.tools[..|a.tools|] == a.tools;
  }

  lemma GrowsTwice(a: Stream.Assembly, b: Stream.Assembly, c: Stream.Assembly, t: string, u: string,
                   x: seq<Named>, y: seq<Named>, d: Decision, e: Decision, codec: JsonCodec)
    requires Grows(a, b, t, x, d, codec) && Grows(b, c, u, y, e, codec)
    ensures Grows(a, c, t + u, x + y, Later(d, e), codec)
  {
    Associates(a.content, t, u);
    assert c.tools[..|a.tools|] == c.tools[..|b.tools|][..|a.tools|];
    assert c.tools[|a.tools|..] == b.tools[|a.tools|..] + c.tools[|b.tools|..] by {
      assert c.tools == b.tools + c.tools[|b.tools|..];
    }
    CollectsAppend(b.tools[|a.tools|..], c.tools[|b.tools|..], x, y, codec);
  }

  lemma OpenedAndFilled(tools: seq<Stream.Collected>, id: Option<string>, name: Option<string>, arguments: string)
    ensures Stream.AddTools(tools, [Opens(0, id, name), Extends(0, arguments)])
            == tools + [Stream.Collected(0, id, name, arguments)]
  {
    var deltas := [Opens(0, id, name), Extends(0, arguments)];
    var grown := tools + [Stream.Collected(0, id, name, "")];
    assert deltas[1..] == [Extends(0, arguments)];
    Stream.AddOne(grown, Extends(0, arguments));
    assert grown[..|tools|] == tools && "" + arguments == arguments;
  }

  lemma PartGrows(a: Stream.Assembly, part: Part, finish: Option<string>, id: string, model: string, callId: string,
                  codec: JsonCodec)
    requires a.id == id
    ensures Grows(a, Stream.AbsorbAll(a, PartChunks(part, finish, id, model, callId, codec)),
                  PartText(part), PartsCalls([part]), PartDecision(part, finish), codec)
  {
    var chunks := PartChunks(part, finish, id, model, callId, codec);
    assert [part][..0] == [];
    match part
    case TextPart(text) =>
      Stream.AbsorbOne(a, chunks[0]);
      assert a.tools[..|a.tools|] == a.tools;
    case CallPart(name, args) =>
      Stream.AbsorbOne(a, chunks[0]);
      OpenedAndFilled(a.tools, Some(callId), name, codec.dumps(args));
      assert PartsCalls([part]) == [] + [Named(name, args)];
      assert a.content + "" == a.content;
    case OtherPart => GrowsNot(a, codec);
  }

  lemma PartsCallsSnoc(parts: seq<Part>)
    requires parts != []
    ensures PartsCalls(parts) == PartsCalls(parts[..|parts| - 1]) + PartsCalls([parts[|parts| - 1]])
  {
    assert [parts[|parts| - 1]][..0] == [];
  }

  lemma {:induction false} PartsGrow(a: Stream.Assembly, parts: seq<Part>, finish: Option<string>, id: string,
                                     model: string,
                                     ids: nat -> string, codec: JsonCodec)
    requires a.id == id
    ensures Grows(a, Stream.AbsorbAll(a, LineChunks(parts, finish, id, model, ids, codec)),
                  PartsText(parts), PartsCalls(parts), PartsDecision(parts, finish), codec)
  {
    if parts == [] {
      GrowsNot(a, codec);
    } else {
      var rest, last := parts[..|parts| - 1], parts[|parts| - 1];
      var b := Stream.AbsorbAll(a, LineChunks(rest, finish, id, model, ids, codec));
      PartsGrow(a, rest, finish, id, model, ids, codec);
      PartGrows(b, last, finish, id, model, ids(|rest|), codec);
      Stream.AbsorbAppend(a, LineChunks(rest, finish, id, model, ids, codec),
                          PartChunks(last, finish, id, model, ids(|rest|), codec));
      var c := Stream.AbsorbAll(a, LineChunks(parts, finish, id, model, ids, codec));
      PartsCallsSnoc(parts);
      GrowsTwice(a, b, c, PartsText(rest), PartText(last), PartsCalls(rest), PartsCalls([last]),
                 PartsDecision(rest, finish), PartDecision(last, finish), codec);
    }
  }

  lemma LineGrows(a: Stream.Assembly, line: Line, id: string, model: string, ids: nat -> string, codec: JsonCodec)
    requires a.id == id
    ensures Grows(a, Stream.AbsorbAll(a, ChunksOf(line, id, model, ids, codec)), LineText(line),
                  if line.Data? then PartsCalls(line.parts) else [],
                  if line.Data? then PartsDecision(line.parts, line.finish) else Undecided, codec)
  {
    if line.Data? {
      PartsGrow(a, line.parts, line.finish, id, model, ids, codec);
    } else {
      GrowsNot(a, codec);
    }
  }

  lemma {:induction false} LinesGrow(a: Stream.Assembly, lines: seq<Line>, id: string, model: string,
                                     ids: (nat, nat) -> string, codec: JsonCodec)
    requires a.id == id
    ensures Grows(a, Stream.AbsorbAll(a, BodyChunks(lines, id, model, ids, codec)),
                  LinesText(lines), LinesCalls(lines), LinesDecision(lines), codec)
  {
    if lines == [] {
      GrowsNot(a, codec);
    } else {
      var rest, last := lines[..|lines| - 1], lines[|lines| - 1];
      var before, own := BodyChunks(rest, id, model, ids, codec), ChunksOf(last, id, model, InLine(ids, |rest|), codec);
      var b := Stream.AbsorbAll(a, before);
      LinesGrow(a, rest, id, model, ids, codec);
      LineGrows(b, last, id, model, InLine(ids, |rest|), codec);
      Stream.AbsorbAppend(a, before, own);
      GrowsTwice(a, b, Stream.AbsorbAll(b, own), LinesText(rest), LineText(last), LinesCalls(rest),
                 if last.Data? then PartsCalls(last.parts) else [], LinesDecision(rest),
                 if last.Data? then PartsDecision(last.parts, last.finish) else Undecided, codec);
    }
  }

  function Assembled(lines: seq<Line>, id: string, model: string, ids: (nat, nat) -> string,
                     codec: JsonCodec): Stream.Assembly {
    Stream.AbsorbAll(Stream.NOTHING, StreamChunks(lines, id, model, ids, codec))
  }

  /**
   What a client assembles from any stream: the text, the calls in order under index 0, the
   decided finish and the last counts.
   */
  lemma AssembledStream(lines: seq<Line>, id: string, model: string, ids: (nat, nat) -> string, codec: JsonCodec)
    ensures var a := Assembled(lines, id, model, ids, codec);
            && a.id == id && a.content == LinesText(lines) && Collects(a.tools, LinesCalls(lines), codec)
            && a.finish == FinishOfDecision(LinesDecision(lines))
            && a.usage.Some? && a.usage.value.totalTokens == a.usage.value.promptTokens + a.usage.value.completionTokens
            && PromptReported(lines, a.usage.value.promptTokens)
            && CompletionReported(lines, a.usage.value.completionTokens)
  {
    var role, counts := RoleChunk(id, model), CountsChunk(lines, id, model);
    var body := BodyChunks(lines, id, model, ids, codec);
    var start := Stream.NOTHING.(id := id);
    Stream.AbsorbOne(Stream.NOTHING, role);
    assert Stream.NOTHING.content + "" == "";
    assert Stream.AddTools([], []) == [];
    Stream.AbsorbAppend(Stream.NOTHING, [role], body);
    Stream.AbsorbAppend(Stream.NOTHING, [role] + body, [counts]);
    LinesGrow(start, lines, id, model, ids, codec);
    var b := Stream.AbsorbAll(start, body);
    Stream.AbsorbOne(b, counts);
    LastCountsReported(lines);
    assert "" + LinesText(lines) == LinesText(lines) && b.tools[0..] == b.tools;
  }

  // ----- agreement with the whole response -----

  /** The lines carry the text and the calls of the response in order, under any cut, and report its counts last. */
  ghost predicate Carries(lines: seq<Line>, r: GeminiResponse) {
    Streams(lines, r) && LinesCalls(lines) == PartsCalls(r.parts)
  }

  lemma {:induction false} WholeCalls(parts: seq<Part>, ids: nat -> string, codec: JsonCodec)
    ensures var calls := CallsIn(parts, ids, codec);
            && |calls| == |PartsCalls(parts)|
            && forall i :: 0 <= i < |calls| ==>
                 && calls[i].name == PartsCalls(parts)[i].name
                 && calls[i].arguments == codec.dumps(PartsCalls(parts)[i].args)
                 && calls[i].id == Some(ids(i))
  {
    if parts == [] {
    } else {
      WholeCalls(parts[..|parts| - 1], ids, codec);
    }
  }

  ghost predicate SameCalls(streamed: seq<Stream.Collected>, whole: seq<ToolCall>) {
    && |streamed| == |whole|
    && forall i :: 0 <= i < |whole| ==> streamed[i].name == whole[i].name && streamed[i].arguments == whole[i].arguments
  }

  ghost predicate DistinctIndexes(streamed: seq<Stream.Collected>) {
    forall i, j :: 0 <= i < j < |streamed| ==> streamed[i].index != streamed[j].index
  }

  /**
   When the stream shows the whole response's reason: its last deciding part is a call if there
   are calls, and else a text beside that reason.
   */
  predicate ReasonShows(lines: seq<Line>, r: GeminiResponse) {
    if PartsCalls(r.parts) != [] then LinesDecision(lines) == ByCall
    else if r.finish == Some("MAX_TOKENS") then LinesDecision(lines) == ByReason("MAX_TOKENS")
    else r.finish != Some("SAFETY") && LinesDecision(lines) == ByReason("STOP")
  }

  lemma {:induction false} PartsDecisionKinds(parts: seq<Part>, finish: Option<string>)
    ensures PartsDecision(parts, finish).ByReason? ==> PartsDecision(parts, finish).reason in {"STOP", "MAX_TOKENS"}
    ensures PartsDecision(parts, finish) == ByCall ==> PartsCalls(parts) != []
  {
    if parts == [] {
    } else {
      PartsDecisionKinds(parts[..|parts| - 1], finish);
    }
  }

  lemma {:induction false} DecisionKinds(lines: seq<Line>)
    ensures LinesDecision(lines).ByReason? ==> LinesDecision(lines).reason in {"STOP", "MAX_TOKENS"}
    ensures LinesDecision(lines) == ByCall ==> LinesCalls(lines) != []
  {
    if lines == [] {
    } else {
      var last := lines[|lines| - 1];
      DecisionKinds(lines[..|lines| - 1]);
      if last.Data? {
        PartsDecisionKinds(last.parts, last.finish);
      }
    }
  }

  lemma FinishAgreesIff(lines: seq<Line>, r: GeminiResponse, calls: seq<ToolCall>)
    requires LinesCalls(lines) == PartsCalls(r.parts) && |calls| == |PartsCalls(r.parts)|
    ensures FinishOfDecision(LinesDecision(lines)) == Some(WholeFinish(r, calls)) <==> ReasonShows(lines, r)
  {
    DecisionKinds(lines);
  }

  /**
   A client that opens a call at every identifier collects the text and the calls of the whole
   response, by name and arguments, in order. It can tell the calls apart by index exactly when
   there is at most one, and it sees the whole response's finish reason exactly when that shows.
   */
  lemma ClientAgrees(lines: seq<Line>, r: GeminiResponse, whole: Response, id: string, model: string,
                     ids: (nat, nat) -> string, wholeIds: nat -> string, codec: JsonCodec)
    requires Carries(lines, r)
    requires whole.message == Message(NonEmpty(PartsText(r.parts)), CallsIn(r.parts, wholeIds, codec))
    requires whole.finish == WholeFinish(r, whole.message.toolCalls)
    ensures var streamed := Assembled(lines, id, model, ids, codec);
            && whole.message.content.GetOr("") == streamed.content
            && (whole.message.content.None? <==> streamed.content == "")
            && SameCalls(streamed.tools, whole.message.toolCalls)
            && (DistinctIndexes(streamed.tools) <==> |whole.message.toolCalls| <= 1)
            && (streamed.finish == Some(whole.finish) <==> ReasonShows(lines, r))
  {
    var streamed := Assembled(lines, id, model, ids, codec);
    AssembledStream(lines, id, model, ids, codec);
    WholeCalls(r.parts, wholeIds, codec);
    FinishAgreesIff(lines, r, whole.message.toolCalls);
    if |streamed.tools| > 1 {
      assert streamed.tools[0].index == streamed.tools[1].index;
    }
  }
}
