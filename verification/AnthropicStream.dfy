/**
 The line-driven streaming translator (app/providers/anthropic.py:280-424), the client that
 folds its chunks, and their agreement with the translation of the whole message.
 */
module AnthropicStream {
  import opened Arithmetic
  import opened Wrappers
  import opened Schemas
  import opened AnthropicResponse

  datatype EventName = MessageStart | BlockStart | BlockDelta | MessageDelta | OtherEvent

  datatype Started = StartedTool(id: Option<string>, name: Option<string>) | StartedOther

  datatype Piece = TextPiece(text: string) | JsonPiece(json: string) | OtherPiece

  /** The keys the translator looks up in a parsed data line; an event reads only its own. */
  datatype Payload = Payload(messageId: Option<string>, inputTokens: Option<int>,
                             index: Option<int>, started: Started, piece: Piece,
                             outputTokens: Option<int>, stopReason: Option<string>)

  const BLANK_PAYLOAD := Payload(None, None, None, StartedOther, OtherPiece, None, None)

  /** `DataLine(None)` is a data line that is not JSON. */
  datatype Line = Blank | EventLine(name: EventName) | DataLine(payload: Option<Payload>) | OtherLine

  datatype ToolInput = ToolInput(id: Option<string>, name: Option<string>, accumulated: string)

  datatype StreamState = StreamState(event: EventName, id: string, prompt: int, completion: int,
                                     tools: map<int, ToolInput>)

  function Start(freshId: string): StreamState {
    StreamState(OtherEvent, freshId, 0, 0, map[])
  }

  function ChunkWith(s: StreamState, model: string, delta: Delta, finish: Option<Finish>): Chunk {
    Chunk(s.id, model, [Choice(delta, finish)], None)
  }

  function UsageChunk(s: StreamState, model: string): Chunk {
    Chunk(s.id, model, [], Some(UsageInfo(s.prompt, s.completion, s.prompt + s.completion)))
  }

  const NO_DELTA := Delta(None, None, [])

  /** The effect of one parsed data line under the current event name. */
  function Handle(s: StreamState, p: Payload, model: string): (StreamState, seq<Chunk>) {
    match s.event
    case MessageStart =>
      var t := s.(id := p.messageId.GetOr(s.id), prompt := p.inputTokens.GetOr(0));
      (t, [ChunkWith(t, model, NO_DELTA.(role := Some("assistant")), None)])
    case BlockStart =>
      var index := p.index.GetOr(0);
      (match p.started
       case StartedTool(id, name) =>
         (s.(tools := s.tools[index := ToolInput(id, name, "")]),
          [ChunkWith(s, model, NO_DELTA.(toolCalls := [Opens(index, id, name)]), None)])
       case StartedOther => (s, []))
    case BlockDelta =>
      var index := p.index.GetOr(0);
      (match p.piece
       case TextPiece(text) => (s, [ChunkWith(s, model, NO_DELTA.(content := Some(text)), None)])
       case JsonPiece(json) =>
         if index in s.tools then
           var tool := s.tools[index];
           (s.(tools := s.tools[index := tool.(accumulated := tool.accumulated + json)]),
            [ChunkWith(s, model, NO_DELTA.(toolCalls := [Extends(index, json)]), None)])
         else (s, [])
       case OtherPiece => (s, []))
    case MessageDelta =>
      var t := s.(completion := p.outputTokens.GetOr(s.completion));
      (t, [ChunkWith(t, model, NO_DELTA, Some(FinishOf(p.stopReason))), UsageChunk(t, model)])
    case OtherEvent => (s, [])
  }

  function Step(s: StreamState, line: Line, model: string): (StreamState, seq<Chunk>) {
    match line
    case EventLine(name) => (s.(event := name), [])
    case DataLine(Some(p)) => Handle(s, p, model)
    case _ => (s, [])
  }

  function RunLines(s: StreamState, lines: seq<Line>, model: string): seq<Chunk>
    decreases |lines|
  {
    if lines == [] then []
    else
      var (t, out) := Step(s, lines[0], model);
      out + RunLines(t, lines[1..], model)
  }

  /** The chunks the streaming endpoint yields for the lines of a response. */
  function StreamChunks(lines: seq<Line>, freshId: string, model: string): seq<Chunk> {
    RunLines(Start(freshId), lines, model)
  }

  /** The variables of the generator in the source, updated line by line. */
  class Translator {
    const model: string
    var event: EventName
    var id: string
    var prompt: int
    var completion: int
    var tools: map<int, ToolInput>

    function State(): StreamState
      reads this
    {
      StreamState(event, id, prompt, completion, tools)
    }

    /** One chunk that only announces or extends a call. */
    ghost predicate ToolsChunk(out: seq<Chunk>, d: ToolDelta)
      reads this
    {
      out == [Chunk(id, model, [Choice(Delta(None, None, [d]), None)], None)]
    }

    constructor (model: string, freshId: string)
      ensures State() == Start(freshId) && this.model == model
      ensures event == OtherEvent && id == freshId && prompt == 0 && completion == 0 && tools == map[]
    {
      this.model := model;
      event, id, prompt, completion, tools := OtherEvent, freshId, 0, 0, map[];
    }

    method Feed(line: Line) returns (out: seq<Chunk>)
      modifies this
      ensures (State(), out) == Step(old(State()), line, model)
      ensures !line.EventLine? ==> event == old(event)
      ensures line.EventLine? ==> event == line.name
      ensures !(line.DataLine? && line.payload.Some?) || old(event) == OtherEvent ==>
                out == [] && State() == old(State()).(event := event)
    {
      out := [];
      match line {
        case EventLine(name) => event := name;
        case DataLine(Some(p)) => out := FeedData(p);
        case _ =>
      }
    }

    method FeedData(p: Payload) returns (out: seq<Chunk>)
      modifies this
      ensures (State(), out) == Handle(old(State()), p, model)
      ensures event == old(event)
      ensures event == MessageStart ==>
                && id == p.messageId.GetOr(old(id)) && prompt == p.inputTokens.GetOr(0)
                && completion == old(completion) && tools == old(tools)
                && out == [Chunk(id, model, [Choice(Delta(Some("assistant"), None, []), None)], None)]
      ensures event != MessageStart ==> id == old(id) && prompt == old(prompt)
      ensures event == BlockStart && p.started.StartedTool? ==>
                && tools == old(tools)[p.index.GetOr(0) := ToolInput(p.started.id, p.started.name, "")]
                && ToolsChunk(out, Opens(p.index.GetOr(0), p.started.id, p.started.name))
      ensures event == BlockDelta && p.piece.TextPiece? ==>
                && out == [Chunk(id, model, [Choice(Delta(None, Some(p.piece.text), []), None)], None)]
                && tools == old(tools)
      ensures event == BlockDelta && p.piece.JsonPiece? && p.index.GetOr(0) in old(tools) ==>
                && ToolsChunk(out, Extends(p.index.GetOr(0), p.piece.json))
                && tools == old(tools)[p.index.GetOr(0) := tools[p.index.GetOr(0)]]
      ensures event in {BlockStart, BlockDelta} ==> completion == old(completion)
      ensures event == BlockStart && p.started.StartedOther? ==> out == [] && tools == old(tools)
      ensures event == BlockDelta && p.piece.JsonPiece? && p.index.GetOr(0) !in old(tools) ==>
                out == [] && tools == old(tools)
      ensures event == BlockDelta && p.piece.OtherPiece? ==> out == [] && tools == old(tools)
      ensures event == MessageDelta ==>
                && completion == p.outputTokens.GetOr(old(completion)) && tools == old(tools)
                && out == [Chunk(id, model, [Choice(Delta(None, None, []), Some(FinishOf(p.stopReason)))], None),
                           Chunk(id, model, [], Some(UsageInfo(prompt, completion, prompt + completion)))]
    {
      out := [];
      var index := p.index.GetOr(0);
      if event == MessageStart {
        id, prompt := p.messageId.GetOr(id), p.inputTokens.GetOr(0);
        out := [Chunk(id, model, [Choice(NO_DELTA.(role := Some("assistant")), None)], None)];
      } else if event == BlockStart {
        if p.started.StartedTool? {
          tools := tools[index := ToolInput(p.started.id, p.started.name, "")];
          var delta := NO_DELTA.(toolCalls := [Opens(index, p.started.id, p.started.name)]);
          out := [Chunk(id, model, [Choice(delta, None)], None)];
        }
      } else if event == BlockDelta {
        if p.piece.TextPiece? {
          out := [Chunk(id, model, [Choice(NO_DELTA.(content := Some(p.piece.text)), None)], None)];
        } else if p.piece.JsonPiece? && index in tools {
          tools := tools[index := tools[index].(accumulated := tools[index].accumulated + p.piece.json)];
          out := [Chunk(id, model, [Choice(NO_DELTA.(toolCalls := [Extends(index, p.piece.json)]), None)], None)];
        }
      } else if event == MessageDelta {
        completion := p.outputTokens.GetOr(completion);
        out := [Chunk(id, model, [Choice(NO_DELTA, Some(FinishOf(p.stopReason)))], None),
                Chunk(id, model, [], Some(UsageInfo(prompt, completion, prompt + completion)))];
      }
    }
  }

  lemma RunLinesAt(s: StreamState, lines: seq<Line>, i: nat, model: string)
    requires i < |lines|
    ensures var (t, out) := Step(s, lines[i], model);
            RunLines(s, lines[i..], model) == out + RunLines(t, lines[i + 1..], model)
  {
    assert lines[i..][1..] == lines[i + 1..];
  }

  method TranslateStream(lines: seq<Line>, freshId: string, model: string) returns (chunks: seq<Chunk>)
    ensures chunks == StreamChunks(lines, freshId, model)
  {
    var translator := new Translator(model, freshId);
    chunks := [];
    assert lines[0..] == lines;
    for i := 0 to |lines|
      invariant translator.model == model
      invariant StreamChunks(lines, freshId, model) == chunks + RunLines(translator.State(), lines[i..], model)
    {
      RunLinesAt(translator.State(), lines, i, model);
      var out := translator.Feed(lines[i]);
      Associates(chunks, out, RunLines(translator.State(), lines[i + 1..], model));
      chunks := chunks + out;
    }
  }

  // ----- the client's fold -----

  datatype Collected = Collected(index: int, id: Option<string>, name: Option<string>, arguments: string)

  datatype Assembly = Assembly(id: string, content: string, tools: seq<Collected>, finish: Option<Finish>,
                               usage: Option<UsageInfo>)

  const NOTHING := Assembly("", "", [], None, None)

  /** Arguments go to the call opened last under their index. */
  function AddTool(tools: seq<Collected>, d: ToolDelta): seq<Collected> {
    match d
    case Opens(index, id, name) => tools + [Collected(index, id, name, "")]
    case Extends(index, arguments) =>
      if tools == [] then [Collected(index, None, None, arguments)]
      else
        var last := tools[|tools| - 1];
        if last.index == index
        then tools[..|tools| - 1] + [last.(arguments := last.arguments + arguments)]
        else AddTool(tools[..|tools| - 1], d) + [last]
  }

  function AddTools(tools: seq<Collected>, deltas: seq<ToolDelta>): seq<Collected>
    decreases |deltas|
  {
    if deltas == [] then tools else AddTools(AddTool(tools, deltas[0]), deltas[1..])
  }

  function Absorb(a: Assembly, chunk: Chunk): Assembly {
    var b := a.(id := chunk.id, usage := if chunk.usage.Some? then chunk.usage else a.usage);
    if chunk.choices == [] then b
    else
      var choice := chunk.choices[0];
      b.(content := a.content + choice.delta.content.GetOr(""),
         tools := AddTools(a.tools, choice.delta.toolCalls),
         finish := if choice.finish.Some? then choice.finish else a.finish)
  }

  function AbsorbAll(a: Assembly, chunks: seq<Chunk>): Assembly
    decreases |chunks|
  {
    if chunks == [] then a else AbsorbAll(Absorb(a, chunks[0]), chunks[1..])
  }

  lemma {:induction false} AbsorbAppend(a: Assembly, first: seq<Chunk>, second: seq<Chunk>)
    ensures AbsorbAll(a, first + second) == AbsorbAll(AbsorbAll(a, first), second)
    decreases |first|
  {
    if first == [] {
      assert first + second == second;
    } else {
      assert (first + second)[1..] == first[1..] + second;
      AbsorbAppend(Absorb(a, first[0]), first[1..], second);
    }
  }

  lemma AbsorbOne(a: Assembly, chunk: Chunk)
    ensures AbsorbAll(a, [chunk]) == Absorb(a, chunk)
  {
    assert [chunk][1..] == [];
  }

  lemma AddOne(tools: seq<Collected>, d: ToolDelta)
    ensures AddTools(tools, [d]) == AddTool(tools, d)
  {
    assert [d][1..] == [];
  }

  lemma AbsorbDelta(a: Assembly, s: StreamState, model: string, delta: Delta, finish: Option<Finish>)
    requires |delta.toolCalls| <= 1
    ensures AbsorbAll(a, [ChunkWith(s, model, delta, finish)])
         == a.(id := s.id,
               content := if delta.content.Some? then a.content + delta.content.value else a.content,
               tools := if delta.toolCalls == [] then a.tools else AddTool(a.tools, delta.toolCalls[0]),
               finish := if finish.Some? then finish else a.finish)
  {
    AbsorbOne(a, ChunkWith(s, model, delta, finish));
    assert a.content + "" == a.content;
    if delta.toolCalls != [] {
      AddOne(a.tools, delta.toolCalls[0]);
      assert delta.toolCalls == [delta.toolCalls[0]];
    }
  }

  // ----- what an upstream may send for a message -----

  /** A parsed data line with the name it is read under. */
  datatype Event = Event(name: EventName, payload: Payload)

  /**
   What lines amount to: each parsed data line under the last event name before it, wherever that
   stood. Pings, stops and other names, blank and foreign lines and data that is not JSON drop out.
   */
  function EventsIn(current: EventName, lines: seq<Line>): seq<Event>
    decreases |lines|
  {
    if lines == [] then []
    else
      match lines[0]
      case EventLine(name) => EventsIn(name, lines[1..])
      case DataLine(Some(p)) =>
        (if current == OtherEvent then [] else [Event(current, p)]) + EventsIn(current, lines[1..])
      case _ => EventsIn(current, lines[1..])
  }

  /** The usage and stop reason of one message_delta event. */
  datatype Closing = Closing(outputTokens: Option<int>, stopReason: Option<string>)

  function StartedBy(block: Block): Started {
    match block
    case ToolUse(id, name, _) => StartedTool(id, name)
    case _ => StartedOther
  }

  function PieceEvents(index: int, pieces: seq<Piece>): seq<Event> {
    if pieces == [] then []
    else [PieceEvent(index, pieces[0])] + PieceEvents(index, pieces[1..])
  }

  function BlockEvents(index: int, blocks: seq<Block>, split: seq<seq<Piece>>): seq<Event>
    requires |blocks| == |split|
    decreases |blocks|
  {
    if blocks == [] then []
    else
      [Event(BlockStart, BLANK_PAYLOAD.(index := Some(index), started := StartedBy(blocks[0])))]
      + PieceEvents(index, split[0])
      + BlockEvents(index + 1, blocks[1..], split[1..])
  }

  function ClosingEvents(closings: seq<Closing>): seq<Event> {
    if closings == [] then []
    else
      [Event(MessageDelta, BLANK_PAYLOAD.(outputTokens := closings[0].outputTokens,
                                          stopReason := closings[0].stopReason))]
      + ClosingEvents(closings[1..])
  }

  function PieceText(piece: Piece): string {
    if piece.TextPiece? then piece.text else ""
  }

  function PieceJson(piece: Piece): string {
    if piece.JsonPiece? then piece.json else ""
  }

  function Texts(pieces: seq<Piece>): string {
    if pieces == [] then "" else PieceText(pieces[0]) + Texts(pieces[1..])
  }

  function Jsons(pieces: seq<Piece>): string {
    if pieces == [] then "" else PieceJson(pieces[0]) + Jsons(pieces[1..])
  }

  /**
   The pieces spell the block, with deltas of other kinds among them: only a text block carries
   text, and only a tool's JSON counts. A tool whose input is empty may send no JSON at all.
   */
  ghost predicate Spells(block: Block, pieces: seq<Piece>, codec: JsonCodec) {
    match block
    case TextBlock(text) => Texts(pieces) == text
    case ToolUse(_, _, input) =>
      && Texts(pieces) == ""
      && (if Jsons(pieces) == "" then input == EMPTY_OBJECT else codec.loads(Jsons(pieces)) == Some(input))
    case OtherBlock => Texts(pieces) == ""
  }

  function FinalTokens(closings: seq<Closing>, tokens: int): int {
    if closings == [] then tokens else FinalTokens(closings[1..], closings[0].outputTokens.GetOr(tokens))
  }

  /** `split` cuts every block into pieces, and the last message_delta carries the final counts. */
  ghost predicate SplitOf(m: AnthropicMessage, split: seq<seq<Piece>>, closings: seq<Closing>, codec: JsonCodec) {
    && |split| == |m.blocks|
    && (forall i :: 0 <= i < |split| ==> Spells(m.blocks[i], split[i], codec))
    && closings != []
    && closings[|closings| - 1].stopReason == m.stopReason
    && FinalTokens(closings, 0) == m.outputTokens.GetOr(0)
  }

  function CanonicalEvents(m: AnthropicMessage, split: seq<seq<Piece>>, closings: seq<Closing>): seq<Event>
    requires |m.blocks| == |split|
  {
    [Event(MessageStart, BLANK_PAYLOAD.(messageId := m.id, inputTokens := m.inputTokens))]
    + BlockEvents(0, m.blocks, split)
    + ClosingEvents(closings)
  }

  /** `lines` streams `m`: they amount to its events in order under some split. */
  ghost predicate Transcribes(lines: seq<Line>, m: AnthropicMessage, split: seq<seq<Piece>>, closings: seq<Closing>,
                              codec: JsonCodec) {
    SplitOf(m, split, closings, codec) && EventsIn(OtherEvent, lines) == CanonicalEvents(m, split, closings)
  }

  // ----- reduction to events -----

  /** Translator and client together, one event at a time. */
  function Consume(s: StreamState, a: Assembly, events: seq<Event>, model: string): (StreamState, Assembly)
    decreases |events|
  {
    if events == [] then (s, a)
    else
      var (t, out) := Handle(s.(event := events[0].name), events[0].payload, model);
      Consume(t, AbsorbAll(a, out), events[1..], model)
  }

  lemma {:induction false} ConsumeAppend(s: StreamState, a: Assembly, first: seq<Event>, second: seq<Event>,
                                         model: string)
    ensures var (t, b) := Consume(s, a, first, model);
            Consume(s, a, first + second, model) == Consume(t, b, second, model)
    decreases |first|
  {
    if first == [] {
      assert first + second == second;
    } else {
      assert (first + second)[1..] == first[1..] + second;
      var (t, out) := Handle(s.(event := first[0].name), first[0].payload, model);
      ConsumeAppend(t, AbsorbAll(a, out), first[1..], second, model);
    }
  }

  predicate IsNoise(line: Line) {
    line.Blank? || line.OtherLine? || line == DataLine(None)
  }

  /** A blank or foreign line, or data that is not JSON, may stand anywhere: no chunk changes. */
  lemma {:induction false} NoiseAnywhere(s: StreamState, before: seq<Line>, noise: Line, after: seq<Line>,
                                         model: string)
    requires IsNoise(noise)
    ensures RunLines(s, before + [noise] + after, model) == RunLines(s, before + after, model)
    decreases |before|
  {
    var noisy, quiet := before + [noise] + after, before + after;
    if before == [] {
      assert noisy[1..] == after && quiet == after;
    } else {
      assert noisy[1..] == before[1..] + [noise] + after && quiet[1..] == before[1..] + after;
      NoiseAnywhere(Step(s, before[0], model).0, before[1..], noise, after, model);
    }
  }

  /** Only the events that lines amount to reach the client, whatever else stands between, before and after them. */
  lemma {:induction false} NoiseIsInert(s: StreamState, t: StreamState, a: Assembly, lines: seq<Line>, model: string)
    requires t == s.(event := t.event)
    ensures AbsorbAll(a, RunLines(s, lines, model)) == Consume(t, a, EventsIn(s.event, lines), model).1
    decreases |lines|
  {
    if lines == [] {
    } else {
      var (next, out) := Step(s, lines[0], model);
      AbsorbAppend(a, out, RunLines(next, lines[1..], model));
      if lines[0].DataLine? && lines[0].payload.Some? && s.event != OtherEvent {
        assert t.(event := s.event) == s;
        assert EventsIn(s.event, lines)[1..] == EventsIn(s.event, lines[1..]);
        NoiseIsInert(next, next, AbsorbAll(a, out), lines[1..], model);
      } else {
        assert out == [] && AbsorbAll(a, out) == a;
        assert EventsIn(s.event, lines) == EventsIn(next.event, lines[1..]);
        NoiseIsInert(next, t, a, lines[1..], model);
      }
    }
  }

  // ----- what the client has after each part of the stream -----

  ghost predicate Fresh(s: StreamState, index: int) {
    forall i :: i in s.tools ==> i < index
  }

  function PieceEvent(index: int, piece: Piece): Event {
    Event(BlockDelta, BLANK_PAYLOAD.(index := Some(index), piece := piece))
  }

  lemma ConsumePiece(s: StreamState, a: Assembly, index: int, piece: Piece, rest: seq<Event>, t: StreamState,
                     b: Assembly, model: string)
    requires Handle(s.(event := BlockDelta), PieceEvent(index, piece).payload, model).0 == t
    requires AbsorbAll(a, Handle(s.(event := BlockDelta), PieceEvent(index, piece).payload, model).1) == b
    ensures Consume(s, a, [PieceEvent(index, piece)] + rest, model) == Consume(t, b, rest, model)
  {
    assert ([PieceEvent(index, piece)] + rest)[1..] == rest;
  }

  /** One piece of a block that is no tool: only text reaches the client. */
  lemma PlainPiece(s: StreamState, a: Assembly, index: int, piece: Piece, model: string)
    requires a.id == s.id && index !in s.tools
    ensures var (t, out) := Handle(s.(event := BlockDelta), PieceEvent(index, piece).payload, model);
            t == s.(event := BlockDelta) && AbsorbAll(a, out) == a.(content := a.content + PieceText(piece))
  {
    if piece.TextPiece? {
      AbsorbDelta(a, s.(event := BlockDelta), model, NO_DELTA.(content := Some(piece.text)), None);
    } else {
      assert a.content + "" == a.content;
    }
  }

  /** The pieces of a block that is no tool append its text. */
  lemma {:induction false} PlainPieces(s: StreamState, a: Assembly, index: int, pieces: seq<Piece>, model: string)
    requires a.id == s.id && index !in s.tools
    ensures var (t, b) := Consume(s, a, PieceEvents(index, pieces), model);
            t == s.(event := t.event) && b == a.(content := a.content + Texts(pieces))
    decreases |pieces|
  {
    if pieces == [] {
      assert a.content + "" == a.content;
    } else {
      var t, b := s.(event := BlockDelta), a.(content := a.content + PieceText(pieces[0]));
      PlainPieces(t, b, index, pieces[1..], model);
      PlainPiece(s, a, index, pieces[0], model);
      ConsumePiece(s, a, index, pieces[0], PieceEvents(index, pieces[1..]), t, b, model);
      Associates(a.content, PieceText(pieces[0]), Texts(pieces[1..]));
    }
  }

  /** One piece of a tool block: JSON extends the call opened last, empty text changes nothing. */
  lemma ToolPiece(s: StreamState, a: Assembly, index: int, piece: Piece, done: seq<Collected>, call: Collected,
                  model: string)
    requires a.id == s.id && PieceText(piece) == ""
    requires index in s.tools && a.tools == done + [call] && call.index == index
    ensures var (t, out) := Handle(s.(event := BlockDelta), PieceEvent(index, piece).payload, model);
            && t == s.(event := BlockDelta, tools := t.tools) && t.tools.Keys == s.tools.Keys
            && AbsorbAll(a, out) == a.(tools := done + [call.(arguments := call.arguments + PieceJson(piece))])
  {
    match piece
    case TextPiece(text) =>
      AbsorbDelta(a, s.(event := BlockDelta), model, NO_DELTA.(content := Some("")), None);
      assert a.content + "" == a.content && call.arguments + "" == call.arguments;
    case JsonPiece(json) =>
      assert AddTool(a.tools, Extends(index, json)) == done + [call.(arguments := call.arguments + json)];
      AbsorbDelta(a, s.(event := BlockDelta), model, NO_DELTA.(toolCalls := [Extends(index, json)]), None);
    case OtherPiece => assert call.arguments + "" == call.arguments;
  }

  /** The pieces of a tool block extend the arguments of the call opened last. */
  lemma {:induction false} ToolPieces(s: StreamState, a: Assembly, index: int, pieces: seq<Piece>,
                                      done: seq<Collected>, call: Collected, model: string)
    requires a.id == s.id && Texts(pieces) == ""
    requires index in s.tools && a.tools == done + [call] && call.index == index
    ensures var (t, b) := Consume(s, a, PieceEvents(index, pieces), model);
            && t == s.(event := t.event, tools := t.tools) && t.tools.Keys == s.tools.Keys
            && b == a.(tools := done + [call.(arguments := call.arguments + Jsons(pieces))])
    decreases |pieces|
  {
    if pieces == [] {
      assert call.arguments + "" == call.arguments;
    } else {
      var longer := call.(arguments := call.arguments + PieceJson(pieces[0]));
      var t := Handle(s.(event := BlockDelta), PieceEvent(index, pieces[0]).payload, model).0;
      var b := a.(tools := done + [longer]);
      assert |Texts(pieces)| == |PieceText(pieces[0])| + |Texts(pieces[1..])|;
      ToolPiece(s, a, index, pieces[0], done, call, model);
      ToolPieces(t, b, index, pieces[1..], done, longer, model);
      ConsumePiece(s, a, index, pieces[0], PieceEvents(index, pieces[1..]), t, b, model);
      Associates(call.arguments, PieceJson(pieces[0]), Jsons(pieces[1..]));
    }
  }

  /** The calls a client collects from blocks numbered from `index`. */
  function CollectedFrom(index: int, blocks: seq<Block>, split: seq<seq<Piece>>): seq<Collected>
    requires |blocks| == |split|
    decreases |blocks|
  {
    if blocks == [] then []
    else
      (match blocks[0]
       case ToolUse(id, name, _) => [Collected(index, id, name, Jsons(split[0]))]
       case _ => []) + CollectedFrom(index + 1, blocks[1..], split[1..])
  }

  function BlockText(block: Block): string {
    if block.TextBlock? then block.text else ""
  }

  function OneBlockEvents(index: int, block: Block, pieces: seq<Piece>): seq<Event> {
    [Event(BlockStart, BLANK_PAYLOAD.(index := Some(index), started := StartedBy(block)))] + PieceEvents(index, pieces)
  }

  lemma OneBlock(s: StreamState, a: Assembly, index: int, block: Block, pieces: seq<Piece>, model: string,
                 codec: JsonCodec)
    requires a.id == s.id && Fresh(s, index) && Spells(block, pieces, codec)
    ensures var (t, b) := Consume(s, a, OneBlockEvents(index, block, pieces), model);
            && t == s.(event := t.event, tools := t.tools) && Fresh(t, index + 1)
            && b == a.(content := a.content + BlockText(block),
                       tools := a.tools + CollectedFrom(index, [block], [pieces]))
  {
    var events := OneBlockEvents(index, block, pieces);
    var e := events[0];
    var (t, out) := Handle(s.(event := e.name), e.payload, model);
    var b := AbsorbAll(a, out);
    assert events[1..] == PieceEvents(index, pieces);
    assert a.content + "" == a.content && a.tools + [] == a.tools;
    match block
    case TextBlock(text) => PlainPieces(t, b, index, pieces, model);
    case ToolUse(id, name, _) =>
      AbsorbDelta(a, s, model, NO_DELTA.(toolCalls := [Opens(index, id, name)]), None);
      ToolPieces(t, b, index, pieces, a.tools, Collected(index, id, name, ""), model);
      assert "" + Jsons(pieces) == Jsons(pieces);
    case OtherBlock => PlainPieces(t, b, index, pieces, model);
  }

  lemma {:induction false} AllBlocks(s: StreamState, a: Assembly, index: int, blocks: seq<Block>,
                                     split: seq<seq<Piece>>, model: string, codec: JsonCodec)
    requires a.id == s.id && Fresh(s, index) && |split| == |blocks|
    requires forall i :: 0 <= i < |split| ==> Spells(blocks[i], split[i], codec)
    ensures var (t, b) := Consume(s, a, BlockEvents(index, blocks, split), model);
            && t == s.(event := t.event, tools := t.tools)
            && b == a.(content := a.content + TextOf(blocks), tools := a.tools + CollectedFrom(index, blocks, split))
    decreases |blocks|
  {
    if blocks == [] {
      assert a.content + "" == a.content && a.tools + [] == a.tools;
    } else {
      OneBlock(s, a, index, blocks[0], split[0], model, codec);
      var first, rest := OneBlockEvents(index, blocks[0], split[0]), BlockEvents(index + 1, blocks[1..], split[1..]);
      var (t, b) := Consume(s, a, first, model);
      AllBlocks(t, b, index + 1, blocks[1..], split[1..], model, codec);
      ConsumeAppend(s, a, first, rest, model);
      BlocksCons(a, index, blocks, split);
    }
  }

  lemma BlocksCons(a: Assembly, index: int, blocks: seq<Block>, split: seq<seq<Piece>>)
    requires |blocks| == |split| > 0
    ensures BlockEvents(index, blocks, split)
         == OneBlockEvents(index, blocks[0], split[0]) + BlockEvents(index + 1, blocks[1..], split[1..])
    ensures (a.content + BlockText(blocks[0])) + TextOf(blocks[1..]) == a.content + TextOf(blocks)
    ensures (a.tools + CollectedFrom(index, [blocks[0]], [split[0]]))
            + CollectedFrom(index + 1, blocks[1..], split[1..])
         == a.tools + CollectedFrom(index, blocks, split)
  {
    Associates(a.content, BlockText(blocks[0]), TextOf(blocks[1..]));
    CollectedCons(index, blocks, split);
    Associates(a.tools, CollectedFrom(index, [blocks[0]], [split[0]]),
               CollectedFrom(index + 1, blocks[1..], split[1..]));
  }

  lemma CollectedCons(index: int, blocks: seq<Block>, split: seq<seq<Piece>>)
    requires |blocks| == |split| > 0
    ensures CollectedFrom(index, blocks, split)
         == CollectedFrom(index, [blocks[0]], [split[0]]) + CollectedFrom(index + 1, blocks[1..], split[1..])
  {
    var block, pieces := blocks[0], split[0];
    var own := match block case ToolUse(id, name, _) => [Collected(index, id, name, Jsons(pieces))] case _ => [];
    assert [block][1..] == [] && [pieces][1..] == [];
    assert CollectedFrom(index, [block], [pieces]) == own + [];
    assert own + [] == own;
  }

  function Usage(prompt: int, completion: int): UsageInfo {
    UsageInfo(prompt, completion, prompt + completion)
  }

  lemma {:induction false} AllClosings(s: StreamState, a: Assembly, closings: seq<Closing>, model: string)
    requires a.id == s.id && closings != []
    ensures Consume(s, a, ClosingEvents(closings), model).1
         == a.(finish := Some(FinishOf(closings[|closings| - 1].stopReason)),
               usage := Some(Usage(s.prompt, FinalTokens(closings, s.completion))))
    decreases |closings|
  {
    var events := ClosingEvents(closings);
    var (t, out) := Handle(s.(event := events[0].name), events[0].payload, model);
    var b := AbsorbAll(a, out);
    var last := ChunkWith(t, model, NO_DELTA, Some(FinishOf(closings[0].stopReason)));
    assert out == [last] + [UsageChunk(t, model)];
    AbsorbAppend(a, [last], [UsageChunk(t, model)]);
    AbsorbDelta(a, t, model, NO_DELTA, Some(FinishOf(closings[0].stopReason)));
    AbsorbOne(AbsorbAll(a, [last]), UsageChunk(t, model));
    assert events[1..] == ClosingEvents(closings[1..]);
    if |closings| > 1 {
      AllClosings(t, b, closings[1..], model);
    }
  }

  // ----- agreement with the whole response -----

  function Assembled(lines: seq<Line>, freshId: string, model: string): Assembly {
    AbsorbAll(NOTHING, StreamChunks(lines, freshId, model))
  }

  lemma AssembledMessage(lines: seq<Line>, m: AnthropicMessage, split: seq<seq<Piece>>, closings: seq<Closing>,
                         freshId: string, model: string, codec: JsonCodec)
    requires Transcribes(lines, m, split, closings, codec)
    ensures Assembled(lines, freshId, model)
         == Assembly(m.id.GetOr(freshId), TextOf(m.blocks), CollectedFrom(0, m.blocks, split),
                     Some(FinishOf(m.stopReason)), Some(Usage(m.inputTokens.GetOr(0), m.outputTokens.GetOr(0))))
    ensures var usage := Assembled(lines, freshId, model).usage.value;
            && usage.promptTokens == m.inputTokens.GetOr(0) && usage.completionTokens == m.outputTokens.GetOr(0)
            && usage.totalTokens == usage.promptTokens + usage.completionTokens
  {
    var s := Start(freshId);
    NoiseIsInert(s, s, NOTHING, lines, model);
    var opening := [Event(MessageStart, BLANK_PAYLOAD.(messageId := m.id, inputTokens := m.inputTokens))];
    var body, closing := BlockEvents(0, m.blocks, split), ClosingEvents(closings);
    var (t, out) := Handle(s.(event := MessageStart), opening[0].payload, model);
    var a := AbsorbAll(NOTHING, out);
    AbsorbDelta(NOTHING, t, model, NO_DELTA.(role := Some("assistant")), None);
    assert opening[1..] == [];
    assert Consume(s, NOTHING, opening, model) == (t, a);
    assert a == NOTHING.(id := t.id);
    AllBlocks(t, a, 0, m.blocks, split, model, codec);
    var (u, b) := Consume(t, a, body, model);
    AllClosings(u, b, closings, model);
    ConsumeAppend(s, NOTHING, opening, body, model);
    ConsumeAppend(s, NOTHING, opening + body, closing, model);
    assert "" + TextOf(m.blocks) == TextOf(m.blocks);
    assert [] + CollectedFrom(0, m.blocks, split) == CollectedFrom(0, m.blocks, split);
  }

  /** Some tool block of the message sent no JSON. */
  ghost predicate SilentTool(blocks: seq<Block>, split: seq<seq<Piece>>)
    requires |blocks| == |split|
  {
    exists i :: 0 <= i < |blocks| && blocks[i].ToolUse? && Jsons(split[i]) == ""
  }

  ghost predicate SameCalls(collected: seq<Collected>, calls: seq<ToolCall>) {
    && |collected| == |calls|
    && forall i :: 0 <= i < |calls| ==> collected[i].id == calls[i].id && collected[i].name == calls[i].name
  }

  ghost predicate SameArguments(collected: seq<Collected>, calls: seq<ToolCall>, codec: JsonCodec)
    requires |collected| == |calls|
  {
    forall i :: 0 <= i < |calls| ==> codec.loads(collected[i].arguments) == codec.loads(calls[i].arguments)
  }

  lemma SilentCons(blocks: seq<Block>, split: seq<seq<Piece>>)
    requires |blocks| == |split| > 0
    ensures SilentTool(blocks, split)
       <==> (blocks[0].ToolUse? && Jsons(split[0]) == "") || SilentTool(blocks[1..], split[1..])
  {
    if SilentTool(blocks[1..], split[1..]) {
      var i :| 0 <= i < |blocks| - 1 && blocks[1..][i].ToolUse? && Jsons(split[1..][i]) == "";
      assert blocks[i + 1].ToolUse? && Jsons(split[i + 1]) == "";
    }
    if i :| 0 < i < |blocks| && blocks[i].ToolUse? && Jsons(split[i]) == "" {
      assert blocks[1..][i - 1].ToolUse? && Jsons(split[1..][i - 1]) == "";
    }
  }

  lemma OneCallAgrees(block: Block, pieces: seq<Piece>, codec: JsonCodec)
    requires Lawful(codec) && block.ToolUse? && Spells(block, pieces, codec)
    ensures codec.loads(Jsons(pieces)) == codec.loads(codec.dumps(block.input)) <==> Jsons(pieces) != ""
  {
    assert codec.loads(codec.dumps(block.input)) == Some(block.input);
  }

  lemma {:induction false} CallsAgree(index: int, blocks: seq<Block>, split: seq<seq<Piece>>, codec: JsonCodec)
    requires Lawful(codec) && |split| == |blocks|
    requires forall i :: 0 <= i < |split| ==> Spells(blocks[i], split[i], codec)
    ensures SameCalls(CollectedFrom(index, blocks, split), CallsOf(blocks, codec))
    ensures SameArguments(CollectedFrom(index, blocks, split), CallsOf(blocks, codec), codec)
            <==> !SilentTool(blocks, split)
    decreases |blocks|
  {
    if blocks == [] {
    } else {
      CallsAgree(index + 1, blocks[1..], split[1..], codec);
      SilentCons(blocks, split);
      assert Spells(blocks[0], split[0], codec);
      if blocks[0].ToolUse? {
        OneCallAgrees(blocks[0], split[0], codec);
        SameArgumentsCons(Collected(index, blocks[0].id, blocks[0].name, Jsons(split[0])),
                          CollectedFrom(index + 1, blocks[1..], split[1..]),
                          ToolCall(blocks[0].id, blocks[0].name, codec.dumps(blocks[0].input)),
                          CallsOf(blocks[1..], codec), codec);
      } else {
        assert CollectedFrom(index, blocks, split) == CollectedFrom(index + 1, blocks[1..], split[1..]);
      }
    }
  }

  lemma SameArgumentsCons(own: Collected, later: seq<Collected>, call: ToolCall, calls: seq<ToolCall>, codec: JsonCodec)
    requires |later| == |calls|
    ensures SameCalls(later, calls) && own.id == call.id && own.name == call.name
            ==> SameCalls([own] + later, [call] + calls)
    ensures SameArguments([own] + later, [call] + calls, codec)
       <==> codec.loads(own.arguments) == codec.loads(call.arguments) && SameArguments(later, calls, codec)
  {
    if SameArguments([own] + later, [call] + calls, codec) {
      forall i | 0 <= i < |calls| ensures codec.loads(later[i].arguments) == codec.loads(calls[i].arguments) {
        assert ([own] + later)[i + 1] == later[i] && ([call] + calls)[i + 1] == calls[i];
      }
      assert ([own] + later)[0] == own && ([call] + calls)[0] == call;
    }
  }

  /**
   What a client assembled against the whole translation: the arguments parse alike exactly when
   no tool is silent.
   */
  ghost predicate Agree(streamed: Assembly, whole: Response, silent: bool, codec: JsonCodec) {
    && streamed.id == whole.id
    && whole.message.content.GetOr("") == streamed.content
    && (whole.message.content.None? <==> streamed.content == "")
    && SameCalls(streamed.tools, whole.message.toolCalls)
    && streamed.finish == Some(whole.finish)
    && streamed.usage == Some(whole.usage)
    && (SameArguments(streamed.tools, whole.message.toolCalls, codec) <==> !silent)
  }

  lemma AssemblyAgrees(streamed: Assembly, m: AnthropicMessage, split: seq<seq<Piece>>, freshId: string,
                       model: string, codec: JsonCodec)
    requires Lawful(codec) && |split| == |m.blocks|
    requires forall i :: 0 <= i < |split| ==> Spells(m.blocks[i], split[i], codec)
    requires streamed == Assembly(m.id.GetOr(freshId), TextOf(m.blocks), CollectedFrom(0, m.blocks, split),
                                  Some(FinishOf(m.stopReason)),
                                  Some(Usage(m.inputTokens.GetOr(0), m.outputTokens.GetOr(0))))
    ensures Agree(streamed, ResponseOf(m, freshId, model, codec), SilentTool(m.blocks, split), codec)
  {
    CallsAgree(0, m.blocks, split, codec);
  }

  /**
   However a message is cut into lines, folding the streamed chunks gives what translating the
   whole message gives: id, content, calls in order, finish reason and usage. The arguments
   parse alike exactly when every tool block sent some JSON: a call without input streams an
   empty string where the whole translation has an empty object.
   */
  lemma StreamAgrees(lines: seq<Line>, m: AnthropicMessage, split: seq<seq<Piece>>, closings: seq<Closing>,
                     freshId: string, model: string, codec: JsonCodec)
    requires Lawful(codec) && Transcribes(lines, m, split, closings, codec)
    ensures Agree(Assembled(lines, freshId, model), ResponseOf(m, freshId, model, codec),
                  SilentTool(m.blocks, split), codec)
  {
    AssembledMessage(lines, m, split, closings, freshId, model, codec);
    AssemblyAgrees(Assembled(lines, freshId, model), m, split, freshId, model, codec);
  }
}
