/**
 Server-sent events as the gateway prints them (app/api/v1/completions.py:46-59 and 108-117)
 and as its OpenAI provider reads them (app/providers/openai.py:81-96). Section 9.2.6 of the
 WHATWG HTML Standard ends lines at CR, LF or CRLF only; the reader's line iterator also
 ends them at the other separators Python knows.
 */
module Sse {
  import opened Arithmetic
  import opened Wrappers
  import opened Schemas

  const DATA := "data: "
  const DONE := "[DONE]"

  predicate IsSeparator(c: char) {
    || '\n' <= c <= '\r'   // LF, VT, FF, CR
    || '\U{001C}' <= c <= '\U{001E}'
    || c == '\U{0085}'
    || '\U{2028}' <= c <= '\U{2029}'
  }

  predicate IsSpace(c: char) {
    || IsSeparator(c)
    || c == ' ' || c == '\t' || c == '\U{001F}' || c == '\U{00A0}'
    || c == '\U{1680}' || c == '\U{202F}' || c == '\U{205F}' || c == '\U{3000}'
    || '\U{2000}' <= c <= '\U{200A}'
  }

  predicate OneLine(s: string) {
    forall i :: 0 <= i < |s| ==> !IsSeparator(s[i])
  }

  /** Where the next line starts after a separator in front; CRLF counts as one. */
  function AfterSeparator(s: string): string
    requires s != ""
  {
    if |s| > 1 && s[0] == '\r' && s[1] == '\n' then s[2..] else s[1..]
  }

  function Prepend(c: char, lines: seq<string>): seq<string> {
    if lines == [] then [[c]] else [[c] + lines[0]] + lines[1..]
  }

  /** The lines of a text: a separator ends a line, and an empty remainder is not a line. */
  function Lines(s: string): seq<string> {
    if s == "" then []
    else if IsSeparator(s[0]) then [""] + Lines(AfterSeparator(s))
    else Prepend(s[0], Lines(s[1..]))
  }

  function StripLeft(s: string): string {
    if s != "" && IsSpace(s[0]) then StripLeft(s[1..]) else s
  }

  function StripRight(s: string): string {
    if s != "" && IsSpace(s[|s| - 1]) then StripRight(s[..|s| - 1]) else s
  }

  function Strip(s: string): string {
    StripRight(StripLeft(s))
  }

  /** Text that stripping leaves alone, as JSON objects are. */
  predicate Trimmed(s: string) {
    s != "" && !IsSpace(s[0]) && !IsSpace(s[|s| - 1])
  }

  /** JSON dumping, and parsing plus schema validation, which this model does not look into. */
  datatype Codec = Codec(dump: Chunk -> string, load: string -> Option<Chunk>)

  ghost predicate Faithful(codec: Codec, chunk: Chunk) {
    var text := codec.dump(chunk);
    Trimmed(text) && text != DONE && codec.load(text) == Some(chunk)
  }

  // ----- printer and reader -----

  function Frame(payload: string): string {
    DATA + payload + "\n\n"
  }

  function Print(chunks: seq<Chunk>, codec: Codec): string {
    if chunks == [] then "" else Frame(codec.dump(chunks[0])) + Print(chunks[1..], codec)
  }

  datatype LineOutcome = Skip | End | Yield(chunk: Chunk)

  function ReadLine(line: string, model: string, codec: Codec): LineOutcome {
    if Strip(line) == "" then Skip
    else if DATA <= line then
      var content := Strip(line[|DATA|..]);
      if content == DONE then End
      else match codec.load(content) case Some(chunk) => Yield(chunk.(model := model)) case None => Skip
    else Skip
  }

  function Read(lines: seq<string>, model: string, codec: Codec): seq<Chunk> {
    if lines == [] then []
    else
      match ReadLine(lines[0], model, codec)
      case Skip => Read(lines[1..], model, codec)
      case End => []
      case Yield(chunk) => [chunk] + Read(lines[1..], model, codec)
  }

  /** The reading loop of the source, over any lines. */
  method ReadStream(lines: seq<string>, model: string, codec: Codec) returns (chunks: seq<Chunk>)
    ensures chunks == Read(lines, model, codec)
  {
    chunks := [];
    var i := 0;
    while i < |lines|
      invariant 0 <= i <= |lines|
      invariant Read(lines, model, codec) == chunks + Read(lines[i..], model, codec)
    {
      assert lines[i..][1..] == lines[i + 1..];
      var line := lines[i];
      i := i + 1;
      if Strip(line) == "" {
        continue;
      }
      if DATA <= line {
        var content := Strip(line[|DATA|..]);
        if content == DONE {
          return;
        }
        match codec.load(content) {
          case Some(chunk) => chunks := chunks + [chunk.(model := model)];
          case None =>
        }
      }
    }
  }

  function Patched(chunks: seq<Chunk>, model: string): seq<Chunk> {
    if chunks == [] then [] else [chunks[0].(model := model)] + Patched(chunks[1..], model)
  }

  /** The model of every chunk is replaced, and nothing else. */
  lemma {:induction false} PatchedAt(chunks: seq<Chunk>, i: nat, model: string)
    requires i < |chunks|
    ensures |Patched(chunks, model)| == |chunks|
    ensures Patched(chunks, model)[i] == Chunk(chunks[i].id, model, chunks[i].choices, chunks[i].usage)
  {
    PatchedLength(chunks[1..], model);
    if i > 0 {
      PatchedAt(chunks[1..], i - 1, model);
    }
  }

  /** A line the reader passes over: blank, not a data line, or data that does not load. */
  predicate PassedOver(line: string, codec: Codec) {
    || Strip(line) == ""
    || !("data: " <= line)
    || (Strip(line[6..]) != "[DONE]" && codec.load(Strip(line[6..])).None?)
  }

  /** Such a line may stand anywhere: what is read does not change. */
  lemma {:induction false} ReadPassesOver(before: seq<string>, line: string, after: seq<string>, model: string,
                                          codec: Codec)
    requires PassedOver(line, codec)
    ensures Read(before + [line] + after, model, codec) == Read(before + after, model, codec)
    decreases |before|
  {
    var longer, shorter := before + [line] + after, before + after;
    if before == [] {
      assert longer[1..] == after && shorter == after;
    } else {
      assert longer[1..] == before[1..] + [line] + after && shorter[1..] == before[1..] + after;
      ReadPassesOver(before[1..], line, after, model, codec);
    }
  }

  // ----- line structure of what is printed -----

  /** A line ends at any one separator, and at a CR with its LF. */
  lemma LineEnds(line: string, end: string, rest: string)
    requires OneLine(line)
    requires end == "\r\n" || (|end| == 1 && IsSeparator(end[0]) && !(end == "\r" && "\n" <= rest))
    ensures Lines(line + end + rest) == [line] + Lines(rest)
  {
    var tail := end + rest;
    assert tail[|end|..] == rest && AfterSeparator(tail) == rest;
    LinesPrefixed(line, tail, "", Lines(rest));
    assert line + end + rest == line + tail && line + "" == line;
  }

  lemma {:induction false} OneLineLines(s: string)
    requires OneLine(s) && s != ""
    ensures Lines(s) == [s]
  {
    if |s| > 1 {
      OneLineLines(s[1..]);
      assert [s[0]] + s[1..] == s;
    } else {
      assert s == [s[0]] && Lines(s[1..]) == [];
    }
  }

  lemma LinesNonEmpty(s: string)
    requires s != ""
    ensures Lines(s) != []
  {
  }

  lemma PrependFirst(c: char, first: string, more: seq<string>)
    ensures Prepend(c, [first] + more) == [[c] + first] + more
  {
  }

  lemma {:induction false} LinesPrefixed(prefix: string, s: string, first: string, more: seq<string>)
    requires OneLine(prefix) && Lines(s) == [first] + more
    ensures Lines(prefix + s) == [prefix + first] + more
  {
    if prefix == "" {
      assert prefix + s == s && prefix + first == first;
    } else {
      var c, rest := prefix[0], prefix[1..];
      LinesPrefixed(rest, s, first, more);
      assert (prefix + s)[1..] == rest + s;
      PrependFirst(c, rest + first, more);
      assert [c] + (rest + first) == prefix + first;
    }
  }

  lemma BlankLine(rest: string)
    ensures Lines("\n\n" + rest) == [""] + ([""] + Lines(rest))
  {
    var tail := "\n" + rest;
    assert "\n\n" + rest == "\n" + tail;
    assert ("\n" + tail)[1..] == tail && tail[1..] == rest;
  }

  lemma PrependApart(c: char, lines: seq<string>, more: seq<string>)
    requires lines != []
    ensures Prepend(c, lines + more) == Prepend(c, lines) + more
  {
  }

  /** Text that does not end in a separator keeps its lines when a line end and more lines follow. */
  lemma {:induction false} LinesTerminated(s: string, tail: string, more: seq<string>)
    requires s != "" && !IsSeparator(s[|s| - 1])
    requires Lines(tail) == [""] + more
    ensures Lines(s) != [] && Lines(s + tail) == Lines(s) + more
    decreases |s|
  {
    if |s| == 1 {
      assert (s + tail)[1..] == tail && s[1..] == "";
      assert Lines(s) == [[s[0]]] && [s[0]] + "" == [s[0]];
    } else if IsSeparator(s[0]) {
      var next := AfterSeparator(s);
      assert AfterSeparator(s + tail) == next + tail;
      LinesTerminated(next, tail, more);
      Associates([""], Lines(next), more);
    } else {
      assert (s + tail)[1..] == s[1..] + tail;
      LinesTerminated(s[1..], tail, more);
      PrependApart(s[0], Lines(s[1..]), more);
    }
  }

  lemma DataIsOneLine()
    ensures OneLine(DATA)
  {
  }

  lemma PrefixedTerminated(prefix: string, payload: string, rest: string)
    requires OneLine(prefix) && payload != "" && !IsSeparator(payload[|payload| - 1])
    ensures Lines(payload) != []
    ensures Lines(prefix + payload + "\n\n" + rest)
            == [prefix + Lines(payload)[0]] + Lines(payload)[1..] + ([""] + Lines(rest))
  {
    Associates(prefix + payload, "\n\n", rest);
    BlankLine(rest);
    LinesTerminated(prefix + payload, "\n\n" + rest, [""] + Lines(rest));
    LinesNonEmpty(payload);
    LinesPrefixed(prefix, payload, Lines(payload)[0], Lines(payload)[1..]);
  }

  /** The lines of one frame: the payload's own lines, the first behind `data: `, and a blank one. */
  lemma FrameLines(payload: string, rest: string)
    requires Trimmed(payload)
    ensures Lines(payload) != []
    ensures Lines(Frame(payload) + rest) == [DATA + Lines(payload)[0]] + Lines(payload)[1..] + ([""] + Lines(rest))
  {
    DataIsOneLine();
    PrefixedTerminated(DATA, payload, rest);
  }

  /** Stripping cuts off the spaces on both sides and nothing else. */
  lemma StripCuts(s: string) returns (i: nat, j: nat)
    ensures i <= j <= |s| && Strip(s) == s[i..j]
    ensures forall k :: 0 <= k < i || j <= k < |s| ==> IsSpace(s[k])
    ensures i < j ==> !IsSpace(s[i]) && !IsSpace(s[j - 1])
  {
    i := LeftCut(s);
    j := RightCut(s[i..]);
    if j == 0 {
      j := i;
    } else {
      assert s[i..][..j] == s[i..i + j] && s[i..][j - 1] == s[i + j - 1];
      assert forall k :: i + j <= k < |s| ==> s[k] == s[i..][k - i];
      j := i + j;
    }
  }

  lemma {:induction false} LeftCut(s: string) returns (i: nat)
    ensures i <= |s| && StripLeft(s) == s[i..]
    ensures (forall k :: 0 <= k < i ==> IsSpace(s[k])) && (i < |s| ==> !IsSpace(s[i]))
  {
    i := 0;
    if s != "" && IsSpace(s[0]) {
      i := LeftCut(s[1..]);
      assert forall k :: 0 < k < i + 1 ==> s[k] == s[1..][k - 1];
      i := i + 1;
    }
  }

  lemma {:induction false} RightCut(s: string) returns (j: nat)
    ensures j <= |s| && StripRight(s) == s[..j]
    ensures (forall k :: j <= k < |s| ==> IsSpace(s[k])) && (j > 0 ==> !IsSpace(s[j - 1]))
  {
    j := |s|;
    if s != "" && IsSpace(s[|s| - 1]) {
      j := RightCut(s[..|s| - 1]);
      assert s[..|s| - 1][..j] == s[..j];
    }
  }

  lemma StripData(payload: string)
    requires Trimmed(payload)
    ensures Strip(DATA + payload) != ""
    ensures (DATA + payload)[|DATA|..] == payload && Strip(payload) == payload
  {
    assert DATA[0] == 'd' && !IsSpace('d');
    assert StripLeft(DATA + payload) == DATA + payload;
  }

  /** A one-line payload is one data line, whatever follows it. */
  lemma ReadFrame(payload: string, rest: string, model: string, codec: Codec)
    requires Trimmed(payload) && OneLine(payload)
    ensures Read(Lines(Frame(payload) + rest), model, codec)
         == if payload == DONE then []
            else match codec.load(payload)
                 case Some(chunk) => [chunk.(model := model)] + Read(Lines(rest), model, codec)
                 case None => Read(Lines(rest), model, codec)
  {
    FrameLines(payload, rest);
    OneLineLines(payload);
    StripData(payload);
    var lines := Lines(Frame(payload) + rest);
    assert lines == [DATA + payload] + ([""] + Lines(rest));
    assert lines[1..] == [""] + Lines(rest);
    assert lines[1..][1..] == Lines(rest);
    assert DATA <= DATA + payload;
  }

  // ----- round trip -----

  /** Reading what was printed returns the delivered chunks with the model patched, and then reads on. */
  lemma {:induction false} ReadPrinted(chunks: seq<Chunk>, rest: string, model: string, codec: Codec)
    requires forall i :: 0 <= i < |chunks| ==> Faithful(codec, chunks[i]) && OneLine(codec.dump(chunks[i]))
    ensures Read(Lines(Print(chunks, codec) + rest), model, codec)
            == Patched(chunks, model) + Read(Lines(rest), model, codec)
  {
    if chunks == [] {
      assert Print(chunks, codec) + rest == rest;
    } else {
      var tail := Print(chunks[1..], codec) + rest;
      assert Print(chunks, codec) + rest == Frame(codec.dump(chunks[0])) + tail;
      assert Faithful(codec, chunks[0]);
      ReadFrame(codec.dump(chunks[0]), tail, model, codec);
      ReadPrinted(chunks[1..], rest, model, codec);
    }
  }

  /** Nothing behind the `[DONE]` frame is read. */
  lemma ReadDone(rest: string, model: string, codec: Codec)
    ensures Read(Lines(Frame(DONE) + rest), model, codec) == []
  {
    ReadFrame(DONE, rest, model, codec);
  }

  lemma ReadStopsAtDone(chunks: seq<Chunk>, rest: string, model: string, codec: Codec)
    requires forall i :: 0 <= i < |chunks| ==> Faithful(codec, chunks[i]) && OneLine(codec.dump(chunks[i]))
    ensures Read(Lines(Print(chunks, codec) + (Frame(DONE) + rest)), model, codec) == Patched(chunks, model)
  {
    ReadPrinted(chunks, Frame(DONE) + rest, model, codec);
    ReadDone(rest, model, codec);
  }

  /** A payload that does not load, such as the error frame, is passed over. */
  lemma ReadSkipsError(chunks: seq<Chunk>, error: string, rest: string, model: string, codec: Codec)
    requires forall i :: 0 <= i < |chunks| ==> Faithful(codec, chunks[i]) && OneLine(codec.dump(chunks[i]))
    requires Trimmed(error) && OneLine(error) && error != DONE && codec.load(error).None?
    ensures Read(Lines(Print(chunks, codec) + (Frame(error) + (Frame(DONE) + rest))), model, codec)
            == Patched(chunks, model)
  {
    var tail := Frame(DONE) + rest;
    ReadPrinted(chunks, Frame(error) + tail, model, codec);
    ReadFrame(error, tail, model, codec);
    ReadDone(rest, model, codec);
  }

  // ----- the round trip needs one-line payloads -----

  /** When a serialization is broken into lines, none of them is a serialized chunk. */
  ghost predicate Brittle(codec: Codec, chunk: Chunk) {
    var lines := Lines(codec.dump(chunk));
    forall i :: 0 <= i < |lines| && |lines| > 1 ==>
      codec.load(Strip(lines[i])).None? && (DATA <= lines[i] ==> codec.load(Strip(lines[i][|DATA|..])).None?)
  }

  lemma {:induction false} ManyLines(s: string)
    requires s != "" && !IsSeparator(s[|s| - 1]) && !OneLine(s)
    ensures |Lines(s)| > 1
  {
    if IsSeparator(s[0]) {
      LinesNonEmpty(AfterSeparator(s));
    } else {
      ManyLines(s[1..]);
    }
  }

  /** Lines that never yield add nothing to what is read. */
  lemma {:induction false} ReadBarren(lines: seq<string>, rest: seq<string>, model: string, codec: Codec)
    requires forall i :: 0 <= i < |lines| ==> !ReadLine(lines[i], model, codec).Yield?
    ensures |Read(lines + rest, model, codec)| <= |Read(rest, model, codec)|
  {
    if lines == [] {
      assert lines + rest == rest;
    } else {
      assert (lines + rest)[1..] == lines[1..] + rest;
      assert (lines + rest)[0] == lines[0];
      ReadBarren(lines[1..], rest, model, codec);
    }
  }

  lemma BrokenFrameIsLost(chunk: Chunk, rest: string, model: string, codec: Codec)
    requires Faithful(codec, chunk) && Brittle(codec, chunk) && !OneLine(codec.dump(chunk))
    ensures |Read(Lines(Frame(codec.dump(chunk)) + rest), model, codec)| <= |Read(Lines(rest), model, codec)|
  {
    var payload := codec.dump(chunk);
    var pieces := Lines(payload);
    FrameLines(payload, rest);
    ManyLines(payload);
    var lines := [DATA + pieces[0]] + pieces[1..] + [""];
    assert lines + Lines(rest) == [DATA + pieces[0]] + pieces[1..] + ([""] + Lines(rest));
    forall i | 0 <= i < |lines| ensures !ReadLine(lines[i], model, codec).Yield? {
      if i == 0 {
        assert (DATA + pieces[0])[|DATA|..] == pieces[0];
        assert codec.load(Strip(pieces[0])).None?;
      } else if i < |pieces| {
        assert lines[i] == pieces[i];
        assert DATA <= pieces[i] ==> codec.load(Strip(pieces[i][|DATA|..])).None?;
      }
    }
    ReadBarren(lines, Lines(rest), model, codec);
  }

  lemma {:induction false} BrokenStreamIsShort(chunks: seq<Chunk>, rest: string, model: string, codec: Codec)
    requires forall i :: 0 <= i < |chunks| ==> Faithful(codec, chunks[i]) && Brittle(codec, chunks[i])
    requires Read(Lines(rest), model, codec) == []
    ensures |Read(Lines(Print(chunks, codec) + rest), model, codec)| <= |chunks|
    ensures (exists i :: 0 <= i < |chunks| && !OneLine(codec.dump(chunks[i]))) ==>
              |Read(Lines(Print(chunks, codec) + rest), model, codec)| < |chunks|
  {
    if chunks == [] {
      assert Print(chunks, codec) + rest == rest;
    } else {
      var tail := Print(chunks[1..], codec) + rest;
      assert Print(chunks, codec) + rest == Frame(codec.dump(chunks[0])) + tail;
      BrokenStreamIsShort(chunks[1..], rest, model, codec);
      assert Faithful(codec, chunks[0]);
      if OneLine(codec.dump(chunks[0])) {
        ReadFrame(codec.dump(chunks[0]), tail, model, codec);
        if i :| 0 <= i < |chunks| && !OneLine(codec.dump(chunks[i])) {
          assert chunks[i] == chunks[1..][i - 1];
        }
      } else {
        BrokenFrameIsLost(chunks[0], tail, model, codec);
      }
    }
  }

  lemma {:induction false} PatchedLength(chunks: seq<Chunk>, model: string)
    ensures |Patched(chunks, model)| == |chunks|
  {
    if chunks == [] {
    } else {
      PatchedLength(chunks[1..], model);
    }
  }

  /**
   Before anything that yields no chunk, a stream is read back exactly when no serialized chunk
   contains a line separator.
   */
  lemma RoundTripIffOneLine(chunks: seq<Chunk>, rest: string, model: string, codec: Codec)
    requires forall i :: 0 <= i < |chunks| ==> Faithful(codec, chunks[i]) && Brittle(codec, chunks[i])
    requires Read(Lines(rest), model, codec) == []
    ensures Read(Lines(Print(chunks, codec) + rest), model, codec) == Patched(chunks, model)
       <==> forall i :: 0 <= i < |chunks| ==> OneLine(codec.dump(chunks[i]))
  {
    PatchedLength(chunks, model);
    BrokenStreamIsShort(chunks, rest, model, codec);
    if forall i :: 0 <= i < |chunks| ==> OneLine(codec.dump(chunks[i])) {
      ReadPrinted(chunks, rest, model, codec);
    }
  }
}
