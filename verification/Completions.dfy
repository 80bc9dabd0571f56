/**
 The completion endpoints: the streaming wrapper and the whole-response handler, with the
 usage each records (app/api/v1/completions.py:26-117 and 160-225).
 */
module Completions {
  import opened Arithmetic
  import opened Wrappers
  import opened Schemas
  import opened Cost
  import opened Rounding
  import opened Ledger
  import opened Metering
  import opened Sse

  /** What a provider's stream does: yield chunks, then end or raise. */
  datatype Upstream = Upstream(chunks: seq<Chunk>, failed: bool)

  /** One request: its account, correlation id, requested and routed model, and the local prompt count. */
  datatype Call = Call(org: OrgId, correlation: Option<CorrelationId>, requested: string, routed: string,
                       promptEstimate: nat)

  type Counter = string -> nat

  function UsageOf(call: Call, chunks: seq<Chunk>, count: Counter): Usage {
    match LastUsage(chunks)
    case Some(reported) => Usage(reported.promptTokens, reported.completionTokens)
    case None => Usage(call.promptEstimate, count(ContentOf(chunks)))
  }

  /** The tables after recording, if the commit succeeds. */
  function Recording(t: Tables, prices: map<string, Price>, call: Call, model: string, usage: Usage,
                     status: int): Option<Tables> {
    if call.correlation.None? then None
    else AfterRecord(t, LogFor(prices, call.correlation.value, call.org, model, usage, status))
  }

  function SuccessRecording(t: Tables, prices: map<string, Price>, call: Call, chunks: seq<Chunk>,
                            count: Counter): Option<Tables> {
    Recording(t, prices, call, call.routed, UsageOf(call, chunks, count), 200)
  }

  function FailureRecording(t: Tables, prices: map<string, Price>, call: Call): Option<Tables> {
    Recording(t, prices, call, call.routed, Usage(call.promptEstimate, 0), 500)
  }

  /** A generator runs when its reader asks for the next frame, so metering happens only on this many requests. */
  function PullsToMeter(upstream: Upstream): nat {
    |upstream.chunks| + if upstream.failed then 1 else 2
  }

  function StreamedTables(t: Tables, prices: map<string, Price>, call: Call, upstream: Upstream, pulls: nat,
                          count: Counter): Tables {
    if pulls < PullsToMeter(upstream) then t
    else if upstream.failed then FailureRecording(t, prices, call).GetOr(t)
    else SuccessRecording(t, prices, call, upstream.chunks, count).GetOr(FailureRecording(t, prices, call).GetOr(t))
  }

  function ChunkFrames(chunks: seq<Chunk>, codec: Codec): seq<string> {
    if chunks == [] then [] else ChunkFrames(chunks[..|chunks| - 1], codec) + [Frame(codec.dump(chunks[|chunks| - 1]))]
  }

  /**
   What follows the chunks for a reader that never leaves; a failure that cannot be recorded
   breaks the stream off.
   */
  function ClosingFrames(t: Tables, prices: map<string, Price>, call: Call, upstream: Upstream, error: string,
                         count: Counter): seq<string> {
    var failure := if FailureRecording(t, prices, call).Some? then [Frame(error), Frame(DONE)] else [];
    if upstream.failed then failure
    else [Frame(DONE)] + if SuccessRecording(t, prices, call, upstream.chunks, count).Some? then [] else failure
  }

  function Take<T>(s: seq<T>, n: nat): seq<T> {
    if n <= |s| then s[..n] else s
  }

  /** The loop over the upstream: one frame per chunk, counting on the way. */
  method Relay(chunks: seq<Chunk>, codec: Codec)
    returns (frames: seq<string>, content: string, reported: Option<UsageInfo>)
    ensures frames == ChunkFrames(chunks, codec) && |frames| == |chunks|
    ensures forall i :: 0 <= i < |chunks| ==> frames[i] == "data: " + codec.dump(chunks[i]) + "\n\n"
    ensures content == ContentOf(chunks) && reported == LastUsage(chunks)
  {
    frames, content, reported := [], "", None;
    for i := 0 to |chunks|
      invariant frames == ChunkFrames(chunks[..i], codec) && |frames| == i
      invariant forall j :: 0 <= j < i ==> frames[j] == "data: " + codec.dump(chunks[j]) + "\n\n"
      invariant content == ContentOf(chunks[..i]) && reported == LastUsage(chunks[..i])
    {
      var chunk := chunks[i];
      assert chunks[..i + 1][..i] == chunks[..i];
      frames := frames + [Frame(codec.dump(chunk))];
      if chunk.choices != [] && chunk.choices[0].delta.content.Some? {
        content := content + chunk.choices[0].delta.content.value;
      }
      if chunk.usage.Some? {
        reported := chunk.usage;
      }
    }
    assert chunks[..|chunks|] == chunks;
  }

  /** The end of the generator, for a reader that asks for `pulls` more frames after the chunks. */
  method Close(db: BillingDatabase, call: Call, upstream: Upstream, content: string, reported: Option<UsageInfo>,
               pulls: nat, error: string, count: Counter)
    returns (frames: seq<string>)
    requires content == ContentOf(upstream.chunks) && reported == LastUsage(upstream.chunks)
    modifies db
    ensures db.Committed()
         == StreamedTables(old(db.Committed()), db.prices, call, upstream, |upstream.chunks| + pulls, count)
    ensures frames == Take(ClosingFrames(old(db.Committed()), db.prices, call, upstream, error, count), pulls)
  {
    frames := [];
    if pulls == 0 {
      return;
    }
    if !upstream.failed {
      frames := [Frame(DONE)];
      if pulls == 1 {
        return;
      }
      var usage := if reported.Some? then Usage(reported.value.promptTokens, reported.value.completionTokens)
                   else Usage(call.promptEstimate, count(content));
      var committed := db.RecordUsage(call.org, call.correlation, call.routed, usage, 200);
      if committed {
        return;
      }
    }
    var logged := db.RecordUsage(call.org, call.correlation, call.routed, Usage(call.promptEstimate, 0), 500);
    if logged {
      frames := frames + [Frame(error), Frame(DONE)];
      frames := Take(frames, pulls);
    }
  }

  /**
   The wrapper for a reader that asks for `pulls` frames: relay the chunks, close with `[DONE]`,
   record the usage; on any exception record a failure and send an error frame.
   */
  method StreamCompletion(db: BillingDatabase, call: Call, upstream: Upstream, pulls: nat, codec: Codec,
                          error: string, count: Counter)
    returns (frames: seq<string>)
    modifies db
    ensures db.Committed() == StreamedTables(old(db.Committed()), db.prices, call, upstream, pulls, count)
    ensures frames == Take(ChunkFrames(upstream.chunks, codec)
                           + ClosingFrames(old(db.Committed()), db.prices, call, upstream, error, count), pulls)
  {
    var content, reported;
    if pulls < |upstream.chunks| {
      frames, content, reported := Relay(upstream.chunks[..pulls], codec);
      PrefixFrames(upstream.chunks, pulls, codec);
    } else {
      frames, content, reported := Relay(upstream.chunks, codec);
      var closing := Close(db, call, upstream, content, reported, pulls - |upstream.chunks|, error, count);
      frames := frames + closing;
    }
  }

  lemma {:induction false} PrefixFrames(chunks: seq<Chunk>, i: nat, codec: Codec)
    requires i <= |chunks|
    ensures |ChunkFrames(chunks, codec)| == |chunks|
    ensures ChunkFrames(chunks, codec)[..i] == ChunkFrames(chunks[..i], codec)
  {
    if chunks == [] {
    } else if i == |chunks| {
      PrefixFrames(chunks[..|chunks| - 1], 0, codec);
      assert chunks[..i] == chunks;
    } else {
      PrefixFrames(chunks[..|chunks| - 1], i, codec);
      assert chunks[..|chunks| - 1][..i] == chunks[..i];
    }
  }

  // ----- the handler for whole responses -----

  datatype Routed = Completed(response: Response) | HttpFailure(status: int) | OtherFailure

  datatype Reply = Success(response: Response) | HttpError(status: int) | Crash

  function HandledTables(t: Tables, prices: map<string, Price>, call: Call, routed: Routed): Tables {
    match routed
    case Completed(response) =>
      Recording(t, prices, call, call.routed, Usage(response.usage.promptTokens, response.usage.completionTokens),
                200).GetOr(t)
    case HttpFailure(status) =>
      Recording(t, prices, call, call.requested, Usage(call.promptEstimate, 0), status).GetOr(t)
    case OtherFailure => Recording(t, prices, call, call.requested, Usage(call.promptEstimate, 0), 500).GetOr(t)
  }

  /** The reply once the usage is recorded: the model name the client asked for, or the error's status. */
  function ReplyTo(call: Call, routed: Routed): Reply {
    match routed
    case Completed(response) => Success(response.(model := call.requested))
    case HttpFailure(status) => HttpError(status)
    case OtherFailure => HttpError(502)
  }

  /** A failed commit leaves the handler's session unusable, so its second recording raises too. */
  method HandleCompletion(db: BillingDatabase, call: Call, routed: Routed) returns (reply: Reply)
    modifies db
    ensures db.Committed() == HandledTables(old(db.Committed()), db.prices, call, routed)
    ensures reply == if |db.logs| == |old(db.logs)| + 1 then ReplyTo(call, routed) else Crash
    ensures reply != Crash ==>
              match routed
              case Completed(r) => reply == Success(Response(r.id, call.requested, r.message, r.finish, r.usage))
              case HttpFailure(status) => reply == HttpError(status)
              case OtherFailure => reply == HttpError(502)
    ensures reply == Crash <==> db.logs == old(db.logs)
  {
    match routed {
      case Completed(response) =>
        var usage := Usage(response.usage.promptTokens, response.usage.completionTokens);
        var committed := db.RecordUsage(call.org, call.correlation, call.routed, usage, 200);
        var patched := Response(response.id, call.requested, response.message, response.finish, response.usage);
        reply := if committed then Success(patched) else Crash;
      case HttpFailure(status) =>
        var committed := db.RecordUsage(call.org, call.correlation, call.requested, Usage(call.promptEstimate, 0),
                                        status);
        reply := if committed then HttpError(status) else Crash;
      case OtherFailure =>
        var committed := db.RecordUsage(call.org, call.correlation, call.requested, Usage(call.promptEstimate, 0), 500);
        reply := if committed then HttpError(502) else Crash;
    }
  }

  // ----- what the wrapper records -----

  /** The guard of a success record: a fresh id, a cost that fits its column, and a balance that still fits after it. */
  predicate SuccessCommits(t: Tables, prices: map<string, Price>, call: Call, usage: Usage) {
    var cost := CostOf(usage, PriceOf(prices, call.routed));
    && call.correlation.Some? && !Recorded(t.logs, call.correlation.value) && Fits(cost)
    && (cost > 0 && call.org in t.balances ==> Fits(t.balances[call.org] - cost))
  }

  predicate FreshCall(t: Tables, prices: map<string, Price>, call: Call, chunks: seq<Chunk>, count: Counter) {
    && call.correlation.Some?
    && !Recorded(t.logs, call.correlation.value)
    && Fits(CostOf(UsageOf(call, chunks, count), PriceOf(prices, call.routed)))
    && Fits(CostOf(Usage(call.promptEstimate, 0), PriceOf(prices, call.routed)))
  }

  /** A stream with a fresh id leaves exactly one log, under its own id, exactly when its reader drains it. */
  lemma MeteredIffDrained(t: Tables, prices: map<string, Price>, call: Call, upstream: Upstream, pulls: nat,
                          count: Counter)
    requires FreshCall(t, prices, call, upstream.chunks, count)
    ensures var u := StreamedTables(t, prices, call, upstream, pulls, count);
            if pulls < |upstream.chunks| + (if upstream.failed then 1 else 2) then u == t
            else u.logs == t.logs + [u.logs[|t.logs|]] && u.logs[|t.logs|].correlation == call.correlation.value
  {
    if pulls >= PullsToMeter(upstream) {
      var u := StreamedTables(t, prices, call, upstream, pulls, count);
      assert |u.logs| == |t.logs| + 1;
    }
  }

  /** The log of a request that failed: the local prompt count, no completion, and the failure's status. */
  predicate IsFailureLog(log: UsageLog, prices: map<string, Price>, call: Call, model: string, status: int) {
    && call.correlation == Some(log.correlation) && log.org == call.org && log.model == model
    && log.usage == Usage(call.promptEstimate, 0) && log.status == status
    && log.cost == CostOf(Usage(call.promptEstimate, 0), PriceOf(prices, model))
  }

  predicate FailureCommits(t: Tables, prices: map<string, Price>, call: Call, model: string) {
    && call.correlation.Some? && !Recorded(t.logs, call.correlation.value)
    && Fits(CostOf(Usage(call.promptEstimate, 0), PriceOf(prices, model)))
  }

  /** A drained stream that failed is logged with status 500 under the routed model, if that commits. */
  lemma FailedStreamLog(t: Tables, prices: map<string, Price>, call: Call, upstream: Upstream, pulls: nat,
                        count: Counter)
    requires upstream.failed && pulls > |upstream.chunks|
    ensures var u := StreamedTables(t, prices, call, upstream, pulls, count);
            if FailureCommits(t, prices, call, call.routed)
            then && |u.logs| == |t.logs| + 1 && u.logs[..|t.logs|] == t.logs
                 && IsFailureLog(u.logs[|t.logs|], prices, call, call.routed, 500)
            else u == t
  {
  }

  /**
   A whole completion that failed leaves at most one log, under the requested model, with its HTTP
   status or 500; unless that status is 200 it moves no money and is logged exactly when that commits.
   */
  lemma FailedHandlerLog(t: Tables, prices: map<string, Price>, call: Call, routed: Routed)
    requires !routed.Completed?
    ensures var h := HandledTables(t, prices, call, routed);
            && (h != t ==>
                  && |h.logs| == |t.logs| + 1 && h.logs[..|t.logs|] == t.logs
                  && IsFailureLog(h.logs[|t.logs|], prices, call, call.requested,
                                  if routed.HttpFailure? then routed.status else 500))
            && (routed != HttpFailure(200) ==>
                  && h.balances == t.balances && h.transactions == t.transactions
                  && (h != t <==> FailureCommits(t, prices, call, call.requested)))
  {
    var h := HandledTables(t, prices, call, routed);
    if FailureCommits(t, prices, call, call.requested) && routed != HttpFailure(200) {
      assert |h.logs| == |t.logs| + 1;
    }
  }

  /**
   What closes the stream for a reader that never leaves: the end marker of a completed stream;
   then, if the stream failed or its success cannot be recorded, the error and the end marker,
   provided the failure can be recorded.
   */
  lemma ClosingIs(t: Tables, prices: map<string, Price>, call: Call, upstream: Upstream, error: string, count: Counter)
    ensures var done, failure := "data: [DONE]\n\n", "data: " + error + "\n\n";
            var recorded := !upstream.failed && SuccessCommits(t, prices, call, UsageOf(call, upstream.chunks, count));
            ClosingFrames(t, prices, call, upstream, error, count)
            == (if upstream.failed then [] else [done])
               + (if !recorded && FailureCommits(t, prices, call, call.routed) then [failure, done] else [])
  {
    assert Frame(DONE) == "data: [DONE]\n\n";
    assert Frame(error) == "data: " + error + "\n\n";
  }

  /** No stream, however it ends, adds a second log; a reused or malformed id adds none. */
  lemma StreamLogsAtMostOnce(t: Tables, prices: map<string, Price>, call: Call, upstream: Upstream, pulls: nat,
                             count: Counter)
    ensures var u := StreamedTables(t, prices, call, upstream, pulls, count);
            && |t.logs| <= |u.logs| <= |t.logs| + 1
            && (call.correlation.None? || Recorded(t.logs, call.correlation.value) ==> u == t)
  {
  }

  /**
   A drained, completed stream whose commit succeeds is charged on its last reported usage, or
   else on the joined deltas.
   */
  lemma CompletedStreamCharge(t: Tables, prices: map<string, Price>, call: Call, upstream: Upstream, pulls: nat,
                              count: Counter)
    requires !upstream.failed && pulls >= |upstream.chunks| + 2
    requires SuccessCommits(t, prices, call, UsageOf(call, upstream.chunks, count))
    ensures var u := StreamedTables(t, prices, call, upstream, pulls, count);
            var usage := match LastUsage(upstream.chunks)
                         case Some(reported) => Usage(reported.promptTokens, reported.completionTokens)
                         case None => Usage(call.promptEstimate, count(ContentOf(upstream.chunks)));
            var cost := CostOf(usage, PriceOf(prices, call.routed));
            && call.correlation.Some?
            && u.logs == t.logs + [UsageLog(call.correlation.value, call.org, call.routed, usage, cost, 200)]
            && Balance(u, call.org) == Balance(t, call.org) - if cost > 0 && call.org in t.balances then cost else 0
  {
  }

  /** A failed stream moves no money. */
  lemma FailedStreamNeverCharged(t: Tables, prices: map<string, Price>, call: Call, upstream: Upstream, pulls: nat,
                                 count: Counter)
    requires upstream.failed
    ensures var u := StreamedTables(t, prices, call, upstream, pulls, count);
            u.balances == t.balances && u.transactions == t.transactions
  {
  }

  // ----- streamed against whole -----

  /** Nothing can be recorded, or the success can, or not even the failure's cost fits. */
  predicate RecordedAlike(t: Tables, prices: map<string, Price>, call: Call, usage: Usage) {
    || call.correlation.None? || Recorded(t.logs, call.correlation.value)
    || SuccessCommits(t, prices, call, usage)
    || !Fits(CostOf(Usage(call.promptEstimate, 0), PriceOf(prices, call.routed)))
  }

  /**
   A drained stream and a whole response of the same usage always charge alike. They leave the
   same tables but for one case: a success that cannot be recorded leaves the wrapper a log of
   status 500, when that one fits, and the handler nothing.
   */
  lemma DrainedAgainstWhole(t: Tables, prices: map<string, Price>, call: Call, chunks: seq<Chunk>, pulls: nat,
                            count: Counter, response: Response)
    requires pulls >= |chunks| + 2
    requires UsageOf(call, chunks, count) == Usage(response.usage.promptTokens, response.usage.completionTokens)
    ensures var s := StreamedTables(t, prices, call, Upstream(chunks, false), pulls, count);
            var h := HandledTables(t, prices, call, Completed(response));
            && s.balances == h.balances && s.transactions == h.transactions
            && (s == h <==> RecordedAlike(t, prices, call, UsageOf(call, chunks, count)))
  {
    var s := StreamedTables(t, prices, call, Upstream(chunks, false), pulls, count);
    if !RecordedAlike(t, prices, call, UsageOf(call, chunks, count)) {
      assert |s.logs| == |t.logs| + 1;
    }
  }

  lemma UnitCost(price: Price)
    requires price == Price(UNITS_PER_MICRO, 0)
    ensures CostOf(Usage(1, 0), price) == 1 && CostOf(Usage(0, 0), price) == 0
  {
    HalfEvenExact(1, UNITS_PER_MICRO);
    HalfEvenExact(0, UNITS_PER_MICRO);
  }

  /** The case exists: a charge that would take the balance below what its column holds. */
  lemma StreamedAndWholeApart(t: Tables, prices: map<string, Price>, call: Call, chunks: seq<Chunk>, count: Counter,
                              response: Response)
    requires t == Tables([], [], map[call.org := 1 - BALANCE_LIMIT]) && call.correlation.Some?
             && call.promptEstimate == 0
    requires call.routed in prices && prices[call.routed] == Price(UNITS_PER_MICRO, 0)
    requires LastUsage(chunks) == Some(response.usage) && response.usage == UsageInfo(1, 0, 1)
    ensures StreamedTables(t, prices, call, Upstream(chunks, false), |chunks| + 2, count)
         != HandledTables(t, prices, call, Completed(response))
  {
    DrainedAgainstWhole(t, prices, call, chunks, |chunks| + 2, count, response);
    UnitCost(prices[call.routed]);
  }

  // ----- what the reader of the frames sees -----

  function Concat(frames: seq<string>): string {
    if frames == [] then "" else frames[0] + Concat(frames[1..])
  }

  lemma {:induction false} ConcatAppend(a: seq<string>, b: seq<string>)
    ensures Concat(a + b) == Concat(a) + Concat(b)
  {
    if a == [] {
      assert a + b == b;
    } else {
      assert (a + b)[1..] == a[1..] + b;
      ConcatAppend(a[1..], b);
      Associates(a[0], Concat(a[1..]), Concat(b));
    }
  }

  lemma {:induction false} PrintSnoc(chunks: seq<Chunk>, last: Chunk, codec: Codec)
    ensures Print(chunks + [last], codec) == Print(chunks, codec) + Frame(codec.dump(last))
  {
    if chunks == [] {
      assert [last][1..] == [];
      assert Frame(codec.dump(last)) + "" == Frame(codec.dump(last));
    } else {
      assert (chunks + [last])[1..] == chunks[1..] + [last];
      PrintSnoc(chunks[1..], last, codec);
      Associates(Frame(codec.dump(chunks[0])), Print(chunks[1..], codec), Frame(codec.dump(last)));
    }
  }

  lemma {:induction false} FramesArePrint(chunks: seq<Chunk>, codec: Codec)
    ensures Concat(ChunkFrames(chunks, codec)) == Print(chunks, codec)
  {
    if chunks == [] {
    } else {
      var rest, last := chunks[..|chunks| - 1], chunks[|chunks| - 1];
      FramesArePrint(rest, codec);
      ConcatAppend(ChunkFrames(rest, codec), [Frame(codec.dump(last))]);
      assert [Frame(codec.dump(last))][1..] == [];
      assert Frame(codec.dump(last)) + "" == Frame(codec.dump(last));
      PrintSnoc(rest, last, codec);
      assert chunks == rest + [last];
    }
  }

  ghost predicate Printable(codec: Codec, chunks: seq<Chunk>, error: string) {
    && (forall i :: 0 <= i < |chunks| ==> Faithful(codec, chunks[i]) && Brittle(codec, chunks[i]))
    && Trimmed(error) && OneLine(error) && error != DONE && codec.load(error).None?
  }

  /** The frames after the chunks yield nothing, wherever the reader leaves. */
  lemma TailIsBarren(tail: seq<string>, error: string, model: string, codec: Codec)
    requires Trimmed(error) && OneLine(error) && error != DONE && codec.load(error).None?
    requires || tail == [] || tail[0] == Frame(DONE) || tail == [Frame(error)]
             || (|tail| > 1 && tail[0] == Frame(error) && tail[1] == Frame(DONE))
    ensures Read(Lines(Concat(tail)), model, codec) == []
  {
    if tail == [] {
    } else if tail[0] == Frame(DONE) {
      ReadDone(Concat(tail[1..]), model, codec);
    } else {
      ReadFrame(error, Concat(tail[1..]), model, codec);
      if |tail| > 1 {
        ReadDone(Concat(tail[1..][1..]), model, codec);
      } else {
        assert tail[1..] == [];
      }
    }
  }

  lemma ClosingIsBarren(t: Tables, prices: map<string, Price>, call: Call, upstream: Upstream, pulls: nat,
                        codec: Codec, error: string, count: Counter, model: string)
    requires Trimmed(error) && OneLine(error) && error != DONE && codec.load(error).None?
    ensures Read(Lines(Concat(Take(ClosingFrames(t, prices, call, upstream, error, count), pulls))), model, codec) == []
  {
    TailIsBarren(Take(ClosingFrames(t, prices, call, upstream, error, count), pulls), error, model, codec);
  }

  /** The delivered chunks, printed, and the closing frames that were asked for. */
  lemma DeliveredText(chunks: seq<Chunk>, closing: seq<string>, pulls: nat, codec: Codec)
    ensures Concat(Take(ChunkFrames(chunks, codec) + closing, pulls))
         == Print(Take(chunks, pulls), codec) + Concat(Take(closing, if pulls <= |chunks| then 0 else pulls - |chunks|))
  {
    var n, body := |chunks|, ChunkFrames(chunks, codec);
    PrefixFrames(chunks, if pulls <= n then pulls else n, codec);
    if pulls <= n {
      assert Take(body + closing, pulls) == ChunkFrames(chunks[..pulls], codec);
      FramesArePrint(chunks[..pulls], codec);
      assert Take(closing, 0) == [];
    } else {
      assert Take(body + closing, pulls) == body + Take(closing, pulls - n);
      FramesArePrint(chunks, codec);
      ConcatAppend(body, Take(closing, pulls - n));
    }
  }

  /**
   Whatever the upstream, the tables and the reader's patience, reading the wrapper's frames
   gives exactly the delivered chunks, with the model patched, if and only if none of them is
   serialized with a line separator.
   */
  lemma ReaderSeesDelivered(t: Tables, prices: map<string, Price>, call: Call, upstream: Upstream, pulls: nat,
                            codec: Codec, error: string, count: Counter, model: string)
    requires Printable(codec, upstream.chunks, error)
    ensures var closing := ClosingFrames(t, prices, call, upstream, error, count);
            var frames := Take(ChunkFrames(upstream.chunks, codec) + closing, pulls);
            var delivered := Take(upstream.chunks, pulls);
            Read(Lines(Concat(frames)), model, codec) == Patched(delivered, model)
            <==> forall i :: 0 <= i < |delivered| ==> OneLine(codec.dump(delivered[i]))
  {
    var closing, delivered := ClosingFrames(t, prices, call, upstream, error, count), Take(upstream.chunks, pulls);
    var asked := if pulls <= |upstream.chunks| then 0 else pulls - |upstream.chunks|;
    DeliveredText(upstream.chunks, closing, pulls, codec);
    ClosingIsBarren(t, prices, call, upstream, asked, codec, error, count, model);
    RoundTripIffOneLine(delivered, Concat(Take(closing, asked)), model, codec);
  }
}
