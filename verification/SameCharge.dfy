/**
 An Anthropic completion is billed alike whether it is streamed and metered from its last
 usage chunk or returned whole: stream loop, wrapper, handler, cost and charge composed
 (app/providers/anthropic.py:304-424, app/api/v1/completions.py:56-87 and 169-181).
 */
module SameCharge {
  import opened Wrappers
  import opened Schemas
  import opened Cost
  import opened Ledger
  import opened Completions
  import opened AnthropicResponse
  import Stream = AnthropicStream

  /** The usage a client ends up with is the last one reported. */
  lemma {:induction false} FoldKeepsLastUsage(a: Stream.Assembly, chunks: seq<Chunk>)
    ensures Stream.AbsorbAll(a, chunks).usage == if LastUsage(chunks).Some? then LastUsage(chunks) else a.usage
  {
    if chunks == [] {
    } else {
      var rest, last := chunks[..|chunks| - 1], chunks[|chunks| - 1];
      FoldKeepsLastUsage(a, rest);
      assert chunks == rest + [last];
      Stream.AbsorbAppend(a, rest, [last]);
      Stream.AbsorbOne(Stream.AbsorbAll(a, rest), last);
    }
  }

  /**
   Streamed and drained or returned whole, a message moves the same money, and leaves the same
   tables exactly when `RecordedAlike`.
   */
  lemma StreamedAndWholeChargeAlike(t: Tables, prices: map<string, Price>, call: Call, pulls: nat, count: Counter,
                                    lines: seq<Stream.Line>, m: AnthropicMessage, split: seq<seq<Stream.Piece>>,
                                    closings: seq<Stream.Closing>, freshId: string, codec: JsonCodec)
    requires Stream.Transcribes(lines, m, split, closings, codec)
    requires pulls >= |Stream.StreamChunks(lines, freshId, call.requested)| + 2
    ensures var chunks := Stream.StreamChunks(lines, freshId, call.requested);
            var s := StreamedTables(t, prices, call, Upstream(chunks, false), pulls, count);
            var h := HandledTables(t, prices, call, Completed(ResponseOf(m, freshId, call.requested, codec)));
            && s.balances == h.balances && s.transactions == h.transactions
            && (s == h <==> RecordedAlike(t, prices, call, Usage(m.inputTokens.GetOr(0), m.outputTokens.GetOr(0))))
  {
    var chunks := Stream.StreamChunks(lines, freshId, call.requested);
    Stream.AssembledMessage(lines, m, split, closings, freshId, call.requested, codec);
    FoldKeepsLastUsage(Stream.NOTHING, chunks);
    DrainedAgainstWhole(t, prices, call, chunks, pulls, count, ResponseOf(m, freshId, call.requested, codec));
  }
}
