# CortexCloud gateway: translation, metering, limits, routing and paywall

A Dafny model of the parts of the gateway that translate messages between vendors, meter and charge
requests, limit their rate, retry them and ask for payment, with proofs over every input, every
interleaving and every run. `dafny verify dfyconfig.toml` checks all of it.

## What is modelled

**Money** (`Arithmetic`, `Rounding`, `Cost`, `Ledger`, `Overdraft`, `Revenue`, `Metering`, `Extremes`). A cost
is an exact integer number of 10^-10 dollars, rounded half to even to micro-dollars; amounts are
micro-dollars, so the `Numeric(10,4)` prices and `Numeric(12,6)` amounts are integers. Committed tables, the
row lock, the unique correlation id and the atomic commit form a state machine whose steps interleave freely:
registration, the balance gate, taking the lock, committing a charge or a plain log, abandoning, and a
deposit's read and write as two steps. A record rolls back when its correlation id is taken or an amount does
not fit its column.

- Failed requests are logged with their cost but not charged (`app/services/usage.py:73` and `:83`); the
  agreement between charges and logs is therefore about status-200 logs with a positive cost.
- A deposit reads the balance without the lock a charge takes, and it is a decimal with any number of places:
  its sum and its ledger row are rounded separately, ties away from zero. Every balance equals its ledger,
  and the revenue report adds up, exactly when each deposit write meets a guard (`FreshWrite`): the balance it
  read is the committed one, or one micro-dollar more when the sum is a tie below zero. `DriftIsMissed` gives
  the amount otherwise missed; `LostDeposit` and `FineDepositDrifts` are concrete runs.
- The overdraft bound needs less: no deposit write may be lower than the committed balance. Without that
  guard it holds with the credit so taken back added, and `LostCreditIsReached` reaches that for any such credit.

**The gateway as a whole** (`Gateway`). Signups, deposits, admissions, the ends of streams and whole
completions, the database steps that record them, and readers leaving at any of these, in any order and
interleaving, are runs of that machine. So for every history: ids are logged once, charges match successful logs, a balance is its ledger plus
what deposits missed, and an account's debt is bounded. A request that nobody interrupts leaves exactly the
tables of the wrapper or of the handler.

**Completions** (`Schemas`, `Sse`, `Completions`, `SameCharge`). The streaming wrapper is a generator that
runs only as far as its reader asks (`pulls`), so a reader that leaves early leaves no usage record at all.
The wrapper's output is read back with the line reader of the OpenAI provider. That reader also ends lines at
U+0085, U+2028, U+2029 and the other separators Python knows, beyond section 9.2.6 of the WHATWG HTML
Standard; the JSON dump leaves the first three as they are, so a chunk containing one is lost.
`RoundTripIffOneLine` and `ReaderSeesDelivered` state the exact condition, for streams that end, fail or are
left. A drained stream and a whole response of the same usage move the same money always; they leave the same
tables but for one case, a success that cannot be recorded, which the wrapper logs as a failure and the handler
does not (`RecordedAlike`).

**Anthropic** (`AnthropicRequest`, `Coalescing`, `Conversation`, `AnthropicResponse`, `AnthropicStream`). Request lists are
heap objects and tool results are appended to the last payload list in place. The payload's own lists are
new, but a tool result or an assistant text with list content carries the request's very list inside its item;
no append reaches such a list. The stream translator is the line-driven machine of the source; a client folds
its chunks, and the fold is compared with the translation of the whole message, for any lines that amount to
the message's events: every cut of its blocks into deltas, deltas of other kinds among them, pings, stops,
blank, stray and unparsable lines anywhere, and any number of `message_delta` events. The arguments of a call
that sends no JSON stream as an empty string where the whole translation has `{}`; agreement up to parsing
holds exactly when no call does.

**Gemini** (`Gemini`, `GeminiClient`). Text, calls by name and arguments, and token counts of the stream agree
with the whole response. Every streamed call has index 0, so a client can tell calls apart by index only while
there is at most one; a reported total that is not the sum of the two counts is dropped; and the finish reason
shows exactly when the last part that carries one is the one that decides (`ReasonShows`).

**Limits** (`SlidingWindow`, `Quota`, `QuotaRuns`). Redis is state plus time. The sliding window's pruned,
expiring set decides as the full history would. Since refused attempts are counted too, a client that keeps knocking is
never admitted again. The daily counter is modelled once with each check as a whole and once command by
command, with any number of checks overlapping and the key evicted at any point. Overlapping checks can prime
the counter with a count that others have outgrown, and a counter lost between the read and the increment
restarts at one, without an expiry: both wipe out increments. A day's admissions are bounded by the limit, the
overlap, the unlogged requests and the increments wiped out, of which there are none exactly when every
priming and increment meets its guard (`Remembers`). A day may start with whatever key and checks under way the
night has left.

**Routing** (`Powers`, `Router`). A provider is an arbitrary sequence of outcomes. The retry loop is proved
against a specification that names the first success. Stream routing does no upstream work, because provider
streams are lazy, so its fallback fires only when the primary is not configured, although its docstring
speaks of failing connections. The registry lookup does not look at `is_active`
(`app/services/models.py:23-25`), whatever the error text says.

**Paywall** (`Pricing`, `PriceText`, `Paywall`). Prices are read as decimal text and converted through
correctly rounded binary64 arithmetic (section 4.3.1 of IEEE 754-2008), then truncated. The middleware logs
its effects in order; requests interleave. An unpaid request is answered with 402 (section 15.5.3 of RFC
9110). A paid request is always forwarded, which is not to say served: the payment middleware is added last
(`app/main.py:176-181`), so it runs before the x402 rate limiter, which may still refuse what was forwarded.

### Assumptions

- JSON dumping and parsing, token counting, data-URL images and Python's `str` are function parameters. Where
  a proof needs a law (parsing undoes dumping; no line of a broken serialization is itself a chunk), the
  predicate stating it is a named precondition: `Lawful`, `Faithful`, `Brittle`, `Printable`.
- A locked select returns the committed row. `Decimal` is exact for costs, balances and the sums of deposits,
  and a 12-digit amount survives its passage through `float`.
- Accounts of the development seed script, which have no ledger row, are not reachable states.
- One Redis key, limit and window at a time; Redis answers every command; the random suffixes of two attempts
  in the same instant differ; attempts take effect in order of time.
- Attempt times, latencies, client addresses and error texts beyond their frame are not recorded.

## Model

| member | source | states |
|---|---|---|
| Rounding.HalfEvenIsNearest | app/services/usage.py:60-61 | quantizing yields a nearest integer, the even one of two equally near |
| Rounding.NearestEvenUnique | app/services/usage.py:60-61 | only one integer is nearest in that sense, so the rounding is pinned down |
| Rounding.HalfAwayIsNearest | app/models/billing.py:20-49 | the rounding of a numeric column is nearest, ties going away from zero |
| Rounding.HalfAwayShift | app/api/dashboard/routes.py:331-336 | rounding a sum is adding the rounded amount, except for a tie that the sum takes below zero, where it is one less |
| Cost.ComputeCost | app/services/usage.py:44-61 | the charge is the nearest micro-dollar, ties to even, to prompt tokens at the prompt price plus completion tokens at the completion price, a count that is not positive adding nothing |
| Cost.MillionTokens | app/services/usage.py:53-59 | a million tokens of either kind cost exactly that kind's listed price, whatever the other price is |
| Cost.CostIsNearest | app/services/usage.py:53-61 | the specification function the other results are about is nearest to the same two products |
| Cost.CostMonotone | app/services/usage.py:53-61 | more tokens at higher prices never cost less |
| Cost.SplitWithinOne | app/services/usage.py:53-61 | splitting a request in two changes the charge by at most one micro-dollar |
| Cost.AccumulatedError | app/services/usage.py:53-61 | over n requests charges drift from the exact cost by at most n/2 micro-dollars |
| Metering.BillingDatabase.RecordUsage | app/services/usage.py:22-111 | the record commits exactly when the id is a fresh UUID and the amounts fit; then the log holds the given account, model, counts and status with the cost at the model's price, nothing for an unknown model, and balance and ledger row change together exactly for a status-200 log with a positive cost; otherwise nothing changes |
| Metering.RecordIsSteps | app/services/usage.py:82-110 | an undisturbed record is the lock and commit steps (or the log step) of the interleaving model |
| Metering.RetryRecordsNothing | app/models/usage.py:25 | recording a second time under the same correlation id fails and changes nothing |
| Ledger.StepKeepsLocks | app/services/usage.py:85-89 | at most one session holds an account's row lock, kept by every step |
| Ledger.StepKeepsSessions | app/services/usage.py:85-96 | whoever holds the lock has read the current balance, kept by every step |
| Ledger.RunKeepsInv | app/services/usage.py:63-110 | locks exclusive, sessions sound and correlation ids unique in every reachable state |
| Ledger.DepositsAreRegular | app/api/dashboard/routes.py:113-131 | in every reachable state an account's ledger opens with its ten-dollar credit, every row belongs to an account, and no deposit is below one dollar |
| Ledger.DepositStartsIff | app/api/dashboard/routes.py:311-316 | a deposit starts if and only if it is at least one dollar |
| Ledger.AtMostOnce | app/models/usage.py:25 | in every reachable state two logs with the same correlation id are the same log |
| Ledger.ChargesMatchLogs | app/services/usage.py:82-110 | the usage charges of an account are, one for one and in order, the costs of its status-200 logs with a positive cost |
| Ledger.ChargesTotalBilledCost | app/services/usage.py:73-102 | so charges total minus the cost of its status-200 logs |
| Ledger.DriftIsMissed | app/api/dashboard/routes.py:311-340 | over any interleaving, balance minus ledger is exactly what deposits overwrote with sums they had outdated, and what their rounding lost |
| Ledger.ConservedIffFresh | app/api/dashboard/routes.py:317-340 | every balance equals its ledger throughout a run if and only if each deposit writes over the balance it read, or over one less when its sum is a tie below zero |
| Ledger.LostDeposit | app/api/dashboard/routes.py:317-331 | two deposits that both read before either writes: both ledger rows stay, one amount is lost from the balance |
| Revenue.ReportBalancesIffFresh | app/admin/routes.py:177-193 | deposits plus charges of the revenue report equal the sum of all balances throughout a run if and only if every deposit write meets that guard |
| Overdraft.MarginHolds | app/auth/dependencies.py:118-127 | in every interleaving with at most `width` requests in flight and charges up to `maxCost`, the balance plus the credit deposit writes took back stays above -(width - inflight) * maxCost |
| Overdraft.DebtBound | app/services/usage.py:83-96 | so the balance stays above -width * maxCost less the credit taken back |
| Overdraft.LostIffFalls | app/api/dashboard/routes.py:317-331 | credit is taken back if and only if some deposit writes less than the committed balance |
| Overdraft.OverdraftBound | app/services/usage.py:83-96 | while no deposit does, the balance never reaches -width * maxCost |
| Overdraft.FreshBound | app/services/usage.py:83-96 | in particular when every deposit write is fresh, as when deposits are serialised |
| Extremes.BoundIsReached | app/auth/dependencies.py:118-127 | the bound is tight for every width and cost the columns allow: that many requests admitted at a balance of one micro-dollar bring it to one above the bound |
| Extremes.LostCreditIsReached | app/api/dashboard/routes.py:317-331 | for any credit taken back by a stale write, a run with one request in flight comes to one above the bound that counts it, and below the one that does not |
| Extremes.FineDepositDrifts | app/api/dashboard/routes.py:313-331 | a serialised deposit of 1.0000005 dollars leaves a negative balance a micro-dollar short of its ledger |
| Gateway.AloneRecordsFirst | app/api/v1/completions.py:73-106 | a request that nobody interrupts, whatever else is open, commits the first of its records that can and closes its session |
| Gateway.AloneIsWrapper | app/api/v1/completions.py:61-106 | uninterrupted, the end of a stream leaves the wrapper's tables |
| Gateway.AloneIsHandler | app/api/v1/completions.py:160-225 | uninterrupted, the end of a whole completion leaves the handler's tables |
| Gateway.OneLogPerRequest | app/api/v1/completions.py:73-106 | in any interleaving a log appears only when a request commits the first record it has left, and that ends the request |
| Gateway.ServingIsRun | app/api/v1/completions.py:41-225 | any history of signups, deposits, admissions, requests recording step by step and readers leaving at any step, interleaved, is a run of the ledger's machine, one step an event |
| Gateway.BooksBalance | app/services/usage.py:63-110 | whatever requests come, interleave, fail, repeat their ids or leave at any database step: ids logged once, charges match successful logs one for one, a balance is its ledger plus what deposits missed |
| Gateway.BalancedIffFresh | app/api/dashboard/routes.py:317-340 | every balance equals its ledger throughout a history if and only if every deposit write meets its guard |
| Gateway.ReportsIffFresh | app/admin/routes.py:177-193 | so does the revenue report |
| Gateway.DebtIsBounded | app/auth/dependencies.py:118-127 | with at most `width` requests of an account open and no bill above `maxCost`, it owes less than `width` times `maxCost` plus the credit its deposits took back |
| Completions.Relay | app/api/v1/completions.py:46-57 | one frame per chunk in order, `data: ` before its dump and a blank line behind; content the joined deltas, usage the last reported |
| Completions.Close | app/api/v1/completions.py:59-117 | what the wrapper records and sends once the chunks are through, whether the stream failed or its success could not be recorded |
| Completions.ClosingIs | app/api/v1/completions.py:59-117 | the frames after the chunks, as text: the end marker of a completed stream, then error and end marker if nothing but the failure can be recorded |
| Completions.StreamCompletion | app/api/v1/completions.py:26-117 | the tables and frames after any number of pulls, for a stream that ends or fails anywhere |
| Completions.HandleCompletion | app/api/v1/completions.py:160-225 | the tables after a whole response, an HTTP failure or another failure; the response unchanged but for the requested model name, the failure's own status or 502, and a crash exactly when nothing was recorded |
| Completions.MeteredIffDrained | app/api/v1/completions.py:61-106 | a stream with a fresh id leaves exactly one log exactly when its reader drains it, and none otherwise |
| Completions.StreamLogsAtMostOnce | app/api/v1/completions.py:73-106 | however a stream ends it adds at most one log, and none under a reused or malformed id |
| Completions.CompletedStreamCharge | app/api/v1/completions.py:61-87 | a completed stream adds one log of status 200 under the routed model and is charged on its last reported usage, or on the count of the joined deltas if none was reported |
| Completions.FailedStreamNeverCharged | app/api/v1/completions.py:89-106 | a failed stream changes no balance and adds no ledger row |
| Completions.FailedStreamLog | app/api/v1/completions.py:89-106 | a drained stream that failed adds one log of status 500 with the local prompt count under the routed model, exactly when that commits |
| Completions.FailedHandlerLog | app/api/v1/completions.py:185-225 | a whole completion that failed is logged under the requested model with its HTTP status or 500 and the local prompt count; a status other than 200 moves no money |
| Completions.ReaderSeesDelivered | app/providers/openai.py:81-96 | whatever the ending and wherever the reader leaves, it gets back exactly the delivered chunks with the model name replaced, if and only if none of them is serialized with a line separator |
| Completions.DrainedAgainstWhole | app/api/v1/completions.py:61-106 | a drained stream and a whole response of equal usage move the same money, and leave the same tables if and only if no id is usable, the success commits, or not even the failure's cost fits |
| Completions.StreamedAndWholeApart | app/api/v1/completions.py:89-106 | a charge that the balance column cannot hold leaves the wrapper's log of status 500 and nothing from the handler |
| Sse.ReadStream | app/providers/openai.py:81-96 | the reading loop: blank, foreign and malformed lines skipped, stop at `[DONE]`, model name patched |
| Sse.ReadPassesOver | app/providers/openai.py:81-96 | a blank line, a foreign line or data that does not load may stand anywhere in a stream without changing what is read |
| Sse.PatchedAt | app/providers/openai.py:90-93 | every chunk read has the gateway's model name and is otherwise the chunk sent |
| Sse.LineEnds | app/providers/openai.py:81 | a line ends at any one separator, CR and LF together counting as one |
| Sse.StripCuts | app/providers/openai.py:82-85 | stripping removes the spaces on both sides and nothing else |
| Sse.ReadPrinted | app/api/v1/completions.py:46-59 | printed one-line chunks, cut into lines again, are read back in order, whatever follows |
| Sse.ReadStopsAtDone | app/providers/openai.py:86-87 | nothing after `[DONE]` is read |
| Sse.ReadSkipsError | app/api/v1/completions.py:108-117 | after a failure midway the reader gets the delivered prefix: the error frame is skipped |
| Sse.RoundTripIffOneLine | app/api/v1/completions.py:48-59 | before anything that yields no chunk, reading undoes printing if and only if no serialized chunk contains a line separator |
| SameCharge.StreamedAndWholeChargeAlike | app/providers/anthropic.py:304-424 | the stream loop, wrapper, handler and cost composed: streamed and drained or returned whole, an Anthropic message moves the same money whatever its id and amounts, and leaves the same logs too exactly under the condition of Completions.DrainedAgainstWhole |
| AnthropicResponse.CollectBlocks | app/providers/anthropic.py:172-186 | the joined text and the tool calls of a message in order |
| AnthropicResponse.BlocksConcatenate | app/providers/anthropic.py:172-186 | text and calls of adjoining blocks adjoin |
| AnthropicResponse.CallAt | app/providers/anthropic.py:178-186 | a tool block's call stands behind the calls of the tool blocks before it, with its id, name and dumped input |
| AnthropicResponse.FinishOf | app/providers/anthropic.py:188-196 | finish is `length` exactly for `max_tokens`, `tool_calls` exactly for `tool_use`, never `content_filter` |
| AnthropicResponse.TranslateResponse | app/providers/anthropic.py:170-226 | id or a fresh one, the gateway's model, the joined text or no content exactly when it is empty, call k the tool block with k tool blocks before it, the finish reason, both counts and their sum |
| AnthropicStream.Translator.FeedData | app/providers/anthropic.py:301-424 | for each event name the chunks with id, model, role, delta, finish reason and usage, and which variable takes which value, including the defaults of absent keys |
| AnthropicStream.Translator.Feed | app/providers/anthropic.py:289-299 | state and chunks after one line; blank, foreign and unparsable lines do nothing |
| AnthropicStream.TranslateStream | app/providers/anthropic.py:280-424 | the loop yields the concatenated chunks of its lines |
| AnthropicStream.NoiseAnywhere | app/providers/anthropic.py:289-299 | a blank or foreign line or unparsable data anywhere in the stream changes no chunk |
| AnthropicStream.NoiseIsInert | app/providers/anthropic.py:289-299 | only parsed data lines under the last of the four event names before them reach the client, whatever lines stand anywhere else |
| AnthropicStream.AllBlocks | app/providers/anthropic.py:319-384 | any cut of the blocks into deltas, with deltas of other kinds among them, folds to their text and their calls under their own index |
| AnthropicStream.AssembledMessage | app/providers/anthropic.py:280-424 | what a client assembles from any lines that transcribe a message: id, text, calls, finish reason, usage |
| AnthropicStream.CallsAgree | app/providers/anthropic.py:322-384 | streamed and whole calls agree in number, order, ids and names, and their arguments parse alike if and only if no call sent no JSON |
| AnthropicStream.StreamAgrees | app/providers/anthropic.py:170-226 | streaming refines the whole translation for every message and every cut: the same text, the whole response having no content exactly when it is empty, the same calls, finish reason and usage |
| SlidingWindow.PruneIsExact | app/middleware/rate_limit.py:37-45 | what expiry and pruning leave is exactly the attempts of the preceding window |
| SlidingWindow.DecideExactly | app/middleware/rate_limit.py:39-50 | the counted set has as many members as the history has attempts in the window, and still tracks it afterwards |
| SlidingWindow.Limiter.IsRateLimited | app/middleware/rate_limit.py:26-50 | limited exactly when at least `limit` attempts, admitted or refused, fall in the preceding window; the key then lives for the window and five seconds |
| SlidingWindow.RunLimiter | app/middleware/rate_limit.py:26-50 | over a whole history the limiter decides as the history alone would |
| SlidingWindow.WindowSafety | app/middleware/rate_limit.py:32-50 | every half-open interval of one window's length holds at most `limit` admitted requests |
| SlidingWindow.AdmittedIff | app/middleware/rate_limit.py:32-50 | an attempt is admitted exactly when it is among the first `limit` or the attempt `limit` places earlier is at least a window old |
| SlidingWindow.PersistentClientStarves | app/middleware/rate_limit.py:42-50 | a client that never lets its attempts thin out gets its first `limit` requests and then none |
| Quota.CheckIsSteps | app/middleware/rate_limit.py:96-121 | an uninterrupted check is its commands in order: get, on a miss count and set, compare, increment |
| Quota.DailyQuota.CheckDaily | app/middleware/rate_limit.py:92-121 | the check allows exactly the requests it counts and leaves counter, expiry and table as specified |
| Quota.SerialCovered | app/middleware/rate_limit.py:96-121 | with evictions and re-primes at any point, from any key the night left, admitted minus counter stays within the requests unlogged at some priming |
| Quota.DailyBound | app/middleware/rate_limit.py:92-121 | with checks one at a time and at most `width` admitted requests ever unlogged, a day admits fewer than the limit plus `width`, and none when `width` is zero, whatever key it starts with |
| Quota.DailyBoundReached | app/middleware/rate_limit.py:98-110 | evictions before every log reach that bound for every `width` |
| Quota.OverlapBound | app/middleware/rate_limit.py:92-121 | however checks overlap, whenever the key is evicted and whatever key and checks the night left, a day admits at most limit - 1 plus the checks under way, the requests unlogged and the increments wiped out |
| Quota.ForgottenIff | app/middleware/rate_limit.py:98-121 | nothing is wiped out if and only if no check primes after a request was counted since its own count, and every increment but the day's first finds the key |
| Quota.RememberedBound | app/middleware/rate_limit.py:92-121 | under those two guards limit, overlap and unlogged requests bound a day |
| QuotaRuns.OverlapReached | app/middleware/rate_limit.py:96-121 | and the bound is reached under both guards for every limit, overlap and width of at least one |
| QuotaRuns.OverlappedPrimings | app/middleware/rate_limit.py:96-121 | three checks that count before any primes are all admitted under a limit of one, with no more than one request unlogged, against the bound for checks one at a time |
| QuotaRuns.StalePrimingForgets | app/middleware/rate_limit.py:100-110 | the priming's guard is needed: for every limit, two checks and one request unlogged admit twice the limit when it fails |
| QuotaRuns.LostKeyForgets | app/middleware/rate_limit.py:114-121 | the increment's guard is needed: for every limit, a key evicted under a cleared check admits twice the limit |
| Quota.ConcurrentBound | app/middleware/rate_limit.py:96-121 | while the key lives, counter plus pending increments stays at most max(primed value, limit + width - 1), and admissions are its increments |
| Quota.ExactWhenSerial | app/middleware/rate_limit.py:114-121 | with one check at a time the limit is exact |
| Quota.ExpiringIffKeyFound | app/middleware/rate_limit.py:108-121 | from any key with an expiry or none, the key always carries one if and only if every increment finds the key |
| Quota.LostKeyRestartsCount | app/middleware/rate_limit.py:114-121 | an eviction between comparison and increment leaves a counter of one without expiry |
| Router.Upstream.Execute | app/routing/router.py:186-197 | an unconfigured provider fails with 500 before any call, otherwise the next outcome is consumed |
| Router.Upstream.ExecuteWithRetry | app/routing/router.py:226-271 | the loop refines the retry specification in result, calls and time slept; without attempts it raises no exception object |
| Router.Upstream.RouteChatCompletion | app/routing/router.py:76-122 | lookup, retries and one failover refine the routing specification in result, model, calls and time slept |
| Router.Upstream.RouteStream | app/routing/router.py:124-163 | for every configuration: the model if it is configured, else its registered fallback if that is, else no stream and the status raised |
| Router.RetryReturnsFirstSuccess | app/routing/router.py:237-271 | retrying returns if and only if some attempt succeeds after transient failures only, and then that attempt's response |
| Router.RetryRaises | app/routing/router.py:242-271 | otherwise it raises the status of the first permanent or the last failure, 502 for other exceptions |
| Router.RetriedStatuses | app/routing/router.py:245-271 | an HTTP failure is tried again exactly at 429, 500, 502, 503 and 504, any other exception always |
| Router.PauseDoubles | app/routing/router.py:247-252 | the pauses are 1, 2, 4 and so on times the backoff |
| Router.UnconfiguredFails | app/routing/router.py:186-197 | a provider that is not configured ends in 500 with nothing sent, however often it is tried |
| Router.RoutingRefinesFailover | app/routing/router.py:92-122 | first success on the model, else on its one fallback after a retryable status, else 502 or the primary error, for any fallback graph |
| Router.RoutingIsBounded | app/routing/router.py:237-269 | at most 2*max_retries calls and 2*backoff*(2^(max_retries-1) - 1) seconds of sleep |
| Router.BackoffIsExact | app/routing/router.py:247-252 | when every attempt fails transiently one loop sleeps exactly backoff*(2^(max_retries-1) - 1) |
| Pricing.NearestRounds | app/x402/pricing.py:49-50 | the modelled binary64 operation is within half a unit in the last of 53 bits |
| Pricing.ConversionBound | app/x402/pricing.py:49-51 | a price of n < 2^51 units converts to n or n - 1, never more |
| Pricing.ListedPricesExact | app/x402/pricing.py:9-30 | the amounts in the table convert exactly |
| Pricing.ExactIff | app/x402/pricing.py:49-51 | a price converts exactly if and only if the parsed float, times a million, falls short of it by at most half the spacing of floats there |
| Pricing.ShortByOne | app/x402/pricing.py:49-51 | 0.000249 dollars convert to 248 units, so n - 1 does occur |
| PriceText.WrittenPrice | app/x402/pricing.py:47-49 | any dollars and cents written with up to six places are read as what they denote |
| PriceText.ConvertBound | app/x402/pricing.py:40-51 | every such text converts to the units it denotes or one less |
| PriceText.ListedTexts | app/x402/pricing.py:9-30 | the priced texts of the table convert to exactly 1000 and 5000 units |
| Paywall.ViewIsLastEntry | app/middleware/x402.py:75-77 | the path-only view has exactly the table's paths, each at its last listed price |
| Paywall.ViewAgreesIff | app/middleware/x402.py:75-77 | the view agrees with the table if and only if no path is listed at two prices |
| Paywall.ListedTableAgrees | app/x402/pricing.py:9-30 | it does for the listed table, whose every path lies behind the prefix the bearer bypass excludes |
| Paywall.Middleware.Dispatch | app/middleware/x402.py:92-285 | the request adds, under its id, exactly the events whose outcome Paywall.TraceOutcome states, and touches no other request's |
| Paywall.TraceOutcome | app/middleware/x402.py:92-285 | a request is forwarded if and only if it is not charged, or its payment is decoded, verified and settled; challenged if and only if it is charged and has no payment; otherwise refused with 400, 402 or 502 by the answers; each event at most once, for the path's amount, with a receipt exactly for a paid forward |
| Paywall.DispatchedOutcome | app/middleware/x402.py:92-285 | so after its dispatch a request's events in the shared log have that outcome, and no other request's events have changed |
| Paywall.EarlierEventsHappened | app/middleware/x402.py:224-280 | in an interleaved log, what precedes an event in its request's order happened before it |
| Paywall.PaymentPrecedesForward | app/middleware/x402.py:165-285 | a charged request is forwarded only after one successful verification and then one successful settlement of its amount, and settled only after that verification; the challenge asks for that amount and a receipt follows a forward |
| Paywall.ListedPathsAreCharged | app/middleware/x402.py:104-121 | every non-free listed path is charged its own listed price exactly, for any method and headers |
| Paywall.ListedAmounts | app/x402/pricing.py:9-30 | in millionths of a dollar, completions and responses cost 5000, the model list nothing and every other listed path 1000, with or without a bearer token |
| Paywall.ListedPathIsPaid | app/middleware/x402.py:104-280 | end to end: a listed path is forwarded only after its written price was verified and settled |
| AnthropicRequest.ConvertItems | app/providers/anthropic.py:140-167 | text items rebuilt, data-URL images converted, other items dropped |
| AnthropicRequest.ConvertContent | app/providers/anthropic.py:137-168 | a list content becomes a fresh list, any other content is returned as it is |
| AnthropicRequest.AssistantItems | app/providers/anthropic.py:61-78 | the text exactly when the content is not empty, then item k the tool use of call k, with its id, its name and its parsed arguments or an empty object |
| AnthropicRequest.AppendToLast | app/providers/anthropic.py:96-97 | the in-place append grows the last message and no other |
| AnthropicRequest.AddToolResult | app/providers/anthropic.py:84-102 | a tool result joins a last user message with a list, or opens a new one |
| AnthropicRequest.AddMessage | app/providers/anthropic.py:55-102 | one message's effect on the payload, the payload's lists staying separate and fresh |
| AnthropicRequest.TranslateMessages | app/providers/anthropic.py:43-107 | the payload and prompt are functions of the request; the lists of the payload's messages are fresh and distinct, and the request's heap is unchanged |
| AnthropicRequest.NestedIsKept | app/providers/anthropic.py:60-102 | the lists inside a payload's items are exactly the contents of assistant and tool messages and the texts of user items that the request holds as lists |
| AnthropicRequest.TranslateRequest | app/providers/anthropic.py:43-107 | those lists are the request's own, shared with the payload, and none of them is a list the translator appends to |
| AnthropicRequest.PayloadsOfAttempts | app/routing/router.py:237-241 | so all attempts of a retry loop send equal payloads, each in message lists of its own around the same lists of the request |
| Coalescing.MeaningPreserved | app/providers/anthropic.py:48-107 | flattening the payload gives, in order and under the right role, each non-system message's own translation |
| Coalescing.AbsorbingIffTakesResult | app/providers/anthropic.py:96-102 | a result is absorbed exactly when the last non-system message was a tool message or a user message with a list |
| Coalescing.PayloadLength | app/providers/anthropic.py:48-102 | the payload has as many messages as there are user and assistant messages plus tool runs not absorbed |
| Coalescing.ResultLands | app/providers/anthropic.py:84-102 | a tool result stays, to the end, in the user message where it landed |
| Coalescing.RunLandsTogether | app/providers/anthropic.py:84-102 | every run of tool messages, system messages in between ignored, lands in one user message |
| Coalescing.PromptIsJoin | app/providers/anthropic.py:49-54 | the prompt is the system texts joined by newlines, leading empty ones leaving no trace |
| Coalescing.SpokenLands | app/providers/anthropic.py:55-102 | a user or assistant message stays where it was put, results only joining a user's list behind it |
| Conversation.AssistantIsSent | app/providers/anthropic.py:60-83 | each assistant message of a request is an assistant message of the payload: its text if it says something, then one tool use per call in order, with id, name and parsed arguments or an empty object |
| Conversation.ResultIsSent | app/providers/anthropic.py:84-102 | each tool message is a tool result of a user message, with its own call id and its content or an empty string |
| Conversation.ResultNamesItsCall | app/providers/anthropic.py:67-102 | a result under an earlier call's id names the same id as that call's tool use and stands in a later payload message |
| Conversation.UserIsSent | app/providers/anthropic.py:55-59 | each user message is a user message of the payload: other content unchanged, a list as its texts and images in order, with text, media type and data |
| Conversation.SystemIsPrompted | app/providers/anthropic.py:49-54 | the k-th text the prompt joins is the k-th system message's content |
| Gemini.CollectParts | app/providers/gemini.py:159-171 | the joined text and the calls of the parts in order |
| Gemini.TranslateResponse | app/providers/gemini.py:149-210 | id and model, the joined text or no content exactly when it is empty, both counts, the reported total or their sum, and the finish reason, `tool_calls` overriding what Gemini reports |
| Gemini.WholeFinish | app/providers/gemini.py:173-182 | `tool_calls` exactly with calls, else `length` exactly for MAX_TOKENS and `content_filter` exactly for SAFETY |
| Gemini.StreamFinish | app/providers/gemini.py:307-311 | a streamed reason exactly for STOP and MAX_TOKENS |
| Gemini.TranslateLine | app/providers/gemini.py:303-352 | one chunk per text or call part, in order |
| Gemini.PartIsStreamed | app/providers/gemini.py:313-352 | each part's chunk stands behind the text and chunks of the parts before it: a text with the line's finish reason, a call opened under its own id and filled at once |
| Gemini.TranslateStream | app/providers/gemini.py:261-365 | the role first, every chunk under one id and model, and last the prompt count of the last line that reports one and the completion count of the last line that reports one, zero if none does, with their sum |
| Gemini.LastCountsReported | app/providers/gemini.py:296-300 | the two counts are each the last one reported, on whichever lines those are |
| Gemini.StreamFold | app/providers/gemini.py:261-365 | a client folds any stream to the text of all its parts and those counts |
| Gemini.StreamAgrees | app/providers/gemini.py:184-210 | when the last reported counts are the whole response's, text and counts agree under any cut, and the totals if and only if the whole reports none or their sum |
| Gemini.StreamedAndWholeChargeAlike | app/providers/gemini.py:355-365 | a Gemini answer moves the same money streamed and whole, and leaves the same logs too exactly under that condition |
| GeminiClient.AssembledStream | app/providers/gemini.py:261-365 | what a client assembles from any stream: the text, the calls in order under index 0, the finish of the last deciding part, the last counts |
| GeminiClient.FinishAgreesIff | app/providers/gemini.py:307-311 | streamed and whole finish reasons agree if and only if the last deciding part is a call when there are calls, else a text beside the whole's own STOP or MAX_TOKENS |
| GeminiClient.ClientAgrees | app/providers/gemini.py:149-210 | text and calls by name and arguments agree in order; calls are told apart by index if and only if there is at most one; finish reasons agree exactly as above |

## Left out

- Ledger.ConservedIffFresh: takes a deposit's sum as exact before the column rounds it, because `Decimal` is exact up to 28 significant digits; a deposit with more than 22 places is first rounded to those.
- Quota.DailyBound: is about checks that do not overlap; Quota.OverlapBound and Quota.RememberedBound are about those that do.
- PriceText.ConvertBound: covers plain decimals of at most six places below 2^51 units; exponents, signs, underscores and longer fractions that `float` also accepts are not modelled, and text it rejects counts as 0.
- Paywall.Middleware.Dispatch: leaves out the challenge's fields other than the amount, the encoding of headers and the facilitator's authentication headers.
- AnthropicRequest.TranslateRequest: leaves out temperature, top_p, tools and tool_choice, which are copied field by field.
- Redis outages: the limiters then let requests through or count the usage table, and no bound holds.
- The monthly counter: it takes the same steps as the daily one, but its 30-day expiry is not aligned to the month it is primed from; a request refused by it has already been counted by the daily counter.
- AnthropicStream.NoiseIsInert: takes parsed data to be an object, because the source raises on other JSON under an event name it handles, which ends the stream as a failure.
- The byte form of Anthropic and Gemini stream lines: lines carry an event name or a parsed payload.
- The embeddings endpoint: its metering is that of whole completions without content.
- Gemini's request translation: it appends messages without coalescing.
- The guards of API-key verification other than the balance: lookups over stored columns.
- Database failures other than a taken correlation id or an amount that does not fit.
- HTTP clients, authentication, discovery documents, MCP endpoints, data and on-chain proxies, analytics and health reports.
