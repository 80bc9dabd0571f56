/**
 The x402 paywall (app/middleware/x402.py:75-80 and 92-285): a method-agnostic price table and
 a verify, settle, forward sequence against an arbitrary facilitator. An unpaid request is
 challenged with status 402 (section 15.5.3 of RFC 9110).
 */
module Paywall {
  import opened Wrappers
  import opened PriceText

  // ----- the price table -----

  const FREE := "$0.00"
  const TENTH_OF_CENT := "$0.001"
  const HALF_CENT := "$0.005"

  datatype Route = Route(method_: string, path: string, price: string)

  const PREFIX := "/x402/"

  function X402(rest: string): string {
    PREFIX + "v1" + rest
  }

  /** The priced routes in the order they are listed. */
  const ROUTE_PRICING: seq<Route> := [
    Route("POST", X402("/chat/completions"), HALF_CENT),
    Route("POST", X402("/responses"), HALF_CENT),
    Route("POST", X402("/embeddings"), TENTH_OF_CENT),
    Route("GET", X402("/models"), FREE),
    Route("GET", X402("/data/base/balance"), TENTH_OF_CENT),
    Route("GET", X402("/data/base/token-balance"), TENTH_OF_CENT),
    Route("GET", X402("/data/base/nonce"), TENTH_OF_CENT),
    Route("GET", X402("/data/prices"), TENTH_OF_CENT),
    Route("GET", X402("/data/coins/search"), TENTH_OF_CENT),
    Route("GET", X402("/data/dex/search"), TENTH_OF_CENT),
    Route("GET", X402("/data/dex/pairs"), TENTH_OF_CENT)]

  function KeyOf(route: Route): string {
    route.method_ + " " + route.path
  }

  /** What follows the first space of a key, or the key itself when it has none. */
  function PathOf(key: string): string {
    if ' ' in key then Remainder(key) else key
  }

  function Remainder(key: string): string {
    if key == "" then "" else if key[0] == ' ' then key[1..] else Remainder(key[1..])
  }

  /** The path-only view: a comprehension in which a later entry replaces an earlier one of the same path. */
  function PathPricing(table: seq<Route>): map<string, string> {
    if table == [] then map[]
    else PathPricing(table[..|table| - 1])[PathOf(KeyOf(table[|table| - 1])) := table[|table| - 1].price]
  }

  lemma {:induction false} RemainderOfKey(method_: string, path: string)
    requires ' ' !in method_
    ensures Remainder(method_ + " " + path) == path
  {
    var key := method_ + " " + path;
    if method_ == "" {
      assert key[1..] == path;
    } else {
      assert key[0] == method_[0] && key[1..] == method_[1..] + " " + path;
      RemainderOfKey(method_[1..], path);
    }
  }

  lemma PathOfKey(route: Route)
    requires ' ' !in route.method_
    ensures PathOf(KeyOf(route)) == route.path
  {
    RemainderOfKey(route.method_, route.path);
    assert KeyOf(route)[|route.method_|] == ' ';
  }

  ghost predicate PlainMethods(table: seq<Route>) {
    forall i :: 0 <= i < |table| ==> ' ' !in table[i].method_
  }

  /** The last entry of a path. */
  function LastEntry(table: seq<Route>, path: string): (r: Option<nat>)
    ensures r.Some? ==> r.value < |table| && table[r.value].path == path
    ensures forall i :: (if r.Some? then r.value + 1 else 0) <= i < |table| ==> table[i].path != path
  {
    if table == [] then None
    else if table[|table| - 1].path == path then Some(|table| - 1)
    else LastEntry(table[..|table| - 1], path)
  }

  /** The view is exactly the paths of the table, each with the price of its last entry. */
  lemma {:induction false} ViewIsLastEntry(table: seq<Route>, path: string)
    requires PlainMethods(table)
    ensures path in PathPricing(table) <==> LastEntry(table, path).Some?
    ensures path in PathPricing(table) ==> PathPricing(table)[path] == table[LastEntry(table, path).value].price
  {
    if table == [] {
    } else {
      ViewIsLastEntry(table[..|table| - 1], path);
      PathOfKey(table[|table| - 1]);
    }
  }

  ghost predicate OnePricePerPath(table: seq<Route>) {
    forall i, j :: 0 <= i < j < |table| && table[i].path == table[j].path ==> table[i].price == table[j].price
  }

  ghost predicate ViewAgrees(table: seq<Route>) {
    forall i :: 0 <= i < |table| ==>
      table[i].path in PathPricing(table) && PathPricing(table)[table[i].path] == table[i].price
  }

  /** Matching by path alone charges every route its own price exactly when no path is listed with two prices. */
  lemma ViewAgreesIff(table: seq<Route>)
    requires PlainMethods(table)
    ensures ViewAgrees(table) <==> OnePricePerPath(table)
  {
    forall i | 0 <= i < |table| ensures table[i].path in PathPricing(table) {
      ViewIsLastEntry(table, table[i].path);
    }
    if OnePricePerPath(table) {
      forall i | 0 <= i < |table| ensures PathPricing(table)[table[i].path] == table[i].price {
        ViewIsLastEntry(table, table[i].path);
        var k := LastEntry(table, table[i].path).value;
        assert i == k || i < k;
      }
    }
  }

  lemma ListedRoute(i: nat)
    requires i < |ROUTE_PRICING|
    ensures ' ' !in ROUTE_PRICING[i].method_ && PREFIX <= ROUTE_PRICING[i].path
    ensures ROUTE_PRICING[i].price == FREE || ROUTE_PRICING[i].price == TENTH_OF_CENT
            || ROUTE_PRICING[i].price == HALF_CENT
  {
  }

  /** Routes of different prices differ in the length of their paths already. */
  lemma PricesApart(i: nat, j: nat)
    requires i < j < |ROUTE_PRICING| && ROUTE_PRICING[i].price != ROUTE_PRICING[j].price
    ensures |ROUTE_PRICING[i].path| != |ROUTE_PRICING[j].path|
  {
  }

  /**
   The listed table agrees with its path-only view, and every path in it lies behind the prefix
   the bearer bypass excludes.
   */
  lemma ListedTableAgrees()
    ensures PlainMethods(ROUTE_PRICING) && ViewAgrees(ROUTE_PRICING)
    ensures forall path :: path in PathPricing(ROUTE_PRICING) ==> PREFIX <= path
  {
    forall i | 0 <= i < |ROUTE_PRICING| ensures ' ' !in ROUTE_PRICING[i].method_ && PREFIX <= ROUTE_PRICING[i].path {
      ListedRoute(i);
    }
    forall i, j | 0 <= i < j < |ROUTE_PRICING| && ROUTE_PRICING[i].path == ROUTE_PRICING[j].path
      ensures ROUTE_PRICING[i].price == ROUTE_PRICING[j].price
    {
      if ROUTE_PRICING[i].price != ROUTE_PRICING[j].price {
        PricesApart(i, j);
      }
    }
    ViewAgreesIff(ROUTE_PRICING);
    forall path | path in PathPricing(ROUTE_PRICING) ensures PREFIX <= path {
      ViewIsLastEntry(ROUTE_PRICING, path);
    }
  }

  // ----- one request -----

  /** A payment header: absent, not decodable, or a decoded payload. */
  datatype Payment = NoPayment | Undecodable | Decoded

  datatype Request = Request(method_: string, path: string, bearer: bool, payment: Payment)

  /** The facilitator's answer to a call: no usable answer, or a status with the two flags the middleware looks at. */
  datatype Answer = NoAnswer | Answered(status: int, isValid: bool, success: bool)

  /**
   A challenge is a response with status 402 that names the amount; a receipt is the settlement's
   answer in a header of the response.
   */
  datatype Event =
    | Verify(amount: nat, answer: Answer)
    | Settle(amount: nat, answer: Answer)
    | Forward
    | Receipt(settle: Answer)
    | Challenge(amount: nat)
    | Respond(status: int)

  predicate Verified(answer: Answer) {
    answer.Answered? && answer.status == 200 && (answer.isValid || answer.success)
  }

  predicate Settled(answer: Answer) {
    answer.Answered? && answer.status == 200 && answer.success
  }

  /** A call that cannot be completed is a gateway error, a refusal asks for payment again. */
  function RefusalStatus(answer: Answer): int {
    if answer.NoAnswer? then 502 else 402
  }

  /** Requests the middleware asks a payment for. */
  predicate Charged(enabled: bool, prices: map<string, string>, r: Request) {
    && enabled
    && r.path in prices && prices[r.path] != FREE
    && !(r.bearer && !(PREFIX <= r.path))
  }

  /**
   What one request does, in order; `verify` and `settle` are the answers the facilitator would
   give and `quote` converts a price.
   */
  function Trace(enabled: bool, prices: map<string, string>, quote: string -> nat, r: Request, verify: Answer,
                 settle: Answer): seq<Event>
  {
    if !Charged(enabled, prices, r) then [Forward]
    else
      var amount := quote(prices[r.path]);
      match r.payment
      case NoPayment => [Challenge(amount)]
      case Undecodable => [Respond(400)]
      case Decoded =>
        if !Verified(verify) then [Verify(amount, verify), Respond(RefusalStatus(verify))]
        else if !Settled(settle) then [Verify(amount, verify), Settle(amount, settle), Respond(RefusalStatus(settle))]
        else [Verify(amount, verify), Settle(amount, settle), Forward, Receipt(settle)]
  }

  /**
   The whole outcome of one request. It is forwarded exactly when it is free, let through with a
   bearer token, or paid, that is, verified and settled; each event occurs at most once, and the last is one
   of forwarding with or without a receipt, the challenge, or the refusal its answers call for.
   */
  ghost predicate Outcome(events: seq<Event>, enabled: bool, prices: map<string, string>, quote: string -> nat,
                          r: Request, verify: Answer, settle: Answer) {
    var charged := enabled && r.path in prices && prices[r.path] != "$0.00" && (!r.bearer || "/x402/" <= r.path);
    var verified := verify.Answered? && verify.status == 200 && (verify.isValid || verify.success);
    var settled := settle.Answered? && settle.status == 200 && settle.success;
    && (Forward in events <==> !charged || (r.payment == Decoded && verified && settled))
    && (forall a :: Challenge(a) in events <==> charged && r.payment == NoPayment && a == quote(prices[r.path]))
    && (forall s :: Respond(s) in events <==> charged && RefusedWith(r.payment, verify, verified, settle, settled, s))
    && (forall a, v :: Verify(a, v) in events <==>
          charged && r.payment == Decoded && a == quote(prices[r.path]) && v == verify)
    && (forall a, v :: Settle(a, v) in events <==>
          charged && r.payment == Decoded && verified && a == quote(prices[r.path]) && v == settle)
    && (forall v :: Receipt(v) in events <==> charged && Forward in events && v == settle)
    && (forall i, j :: 0 <= i < j < |events| ==> events[i] != events[j])
    && EndsOnce(events)
  }

  /** A header that cannot be decoded, a call that cannot be completed, and a refusal. */
  predicate RefusedWith(payment: Payment, verify: Answer, verified: bool, settle: Answer, settled: bool, status: int) {
    match payment
    case NoPayment => false
    case Undecodable => status == 400
    case Decoded =>
      if verify.NoAnswer? then status == 502
      else if !verified then status == 402
      else if settle.NoAnswer? then status == 502
      else !settled && status == 402
  }

  /** Exactly one of the ways to end, and only a receipt after it. */
  ghost predicate EndsOnce(events: seq<Event>) {
    exists i ::
      && 0 <= i < |events| && Ends(events[i])
      && (forall j :: 0 <= j < i ==> events[j].Verify? || events[j].Settle?)
      && (forall j :: i < j < |events| ==> events[j].Receipt?)
  }

  predicate Ends(event: Event) {
    event.Forward? || event.Challenge? || event.Respond?
  }

  lemma TraceEnds(enabled: bool, prices: map<string, string>, quote: string -> nat, r: Request, verify: Answer,
                  settle: Answer)
    ensures EndsOnce(Trace(enabled, prices, quote, r, verify, settle))
  {
    var events := Trace(enabled, prices, quote, r, verify, settle);
    if !events[0].Verify? {
      assert Ends(events[0]);
    } else if !events[1].Settle? {
      assert Ends(events[1]);
    } else {
      assert Ends(events[2]);
    }
  }

  /** Every request, whatever its payment and the facilitator's answers, has that outcome. */
  lemma TraceOutcome(enabled: bool, prices: map<string, string>, quote: string -> nat, r: Request, verify: Answer,
                     settle: Answer)
    ensures Outcome(Trace(enabled, prices, quote, r, verify, settle), enabled, prices, quote, r, verify, settle)
  {
    TraceEnds(enabled, prices, quote, r, verify, settle);
    var events := Trace(enabled, prices, quote, r, verify, settle);
    if |events| == 1 {
      assert events == [events[0]];
    } else if |events| == 2 {
      assert events == [events[0], events[1]];
    } else if |events| == 3 {
      assert events == [events[0], events[1], events[2]];
    } else {
      assert events == [events[0], events[1], events[2], events[3]];
    }
  }

  /** An event of some request; requests are served concurrently. */
  datatype Tagged = Tagged(id: nat, event: Event)

  function Tag(id: nat, events: seq<Event>): seq<Tagged> {
    seq(|events|, i requires 0 <= i < |events| => Tagged(id, events[i]))
  }

  class Middleware {
    const enabled: bool
    const prices: map<string, string>
    const quote: string -> nat
    var log: seq<Tagged>

    /** The dispatch of the source, logging each effect as it happens. */
    method Dispatch(id: nat, r: Request, verify: Answer, settle: Answer)
      modifies this
      ensures log == old(log) + Tag(id, Trace(enabled, prices, quote, r, verify, settle))
    {
      if !enabled || r.path !in prices || prices[r.path] == FREE {
        Emit(id, Forward);
        return;
      }
      if r.bearer && !(PREFIX <= r.path) {
        Emit(id, Forward);
        return;
      }
      var amount := quote(prices[r.path]);
      if r.payment == NoPayment {
        Emit(id, Challenge(amount));
        return;
      }
      if r.payment == Undecodable {
        Emit(id, Respond(400));
        return;
      }
      Emit(id, Verify(amount, verify));
      if verify.NoAnswer? {
        Emit(id, Respond(502));
        return;
      }
      if verify.status != 200 || !(verify.isValid || verify.success) {
        Emit(id, Respond(402));
        return;
      }
      Emit(id, Settle(amount, settle));
      if settle.NoAnswer? {
        Emit(id, Respond(502));
        return;
      }
      if settle.status != 200 || !settle.success {
        Emit(id, Respond(402));
        return;
      }
      Emit(id, Forward);
      Emit(id, Receipt(settle));
    }

    method Emit(id: nat, event: Event)
      modifies this
      ensures log == old(log) + [Tagged(id, event)]
    {
      log := log + [Tagged(id, event)];
    }
  }

  // ----- every interleaving of requests -----

  /** The events of one request in an interleaved log. */
  function Project(log: seq<Tagged>, id: nat): seq<Event> {
    if log == [] then []
    else
      var last := log[|log| - 1];
      Project(log[..|log| - 1], id) + if last.id == id then [last.event] else []
  }

  lemma ProjectSnoc(log: seq<Tagged>, last: Tagged, id: nat)
    ensures Project(log + [last], id) == Project(log, id) + if last.id == id then [last.event] else []
  {
    assert (log + [last])[..|log|] == log;
  }

  /** What one dispatch adds, seen under its own id and under any other. */
  lemma {:induction false} TagProjects(log: seq<Tagged>, id: nat, events: seq<Event>, other: nat)
    ensures Project(log + Tag(id, events), other) == Project(log, other) + if other == id then events else []
    decreases |events|
  {
    if events == [] {
      assert log + Tag(id, events) == log;
    } else {
      var rest, last := events[..|events| - 1], events[|events| - 1];
      TagProjects(log, id, rest, other);
      ProjectSnoc(log + Tag(id, rest), Tagged(id, last), other);
      assert log + Tag(id, events) == log + Tag(id, rest) + [Tagged(id, last)];
      assert events == rest + [last];
    }
  }

  /** After its dispatch a request that had done nothing before has its outcome, and no other request has moved. */
  lemma DispatchedOutcome(before: seq<Tagged>, after: seq<Tagged>, id: nat, enabled: bool, prices: map<string, string>,
                          quote: string -> nat, r: Request, verify: Answer, settle: Answer)
    requires Project(before, id) == []
    requires after == before + Tag(id, Trace(enabled, prices, quote, r, verify, settle))
    ensures Outcome(Project(after, id), enabled, prices, quote, r, verify, settle)
    ensures forall other :: other != id ==> Project(after, other) == Project(before, other)
  {
    var events := Trace(enabled, prices, quote, r, verify, settle);
    TagProjects(before, id, events, id);
    TraceOutcome(enabled, prices, quote, r, verify, settle);
    assert [] + events == events;
    forall other | other != id ensures Project(after, other) == Project(before, other) {
      TagProjects(before, id, events, other);
    }
  }

  /**
   In a log whose events for `id` run along `trace`, everything that precedes an event in the
   trace has happened before it.
   */
  lemma {:induction false} EarlierEventsHappened(log: seq<Tagged>, id: nat, trace: seq<Event>, n: nat)
    requires Project(log, id) <= trace && n < |Project(log, id)|
    ensures exists i :: 0 <= i < |log| && log[i] == Tagged(id, trace[n])
                        && Project(log[..i], id) == trace[..n]
  {
    var rest, last := log[..|log| - 1], log[|log| - 1];
    if last.id == id && n == |Project(log, id)| - 1 {
      assert log[|log| - 1] == Tagged(id, trace[n]) && Project(log[..|log| - 1], id) == trace[..n];
    } else {
      EarlierEventsHappened(rest, id, trace, n);
      var i :| 0 <= i < |rest| && rest[i] == Tagged(id, trace[n]) && Project(rest[..i], id) == trace[..n];
      assert log[i] == rest[i] && log[..i] == rest[..i];
    }
  }

  lemma ProjectAt(log: seq<Tagged>, i: nat)
    requires i < |log|
    ensures Project(log[..i + 1], log[i].id) == Project(log[..i], log[i].id) + [log[i].event]
  {
    assert log[..i + 1][..i] == log[..i];
  }

  lemma {:induction false} ProjectPrefix(log: seq<Tagged>, id: nat, i: nat)
    requires i <= |log|
    ensures Project(log[..i], id) <= Project(log, id)
  {
    if i < |log| {
      ProjectPrefix(log[..|log| - 1], id, i);
      assert log[..|log| - 1][..i] == log[..i];
    } else {
      assert log[..i] == log;
    }
  }

  /** In `log`, request `id` has done a prefix of what `Trace` says. */
  ghost predicate Follows(log: seq<Tagged>, id: nat, enabled: bool, prices: map<string, string>,
                          quote: string -> nat, r: Request, verify: Answer, settle: Answer)
  {
    Project(log, id) <= Trace(enabled, prices, quote, r, verify, settle)
  }

  ghost predicate Happened(log: seq<Tagged>, id: nat, event: Event) {
    exists i :: 0 <= i < |log| && log[i] == Tagged(id, event)
  }

  /** The event at `i` is the next of its trace. */
  lemma NextOfTrace(log: seq<Tagged>, id: nat, i: nat, trace: seq<Event>)
    requires i < |log| && log[i].id == id && Project(log, id) <= trace
    ensures Project(log[..i], id) <= trace && |Project(log[..i], id)| < |trace|
    ensures trace[|Project(log[..i], id)|] == log[i].event
  {
    ProjectPrefix(log, id, i + 1);
    ProjectAt(log, i);
    var done := Project(log[..i], id);
    assert done + [log[i].event] <= trace;
    assert (done + [log[i].event])[|done|] == log[i].event;
  }

  /**
   However requests interleave and whatever the facilitator answers: a charged request is forwarded
   only after one verification and then one settlement succeeded, both for its path's amount, and
   is settled only after a successful verification. The challenge asks for that amount, and only a
   forwarded request gets a receipt.
   */
  lemma PaymentPrecedesForward(log: seq<Tagged>, id: nat, i: nat, enabled: bool, prices: map<string, string>,
                               quote: string -> nat, r: Request, verify: Answer, settle: Answer)
    requires Charged(enabled, prices, r) && Follows(log, id, enabled, prices, quote, r, verify, settle)
    requires i < |log| && log[i].id == id
    ensures var amount := quote(prices[r.path]);
            && (log[i].event == Forward ==>
                  && Verified(verify) && Settled(settle)
                  && Project(log[..i], id) == [Verify(amount, verify), Settle(amount, settle)]
                  && (exists j ::
                        && 0 <= j < i && log[j] == Tagged(id, Settle(amount, settle))
                        && Happened(log[..j], id, Verify(amount, verify))))
            && (log[i].event.Settle? ==>
                  && Verified(verify) && log[i].event.amount == amount
                  && Project(log[..i], id) == [Verify(amount, verify)]
                  && Happened(log[..i], id, Verify(amount, verify)))
            && (log[i].event.Challenge? ==> log[i].event == Challenge(amount))
            && (log[i].event.Receipt? ==> log[i].event == Receipt(settle) && Happened(log[..i], id, Forward))
  {
    var trace := Trace(enabled, prices, quote, r, verify, settle);
    var amount := quote(prices[r.path]);
    NextOfTrace(log, id, i, trace);
    var done := Project(log[..i], id);
    if log[i].event == Forward {
      assert |done| == 2;
      assert done == [Verify(amount, verify), Settle(amount, settle)];
      EarlierEventsHappened(log[..i], id, trace, 1);
      var j :| 0 <= j < i && log[..i][j] == Tagged(id, trace[1]) && Project(log[..i][..j], id) == trace[..1];
      assert log[..i][..j] == log[..j];
      EarlierEventsHappened(log[..j], id, trace, 0);
    } else if log[i].event.Settle? {
      assert |done| == 1;
      assert done == [Verify(amount, verify)];
      EarlierEventsHappened(log[..i], id, trace, 0);
    } else if log[i].event.Receipt? {
      assert |done| == 3;
      EarlierEventsHappened(log[..i], id, trace, 2);
    }
  }

  /**
   On the listed table every non-free path is charged, whatever the method and headers, and at
   exactly its listed price.
   */
  lemma ListedPathsAreCharged(r: Request, i: nat)
    requires i < |ROUTE_PRICING| && r.path == ROUTE_PRICING[i].path && ROUTE_PRICING[i].price != FREE
    ensures Charged(true, PathPricing(ROUTE_PRICING), r)
    ensures PathPricing(ROUTE_PRICING)[r.path] == ROUTE_PRICING[i].price
    ensures UnitsOf(ROUTE_PRICING[i].price) == Some(Convert(ROUTE_PRICING[i].price))
            && Convert(ROUTE_PRICING[i].price) > 0
  {
    ListedTableAgrees();
    ListedRoute(i);
    ListedTexts(ROUTE_PRICING[i].price);
  }

  /**
   What the listed paths cost in millionths of a dollar, whatever the method and bearer token:
   5000 for a completion or a response, nothing for the model list, 1000 for everything else.
   */
  lemma ListedAmounts(r: Request, i: nat)
    requires i < |ROUTE_PRICING| && r.path == ROUTE_PRICING[i].path
    ensures if i == 3 then !Charged(true, PathPricing(ROUTE_PRICING), r) else Costs(r, if i < 2 then 5_000 else 1_000)
  {
    ListedTableAgrees();
    assert ROUTE_PRICING[i].price == if i == 3 then FREE else if i < 2 then HALF_CENT else TENTH_OF_CENT;
    if i != 3 {
      ListedPathsAreCharged(r, i);
      ListedTexts(ROUTE_PRICING[i].price);
    }
  }

  predicate Costs(r: Request, micros: nat) {
    && Charged(true, PathPricing(ROUTE_PRICING), r)
    && Convert(PathPricing(ROUTE_PRICING)[r.path]) == micros
  }

  /**
   End to end: a request on a listed path is forwarded only after the millionths of a dollar
   written in the table were verified, then settled.
   */
  lemma ListedPathIsPaid(log: seq<Tagged>, id: nat, i: nat, r: Request, verify: Answer, settle: Answer, k: nat)
    requires k < |ROUTE_PRICING| && r.path == ROUTE_PRICING[k].path && ROUTE_PRICING[k].price != FREE
    requires Follows(log, id, true, PathPricing(ROUTE_PRICING), Convert, r, verify, settle)
    requires i < |log| && log[i] == Tagged(id, Forward)
    ensures var units := UnitsOf(ROUTE_PRICING[k].price);
            units.Some? && Project(log[..i], id) == [Verify(units.value, verify), Settle(units.value, settle)]
    ensures Verified(verify) && Settled(settle)
  {
    ListedPathsAreCharged(r, k);
    PaymentPrecedesForward(log, id, i, true, PathPricing(ROUTE_PRICING), Convert, r, verify, settle);
  }
}
