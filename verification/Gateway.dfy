/**
 Whole lives of requests on one database: signups, deposits, admissions, and streams and whole
 completions that end in any order and record their usage a database step at a time, as the
 wrapper and the handler do (app/api/v1/completions.py:41-106 and 160-225). Steps of different
 requests and deposits interleave freely. Each event is one step of the ledger's machine or
 none, so everything proved of that machine holds of the gateway.
 */
module Gateway {
  import opened Wrappers
  import opened Cost
  import opened Ledger
  import opened Metering
  import opened Completions
  import opened Overdraft
  import opened Revenue

  datatype World = World(prices: map<string, Price>, count: Counter)

  // ----- what a request records, as attempts -----

  function Bill(w: World, call: Call, model: string, usage: Usage, status: int): seq<UsageLog> {
    if call.correlation.None? then [] else [LogFor(w.prices, call.correlation.value, call.org, model, usage, status)]
  }

  /** The records the wrapper attempts, each only when those before it fail. */
  function StreamBills(w: World, call: Call, upstream: Upstream, pulls: nat): seq<UsageLog> {
    var failure := Bill(w, call, call.routed, Usage(call.promptEstimate, 0), 500);
    if pulls < PullsToMeter(upstream) then []
    else if upstream.failed then failure
    else Bill(w, call, call.routed, UsageOf(call, upstream.chunks, w.count), 200) + failure
  }

  function WholeBills(w: World, call: Call, routed: Routed): seq<UsageLog> {
    match routed
    case Completed(response) => Bill(w, call, call.routed,
                                     Usage(response.usage.promptTokens, response.usage.completionTokens), 200)
    case HttpFailure(status) => Bill(w, call, call.requested, Usage(call.promptEstimate, 0), status)
    case OtherFailure => Bill(w, call, call.requested, Usage(call.promptEstimate, 0), 500)
  }

  /** The outcome of attempts that nothing interrupts. */
  function FirstRecorded(t: Tables, bills: seq<UsageLog>): Option<Tables> {
    if bills == [] then None
    else if AfterRecord(t, bills[0]).Some? then AfterRecord(t, bills[0])
    else FirstRecorded(t, bills[1..])
  }

  lemma OneBill(t: Tables, bill: UsageLog)
    ensures FirstRecorded(t, [bill]) == AfterRecord(t, bill)
  {
    assert [bill][1..] == [];
  }

  lemma StreamRecords(t: Tables, w: World, call: Call, upstream: Upstream, pulls: nat)
    ensures StreamedTables(t, w.prices, call, upstream, pulls, w.count)
            == FirstRecorded(t, StreamBills(w, call, upstream, pulls)).GetOr(t)
  {
    if call.correlation.Some? {
      var failure := LogFor(w.prices, call.correlation.value, call.org, call.routed,
                            Usage(call.promptEstimate, 0), 500);
      var success := LogFor(w.prices, call.correlation.value, call.org, call.routed,
                            UsageOf(call, upstream.chunks, w.count), 200);
      OneBill(t, failure);
      assert ([success] + [failure])[1..] == [failure];
    }
  }

  lemma WholeRecords(t: Tables, w: World, call: Call, routed: Routed)
    ensures HandledTables(t, w.prices, call, routed) == FirstRecorded(t, WholeBills(w, call, routed)).GetOr(t)
  {
    var bills := WholeBills(w, call, routed);
    if bills != [] {
      OneBill(t, bills[0]);
      assert bills == [bills[0]];
    }
  }

  // ----- the gateway -----

  /**
   An ended request hands over its bills, and each `Advance` is its next database step: take the
   lock, commit, or close. Whoever leaves, at whatever step, has the transaction rolled back and
   the lock released. A deposit reads and writes in two events.
   */
  datatype Event =
    | Signup(org: OrgId)
    | Begin(id: SessionId, org: OrgId)
    | EndStream(id: SessionId, call: Call, upstream: Upstream, pulls: nat)
    | EndWhole(id: SessionId, call: Call, routed: Routed)
    | Advance(id: SessionId)
    | Leave(id: SessionId)
    | ReadTopUp(id: SessionId, org: OrgId, amount: Amount)
    | WriteTopUp(id: SessionId)

  /** The ledger's state, and the bills still to be attempted by requests that have ended. */
  datatype Gateway = Gateway(ledger: State, tasks: map<SessionId, seq<UsageLog>>)

  const CLOSED := Gateway(EMPTY, map[])

  predicate Ends(g: Gateway, id: SessionId, call: Call) {
    id in g.ledger.sessions && g.ledger.sessions[id] == Serving(call.org) && id !in g.tasks
  }

  /** The next database step of a request: its first bill is locked for and committed, or committed at once. */
  function NextAttempt(g: Gateway, id: SessionId): Step {
    if id !in g.tasks || id !in g.ledger.sessions then Idle
    else if g.tasks[id] == [] then Abandon(id)
    else if g.ledger.sessions[id].Charging? then CommitCharge(id)
    else if Chargeable(g.tasks[id][0]) then LockRow(id, g.tasks[id][0])
    else CommitLog(id, g.tasks[id][0])
  }

  function StepOf(g: Gateway, e: Event): Step {
    match e
    case Signup(org) => Register(org)
    case Begin(id, org) => Admit(id, org)
    case Advance(id) => NextAttempt(g, id)
    case Leave(id) => Abandon(id)
    case ReadTopUp(id, org, amount) => ReadDeposit(id, org, amount)
    case WriteTopUp(id) => WriteDeposit(id)
    case _ => Idle
  }

  /** A request is done once its session is closed; a failed commit leaves it the next bill. */
  function TasksAfter(g: Gateway, after: State, e: Event, w: World): map<SessionId, seq<UsageLog>> {
    match e
    case EndStream(id, call, upstream, pulls) =>
      if Ends(g, id, call) then g.tasks[id := StreamBills(w, call, upstream, pulls)] else g.tasks
    case EndWhole(id, call, routed) =>
      if Ends(g, id, call) then g.tasks[id := WholeBills(w, call, routed)] else g.tasks
    case Advance(id) =>
      if id !in after.sessions then g.tasks - {id}
      else if NextAttempt(g, id).CommitCharge? || NextAttempt(g, id).CommitLog? then g.tasks[id := g.tasks[id][1..]]
      else g.tasks
    case Leave(id) => g.tasks - {id}
    case _ => g.tasks
  }

  function Serve(g: Gateway, e: Event, w: World): Gateway {
    var after := Next(g.ledger, StepOf(g, e));
    Gateway(after, TasksAfter(g, after, e, w))
  }

  function ServeAll(events: seq<Event>, w: World): Gateway {
    if events == [] then CLOSED
    else Serve(ServeAll(events[..|events| - 1], w), events[|events| - 1], w)
  }

  function StepsOf(events: seq<Event>, w: World): seq<Step> {
    if events == [] then []
    else
      var earlier := events[..|events| - 1];
      StepsOf(earlier, w) + [StepOf(ServeAll(earlier, w), events[|events| - 1])]
  }

  /** What the gateway does to the database is a run of the ledger's machine, one step an event. */
  lemma {:induction false} ServingIsRun(events: seq<Event>, w: World)
    ensures Run(StepsOf(events, w)) == ServeAll(events, w).ledger && |StepsOf(events, w)| == |events|
  {
    if events == [] {
    } else {
      var earlier := events[..|events| - 1];
      ServingIsRun(earlier, w);
      RunExtend(StepsOf(earlier, w), StepOf(ServeAll(earlier, w), events[|events| - 1]));
    }
  }

  // ----- a request alone, and in company -----

  predicate OnOrg(bills: seq<UsageLog>, org: OrgId) {
    forall i :: 0 <= i < |bills| ==> bills[i].org == org
  }

  /** A request's session holds the lock only for its first bill, and its bills are on its account. */
  predicate TaskSound(session: Session, bills: seq<UsageLog>) {
    match session
    case Serving(org) => OnOrg(bills, org)
    case Charging(log, _) => bills != [] && bills[0] == log && OnOrg(bills, log.org)
    case Depositing(_, _, _) => false
  }

  ghost predicate TasksSound(g: Gateway) {
    && (forall id :: id in g.tasks ==> id in g.ledger.sessions && TaskSound(g.ledger.sessions[id], g.tasks[id]))
    && (forall id :: id in g.ledger.sessions && g.ledger.sessions[id].Charging? ==> id in g.tasks)
  }

  /** An event leaves the sessions and tasks of others alone. */
  lemma OthersUntouched(g: Gateway, e: Event, w: World, id: SessionId)
    requires e.Signup? || e.id != id
    ensures var h := Serve(g, e, w);
            && (id in h.tasks <==> id in g.tasks) && (id in g.tasks ==> h.tasks[id] == g.tasks[id])
            && (id in h.ledger.sessions <==> id in g.ledger.sessions)
            && (id in g.ledger.sessions ==> h.ledger.sessions[id] == g.ledger.sessions[id])
  {
  }

  lemma AdvanceKeepsTask(g: Gateway, id: SessionId, w: World)
    requires TasksSound(g)
    ensures var h := Serve(g, Advance(id), w);
            && (id in h.tasks ==> id in h.ledger.sessions && TaskSound(h.ledger.sessions[id], h.tasks[id]))
            && (id in h.ledger.sessions && h.ledger.sessions[id].Charging? ==> id in h.tasks)
  {
  }

  lemma EventKeepsTask(g: Gateway, e: Event, w: World)
    requires TasksSound(g) && !e.Signup? && !e.Advance?
    ensures var h := Serve(g, e, w);
            && (e.id in h.tasks ==> e.id in h.ledger.sessions && TaskSound(h.ledger.sessions[e.id], h.tasks[e.id]))
            && (e.id in h.ledger.sessions && h.ledger.sessions[e.id].Charging? ==> e.id in h.tasks)
  {
  }

  lemma ServeKeepsTasks(g: Gateway, e: Event, w: World)
    requires TasksSound(g)
    ensures TasksSound(Serve(g, e, w))
  {
    if e.Advance? {
      AdvanceKeepsTask(g, e.id, w);
    } else if !e.Signup? {
      EventKeepsTask(g, e, w);
    }
    forall id | e.Signup? || e.id != id
      ensures var h := Serve(g, e, w);
              && (id in h.tasks ==> id in h.ledger.sessions && TaskSound(h.ledger.sessions[id], h.tasks[id]))
              && (id in h.ledger.sessions && h.ledger.sessions[id].Charging? ==> id in h.tasks)
    {
      OthersUntouched(g, e, w, id);
    }
  }

  lemma {:induction false} ServingKeepsTasks(events: seq<Event>, w: World)
    ensures TasksSound(ServeAll(events, w))
  {
    if events == [] {
    } else {
      var earlier := events[..|events| - 1];
      ServingKeepsTasks(earlier, w);
      ServeKeepsTasks(ServeAll(earlier, w), events[|events| - 1], w);
    }
  }

  lemma OneLog(g: Gateway, id: SessionId, w: World)
    requires TasksSound(g)
    ensures var h := Serve(g, Advance(id), w);
            h.ledger.tables.logs != g.ledger.tables.logs ==>
              && id in g.tasks && g.tasks[id] != []
              && h.ledger.tables.logs == g.ledger.tables.logs + [g.tasks[id][0]]
              && id !in h.tasks && id !in h.ledger.sessions
  {
  }

  /**
   In any company: a log appears only when a request commits the first of its remaining bills,
   and the request is then over, so that it logs at most once.
   */
  lemma OneLogPerRequest(events: seq<Event>, e: Event, w: World)
    ensures var g := ServeAll(events, w);
            var h := Serve(g, e, w);
            h.ledger.tables.logs != g.ledger.tables.logs ==>
              && e.Advance? && e.id in g.tasks && g.tasks[e.id] != []
              && h.ledger.tables.logs == g.ledger.tables.logs + [g.tasks[e.id][0]]
              && e.id !in h.tasks && e.id !in h.ledger.sessions
  {
    ServingKeepsTasks(events, w);
    if e.Advance? {
      OneLog(ServeAll(events, w), e.id, w);
    }
  }

  function AdvanceTimes(g: Gateway, id: SessionId, w: World, n: nat): Gateway
    decreases n
  {
    if n == 0 then g else AdvanceTimes(Serve(g, Advance(id), w), id, w, n - 1)
  }

  lemma {:induction false} DoneStaysDone(g: Gateway, id: SessionId, w: World, n: nat)
    requires id !in g.tasks && id !in g.ledger.sessions
    ensures AdvanceTimes(g, id, w, n) == g
    decreases n
  {
    if n == 0 {
    } else {
      assert g.tasks - {id} == g.tasks;
      DoneStaysDone(g, id, w, n - 1);
    }
  }

  /** One attempt takes at most two advances: it closes the session, or leaves everything but the bill. */
  lemma OneAttempt(g: Gateway, id: SessionId, org: OrgId, w: World)
    requires Inv(g.ledger) && id in g.tasks && g.tasks[id] != [] && OnOrg(g.tasks[id], org)
    requires id in g.ledger.sessions && g.ledger.sessions[id] == Serving(org) && !RowLocked(g.ledger, org)
    ensures var s, bill := g.ledger, g.tasks[id][0];
            AdvanceTimes(g, id, w, if Chargeable(bill) then 2 else 1)
            == match AfterRecord(s.tables, bill)
               case Some(tables) => Gateway(State(tables, s.sessions - {id}), g.tasks - {id})
               case None => g.(tasks := g.tasks[id := g.tasks[id][1..]])
  {
    var s, bill := g.ledger, g.tasks[id][0];
    RecordIsSteps(s, id, bill);
    if Chargeable(bill) {
      var locked := Serve(g, Advance(id), w);
      assert locked.ledger == Next(s, LockRow(id, bill)) && locked.tasks == g.tasks;
      assert id in locked.ledger.sessions && locked.ledger.sessions[id].Charging?;
      assert AdvanceTimes(g, id, w, 2) == AdvanceTimes(locked, id, w, 1) == Serve(locked, Advance(id), w);
    } else {
      assert AdvanceTimes(g, id, w, 1) == Serve(g, Advance(id), w);
    }
  }

  lemma {:induction false} AdvanceSum(g: Gateway, id: SessionId, w: World, m: nat, n: nat)
    ensures AdvanceTimes(g, id, w, m + n) == AdvanceTimes(AdvanceTimes(g, id, w, m), id, w, n)
    decreases m
  {
    if m == 0 {
    } else {
      AdvanceSum(Serve(g, Advance(id), w), id, w, m - 1, n);
    }
  }

  /** The database steps a request may take. */
  function StepsNeeded(bills: seq<UsageLog>): nat {
    2 * |bills| + 1
  }

  /** The gateway after a request is over with `tables` left. */
  function Closed(g: Gateway, id: SessionId, tables: Tables): Gateway {
    Gateway(State(tables, g.ledger.sessions - {id}), g.tasks - {id})
  }

  function Outcome(g: Gateway, id: SessionId, bills: seq<UsageLog>): Gateway {
    Closed(g, id, FirstRecorded(g.ledger.tables, bills).GetOr(g.ledger.tables))
  }

  /** A bill that cannot be recorded only shortens what is left to attempt. */
  lemma SkippedBill(g: Gateway, id: SessionId, bills: seq<UsageLog>)
    requires bills != [] && AfterRecord(g.ledger.tables, bills[0]).None?
    ensures Outcome(g.(tasks := g.tasks[id := bills[1..]]), id, bills[1..]) == Outcome(g, id, bills)
  {
    assert g.tasks[id := bills[1..]] - {id} == g.tasks - {id};
  }

  lemma NoBillsLeft(g: Gateway, id: SessionId, w: World, n: nat)
    requires id in g.tasks && g.tasks[id] == [] && id in g.ledger.sessions && n > 0
    ensures AdvanceTimes(g, id, w, n) == Outcome(g, id, [])
  {
    DoneStaysDone(Serve(g, Advance(id), w), id, w, n - 1);
  }

  lemma BillRecorded(g: Gateway, id: SessionId, org: OrgId, w: World, k: nat, n: nat)
    requires Inv(g.ledger) && id in g.tasks && g.tasks[id] != [] && OnOrg(g.tasks[id], org)
    requires id in g.ledger.sessions && g.ledger.sessions[id] == Serving(org) && !RowLocked(g.ledger, org)
    requires AfterRecord(g.ledger.tables, g.tasks[id][0]).Some?
             && k == (if Chargeable(g.tasks[id][0]) then 2 else 1) <= n
    ensures AdvanceTimes(g, id, w, n) == Outcome(g, id, g.tasks[id])
  {
    OneAttempt(g, id, org, w);
    AdvanceSum(g, id, w, k, n - k);
    DoneStaysDone(AdvanceTimes(g, id, w, k), id, w, n - k);
  }

  /**
   A request that nobody interrupts, whoever else is admitted, depositing or charging elsewhere,
   records the first bill that commits and closes.
   */
  lemma {:induction false} AloneRecordsFirst(g: Gateway, id: SessionId, org: OrgId, w: World, n: nat)
    requires Inv(g.ledger) && id in g.tasks && OnOrg(g.tasks[id], org) && n >= StepsNeeded(g.tasks[id])
    requires id in g.ledger.sessions && g.ledger.sessions[id] == Serving(org) && !RowLocked(g.ledger, org)
    ensures AdvanceTimes(g, id, w, n) == Outcome(g, id, g.tasks[id])
    decreases |g.tasks[id]|
  {
    if g.tasks[id] == [] {
      NoBillsLeft(g, id, w, n);
    } else {
      var k := if Chargeable(g.tasks[id][0]) then 2 else 1;
      if AfterRecord(g.ledger.tables, g.tasks[id][0]).Some? {
        BillRecorded(g, id, org, w, k, n);
      } else {
        OneAttempt(g, id, org, w);
        AdvanceSum(g, id, w, k, n - k);
        SkippedBill(g, id, g.tasks[id]);
        AloneRecordsFirst(g.(tasks := g.tasks[id := g.tasks[id][1..]]), id, org, w, n - k);
      }
    }
  }

  /**
   Uninterrupted, a stream's end leaves the tables the wrapper leaves, and a whole completion's
   those of the handler.
   */
  lemma AloneIsWrapper(g: Gateway, id: SessionId, call: Call, upstream: Upstream, pulls: nat, w: World, n: nat)
    requires Inv(g.ledger) && Ends(g, id, call) && !RowLocked(g.ledger, call.org) && n >= 5
    ensures AdvanceTimes(Serve(g, EndStream(id, call, upstream, pulls), w), id, w, n).ledger.tables
         == StreamedTables(g.ledger.tables, w.prices, call, upstream, pulls, w.count)
  {
    AloneRecordsFirst(Serve(g, EndStream(id, call, upstream, pulls), w), id, call.org, w, n);
    StreamRecords(g.ledger.tables, w, call, upstream, pulls);
  }

  lemma AloneIsHandler(g: Gateway, id: SessionId, call: Call, routed: Routed, w: World, n: nat)
    requires Inv(g.ledger) && Ends(g, id, call) && !RowLocked(g.ledger, call.org) && n >= 3
    ensures AdvanceTimes(Serve(g, EndWhole(id, call, routed), w), id, w, n).ledger.tables
         == HandledTables(g.ledger.tables, w.prices, call, routed)
  {
    AloneRecordsFirst(Serve(g, EndWhole(id, call, routed), w), id, call.org, w, n);
    WholeRecords(g.ledger.tables, w, call, routed);
  }

  // ----- the books -----

  /** Every deposit write of the history meets the guard of a sound one. */
  ghost predicate FreshService(events: seq<Event>, w: World) {
    forall k :: 0 <= k < |events| ==>
      FreshWrite(ServeAll(events[..k], w).ledger, StepOf(ServeAll(events[..k], w), events[k]))
  }

  lemma {:induction false} StepsOfPrefix(events: seq<Event>, w: World, k: nat)
    requires k <= |events|
    ensures |StepsOf(events, w)| == |events| && StepsOf(events, w)[..k] == StepsOf(events[..k], w)
  {
    ServingIsRun(events, w);
    if k == |events| {
      assert events[..k] == events;
    } else {
      var earlier := events[..|events| - 1];
      StepsOfPrefix(earlier, w, k);
      assert earlier[..k] == events[..k];
    }
  }

  /** Histories and their runs go in step. */
  lemma InStep(events: seq<Event>, w: World, k: nat)
    requires k <= |events|
    ensures |StepsOf(events, w)| == |events| && Run(StepsOf(events, w)[..k]) == ServeAll(events[..k], w).ledger
    ensures k < |events| ==> StepsOf(events, w)[k] == StepOf(ServeAll(events[..k], w), events[k])
  {
    StepsOfPrefix(events, w, k);
    ServingIsRun(events[..k], w);
    if k < |events| {
      StepsOfPrefix(events, w, k + 1);
      assert events[..k + 1][..k] == events[..k];
      assert StepsOf(events, w)[k] == StepsOf(events[..k + 1], w)[k];
    }
  }

  lemma AllInStep(events: seq<Event>, w: World, steps: seq<Step>)
    requires steps == StepsOf(events, w)
    ensures |steps| == |events|
    ensures forall k :: 0 <= k <= |events| ==> Run(steps[..k]) == ServeAll(events[..k], w).ledger
    ensures forall k :: 0 <= k < |events| ==> steps[k] == StepOf(ServeAll(events[..k], w), events[k])
  {
    ServingIsRun(events, w);
    forall k | 0 <= k <= |events|
      ensures Run(steps[..k]) == ServeAll(events[..k], w).ledger
      ensures k < |events| ==> steps[k] == StepOf(ServeAll(events[..k], w), events[k])
    {
      InStep(events, w, k);
    }
  }

  lemma FreshServiceIsFreshRun(events: seq<Event>, w: World, steps: seq<Step>)
    requires steps == StepsOf(events, w)
    ensures FreshService(events, w) <==> FreshRun(steps)
  {
    AllInStep(events, w, steps);
  }

  /**
   Whatever requests come, overlap, interleave, fail, repeat their ids or leave early: no id is
   logged twice, the charges are the costs of the successful logs one for one, and a balance is
   its ledger plus what deposits missed.
   */
  lemma BooksBalance(events: seq<Event>, w: World, org: OrgId)
    ensures var t := ServeAll(events, w).ledger.tables;
            && CorrelationsUnique(t.logs)
            && ChargesOn(t.transactions, org) == ChargesDue(t.logs, org)
            && Drift(t, org) == TotalMiss(StepsOf(events, w), org)
  {
    var steps := StepsOf(events, w);
    ServingIsRun(events, w);
    RunKeepsInv(steps);
    ChargesMatchLogs(steps, org);
    DriftIsMissed(steps, org);
  }

  /** Every balance equals its ledger throughout a history exactly when its deposit writes are fresh. */
  lemma BalancedIffFresh(events: seq<Event>, w: World, steps: seq<Step>)
    requires steps == StepsOf(events, w)
    ensures FreshService(events, w)
       <==> forall k :: 0 <= k <= |events| ==> Conserved(ServeAll(events[..k], w).ledger.tables)
  {
    FreshServiceIsFreshRun(events, w, steps);
    ConservedIffFresh(steps);
    AllInStep(events, w, steps);
  }

  /** So does the revenue report. */
  lemma ReportsIffFresh(events: seq<Event>, w: World, steps: seq<Step>)
    requires steps == StepsOf(events, w)
    ensures FreshService(events, w)
       <==> forall k :: 0 <= k <= |events| ==> ReportBalances(ServeAll(events[..k], w).ledger.tables)
  {
    FreshServiceIsFreshRun(events, w, steps);
    ReportBalancesIffFresh(steps);
    AllInStep(events, w, steps);
  }

  // ----- how far a balance falls -----

  predicate CheapBills(bills: seq<UsageLog>, maxCost: nat) {
    forall i :: 0 <= i < |bills| ==> bills[i].cost <= maxCost
  }

  predicate CheapEvent(e: Event, w: World, maxCost: nat) {
    match e
    case EndStream(_, call, upstream, pulls) => CheapBills(StreamBills(w, call, upstream, pulls), maxCost)
    case EndWhole(_, call, routed) => CheapBills(WholeBills(w, call, routed), maxCost)
    case _ => true
  }

  ghost predicate CheapTasks(g: Gateway, maxCost: nat) {
    forall id :: id in g.tasks ==> CheapBills(g.tasks[id], maxCost)
  }

  lemma ServeKeepsCheap(g: Gateway, e: Event, w: World, maxCost: nat)
    requires CheapTasks(g, maxCost) && CheapEvent(e, w, maxCost)
    ensures CheapTasks(Serve(g, e, w), maxCost) && CheapStep(StepOf(g, e), maxCost)
  {
  }

  /** After no event more than `width` requests of the account are open, and no bill exceeds `maxCost`. */
  ghost predicate NarrowService(events: seq<Event>, w: World, org: OrgId, width: nat, maxCost: nat) {
    && |Inflight(ServeAll(events, w).ledger, org)| <= width
    && (events != [] ==>
          NarrowService(events[..|events| - 1], w, org, width, maxCost) && CheapEvent(events[|events| - 1], w, maxCost))
  }

  lemma {:induction false} ServingIsNarrow(events: seq<Event>, w: World, org: OrgId, width: nat, maxCost: nat)
    requires NarrowService(events, w, org, width, maxCost)
    ensures NarrowRun(StepsOf(events, w), org, width, maxCost) && CheapTasks(ServeAll(events, w), maxCost)
  {
    if events == [] {
    } else {
      var earlier, e := events[..|events| - 1], events[|events| - 1];
      ServingIsNarrow(earlier, w, org, width, maxCost);
      ServingIsRun(earlier, w);
      ServeKeepsCheap(ServeAll(earlier, w), e, w, maxCost);
      NarrowThen(StepsOf(earlier, w), StepOf(ServeAll(earlier, w), e), org, width, maxCost);
    }
  }

  /**
   With at most `width` requests open and no bill above `maxCost`, an account owes less than
   `width * maxCost` plus the credit its deposits took back.
   */
  lemma DebtIsBounded(events: seq<Event>, w: World, org: OrgId, width: nat, maxCost: nat)
    requires NarrowService(events, w, org, width, maxCost)
    ensures var balances := ServeAll(events, w).ledger.tables.balances;
            org in balances ==> balances[org] > -(width * maxCost) - LostCredit(StepsOf(events, w), org)
  {
    ServingIsNarrow(events, w, org, width, maxCost);
    ServingIsRun(events, w);
    if org in ServeAll(events, w).ledger.tables.balances {
      DebtBound(StepsOf(events, w), org, width, maxCost);
    }
  }
}
