/**
 The billing tables and every interleaving of the sessions that use them
 (app/services/usage.py:63-110, app/auth/dependencies.py:118-127,
 app/api/dashboard/routes.py:113-131 and 311-340).

 Amounts are micro-dollars. A charge locks the account row, reads the balance and
 commits log, balance and ledger row together; a deposit reads the balance without the
 lock and writes the sum it computed. Deposits are decimals with any number of places: the
 sum and the ledger row are rounded by their columns, each on its own. A step whose guard fails leaves the state alone:
 the request is refused, or waits.
 */
module Ledger {
  import opened Arithmetic
  import opened Cost
  import opened Rounding

  type OrgId = nat
  type CorrelationId = nat
  type SessionId = nat

  /** The free credit of a new account, 10 dollars, and the smallest deposit, 1 dollar. */
  const SIGNUP_CREDIT := 10_000_000
  const MIN_DEPOSIT := 1_000_000
  /** A balance column holds six digits before the decimal point. */
  const BALANCE_LIMIT := 1_000_000_000_000

  datatype UsageLog = UsageLog(correlation: CorrelationId, org: OrgId, model: string,
                               usage: Usage, cost: int, status: int)

  datatype Kind = Deposit | UsageCharge

  type Scale = x: nat | 0 < x witness 1

  /** `units / scale` micro-dollars. */
  datatype Amount = Amount(units: int, scale: Scale)

  function WholeAmount(micros: int): Amount {
    Amount(micros, 1)
  }

  /** The ledger row of a deposit. */
  function Stored(amount: Amount): int {
    HalfAway(amount.units, amount.scale)
  }

  /** Whether adding `amount` to `seen` makes a tie below zero, which rounds down where the amount alone rounds up. */
  predicate TieBelowZero(seen: int, amount: Amount) {
    2 * (amount.units % amount.scale) == amount.scale && seen * amount.scale + amount.units < 0
  }

  function RoundingLoss(seen: int, amount: Amount): int {
    if TieBelowZero(seen, amount) then 1 else 0
  }

  /** The balance a deposit writes, which is what it read plus its row, but for a rounding loss. */
  function NewBalance(seen: int, amount: Amount): (balance: int)
    ensures amount.units >= 0 ==> balance == seen + Stored(amount) - RoundingLoss(seen, amount)
  {
    if amount.units >= 0 then
      HalfAwayShift(seen, amount.units, amount.scale);
      HalfAway(seen * amount.scale + amount.units, amount.scale)
    else HalfAway(seen * amount.scale + amount.units, amount.scale)
  }

  datatype Transaction = Transaction(org: OrgId, amount: int, kind: Kind)

  /** The committed rows. An organization has an account when it is in `balances`. */
  datatype Tables = Tables(logs: seq<UsageLog>, transactions: seq<Transaction>, balances: map<OrgId, int>)

  datatype Session =
    | Serving(org: OrgId)                                   // passed the balance gate, not yet metered
    | Charging(log: UsageLog, seen: int)                    // holds the row lock, has read the balance
    | Depositing(org: OrgId, amount: Amount, seen: int)     // has read the balance, holds no lock

  datatype State = State(tables: Tables, sessions: map<SessionId, Session>)

  datatype Step =
    | Register(newOrg: OrgId)
    | Admit(id: SessionId, org: OrgId)
    | LockRow(id: SessionId, log: UsageLog)
    | CommitCharge(id: SessionId)
    | CommitLog(id: SessionId, log: UsageLog)
    | Abandon(id: SessionId)
    | ReadDeposit(id: SessionId, org: OrgId, amount: Amount)
    | WriteDeposit(id: SessionId)
    | Idle                                                  // anything that leaves the database alone

  /** The endpoint refuses less than a dollar. */
  predicate Enough(amount: Amount) {
    amount.units >= MIN_DEPOSIT * amount.scale
  }

  const EMPTY := State(Tables([], [], map[]), map[])

  predicate Chargeable(log: UsageLog) {
    log.cost > 0 && log.status == 200
  }

  predicate Fits(balance: int) {
    -BALANCE_LIMIT < balance < BALANCE_LIMIT
  }

  predicate Recorded(logs: seq<UsageLog>, correlation: CorrelationId) {
    exists i :: 0 <= i < |logs| && logs[i].correlation == correlation
  }

  predicate HoldsLock(session: Session, org: OrgId) {
    session.Charging? && session.log.org == org
  }

  predicate RowLocked(s: State, org: OrgId) {
    exists id :: id in s.sessions && HoldsLock(s.sessions[id], org)
  }

  /** The guard of a log insert: the unique key accepts the row and the cost fits its column. */
  predicate LogInserts(t: Tables, log: UsageLog) {
    !Recorded(t.logs, log.correlation) && Fits(log.cost)
  }

  predicate ChargeCommits(t: Tables, log: UsageLog, seen: int) {
    LogInserts(t, log) && Fits(seen - log.cost)
  }

  function AfterCharge(t: Tables, log: UsageLog, seen: int): Tables {
    Tables(t.logs + [log],
           t.transactions + [Transaction(log.org, -log.cost, UsageCharge)],
           t.balances[log.org := seen - log.cost])
  }

  predicate DepositWrites(s: State, id: SessionId) {
    && id in s.sessions && s.sessions[id].Depositing?
    && !RowLocked(s, s.sessions[id].org)
    && Fits(Stored(s.sessions[id].amount)) && Fits(NewBalance(s.sessions[id].seen, s.sessions[id].amount))
  }

  function Next(s: State, step: Step): State {
    var t := s.tables;
    match step
    case Register(org) =>
      if org in t.balances then s
      else s.(tables := t.(transactions := t.transactions + [Transaction(org, SIGNUP_CREDIT, Deposit)],
                           balances := t.balances[org := SIGNUP_CREDIT]))
    case Admit(id, org) =>
      if id !in s.sessions && org in t.balances && t.balances[org] > 0
      then s.(sessions := s.sessions[id := Serving(org)])
      else s
    case LockRow(id, log) =>
      if id in s.sessions && s.sessions[id] == Serving(log.org) && Chargeable(log)
         && log.org in t.balances && !RowLocked(s, log.org)
      then s.(sessions := s.sessions[id := Charging(log, t.balances[log.org])])
      else s
    case CommitCharge(id) =>
      if id in s.sessions && s.sessions[id].Charging? then
        var Charging(log, seen) := s.sessions[id];
        if ChargeCommits(t, log, seen)
        then State(AfterCharge(t, log, seen), s.sessions - {id})
        else s.(sessions := s.sessions[id := Serving(log.org)])
      else s
    case CommitLog(id, log) =>
      if id in s.sessions && s.sessions[id] == Serving(log.org) && !Chargeable(log) && LogInserts(t, log)
      then State(t.(logs := t.logs + [log]), s.sessions - {id})
      else s
    case Abandon(id) =>
      s.(sessions := s.sessions - {id})
    case ReadDeposit(id, org, amount) =>
      if id !in s.sessions && org in t.balances && Enough(amount)
      then s.(sessions := s.sessions[id := Depositing(org, amount, t.balances[org])])
      else s
    case WriteDeposit(id) =>
      if DepositWrites(s, id) then
        var Depositing(org, amount, seen) := s.sessions[id];
        State(t.(transactions := t.transactions + [Transaction(org, Stored(amount), Deposit)],
                 balances := t.balances[org := NewBalance(seen, amount)]),
              s.sessions - {id})
      else if id in s.sessions && s.sessions[id].Depositing? && !RowLocked(s, s.sessions[id].org)
      then s.(sessions := s.sessions - {id})
      else s
    case Idle => s
  }

  function Run(steps: seq<Step>): State {
    if steps == [] then EMPTY
    else Next(Run(steps[..|steps| - 1]), steps[|steps| - 1])
  }

  lemma RunNext(steps: seq<Step>, k: nat)
    requires k < |steps|
    ensures Run(steps[..k + 1]) == Next(Run(steps[..k]), steps[k])
  {
    assert steps[..k + 1][..k] == steps[..k];
  }

  lemma RunExtend(steps: seq<Step>, step: Step)
    ensures Run(steps + [step]) == Next(Run(steps), step)
  {
    assert (steps + [step])[..|steps|] == steps;
  }

  function Balance(t: Tables, org: OrgId): int {
    if org in t.balances then t.balances[org] else 0
  }

  /**
   How far the balance a deposit writes misses the committed balance plus the deposit's row: by
   what it had not seen, and by its rounding.
   */
  function Miss(s: State, step: Step, org: OrgId): int {
    if step.WriteDeposit? && DepositWrites(s, step.id) && s.sessions[step.id].org == org
    then
      var Depositing(_, amount, seen) := s.sessions[step.id];
      seen - Balance(s.tables, org) - RoundingLoss(seen, amount)
    else 0
  }

  // ----- the amounts of the source -----

  /** A deposit starts exactly from one dollar up, in whatever fraction of a micro-dollar it is written. */
  lemma DepositStartsIff(s: State, id: SessionId, org: OrgId, amount: Amount)
    requires id !in s.sessions && org in s.tables.balances
    ensures id in Next(s, ReadDeposit(id, org, amount)).sessions <==> amount.units >= 1_000_000 * amount.scale
  {
  }

  /** A column holds what is less than a million dollars away from zero. */
  lemma ColumnBounds(micros: int)
    ensures Fits(micros) <==> -1_000_000_000_000 < micros < 1_000_000_000_000
  {
  }

  // ----- what every step keeps -----

  ghost predicate SessionsSound(s: State) {
    && (forall id :: id in s.sessions && s.sessions[id].Charging? ==>
          && Chargeable(s.sessions[id].log)
          && s.sessions[id].log.org in s.tables.balances
          && s.sessions[id].seen == s.tables.balances[s.sessions[id].log.org])
    && (forall id :: id in s.sessions && !s.sessions[id].Charging? ==> s.sessions[id].org in s.tables.balances)
    && (forall id :: id in s.sessions && s.sessions[id].Depositing? ==> Enough(s.sessions[id].amount))
  }

  /** At most one session holds the lock of a row. */
  ghost predicate LocksExclusive(s: State) {
    forall i, j, org ::
      i in s.sessions && j in s.sessions && HoldsLock(s.sessions[i], org) && HoldsLock(s.sessions[j], org) ==> i == j
  }

  ghost predicate CorrelationsUnique(logs: seq<UsageLog>) {
    forall i, j :: 0 <= i < j < |logs| ==> logs[i].correlation != logs[j].correlation
  }

  ghost predicate Inv(s: State) {
    SessionsSound(s) && LocksExclusive(s) && CorrelationsUnique(s.tables.logs)
  }

  lemma StepKeepsLocks(s: State, step: Step)
    requires LocksExclusive(s)
    ensures LocksExclusive(Next(s, step))
  {
    if step.LockRow? && !RowLocked(s, step.log.org) {
      assert forall id :: id in s.sessions ==> !HoldsLock(s.sessions[id], step.log.org);
    }
  }

  lemma StepKeepsCorrelations(s: State, step: Step)
    requires CorrelationsUnique(s.tables.logs)
    ensures CorrelationsUnique(Next(s, step).tables.logs)
  {
  }

  lemma StepKeepsInv(s: State, step: Step)
    requires Inv(s)
    ensures Inv(Next(s, step))
  {
    StepKeepsLocks(s, step);
    StepKeepsCorrelations(s, step);
    StepKeepsSessions(s, step);
  }

  /** A balance moves only while nobody else has read it under the lock. */
  lemma StepKeepsSessions(s: State, step: Step)
    requires Inv(s)
    ensures SessionsSound(Next(s, step))
  {
    match step
    case WriteDeposit(id) =>
      if DepositWrites(s, id) {
        var org := s.sessions[id].org;
        forall j | j in s.sessions && s.sessions[j].Charging?
          ensures s.sessions[j].log.org != org
        {
          assert !HoldsLock(s.sessions[j], org);
        }
      }
    case CommitCharge(id) =>
      if id in s.sessions && s.sessions[id].Charging? {
        assert HoldsLock(s.sessions[id], s.sessions[id].log.org);
        forall j | j in s.sessions && j != id && s.sessions[j].Charging?
          ensures s.sessions[j].log.org != s.sessions[id].log.org
        {
          assert HoldsLock(s.sessions[j], s.sessions[j].log.org);
        }
      }
    case _ =>
  }

  lemma {:induction false} RunKeepsInv(steps: seq<Step>)
    ensures Inv(Run(steps))
  {
    if steps == [] {
    } else {
      RunKeepsInv(steps[..|steps| - 1]);
      StepKeepsInv(Run(steps[..|steps| - 1]), steps[|steps| - 1]);
    }
  }

  // ----- the ledger lists exactly the charged logs -----

  /** The charge amounts of an account, oldest first. */
  function ChargesOn(transactions: seq<Transaction>, org: OrgId): seq<int> {
    if transactions == [] then []
    else
      var earlier, last := ChargesOn(transactions[..|transactions| - 1], org), transactions[|transactions| - 1];
      if last.org == org && last.kind == UsageCharge then earlier + [last.amount] else earlier
  }

  /** What the status-200 logs of an organization say was charged, oldest first. */
  function ChargesDue(logs: seq<UsageLog>, org: OrgId): seq<int> {
    if logs == [] then []
    else
      var earlier, last := ChargesDue(logs[..|logs| - 1], org), logs[|logs| - 1];
      if last.org == org && Chargeable(last) then earlier + [-last.cost] else earlier
  }

  lemma ChargesOnAppend(transactions: seq<Transaction>, last: Transaction, org: OrgId)
    ensures ChargesOn(transactions + [last], org)
         == ChargesOn(transactions, org) + if last.org == org && last.kind == UsageCharge then [last.amount] else []
  {
    assert (transactions + [last])[..|transactions|] == transactions;
  }

  lemma ChargesDueAppend(logs: seq<UsageLog>, last: UsageLog, org: OrgId)
    ensures ChargesDue(logs + [last], org)
         == ChargesDue(logs, org) + if last.org == org && Chargeable(last) then [-last.cost] else []
  {
    assert (logs + [last])[..|logs|] == logs;
  }

  /** What one step may add: a deposit's row, a log that is not charged, or a log with its charge. */
  predicate RowsAdded(t: Tables, u: Tables) {
    || (u.logs == t.logs && (u.transactions == t.transactions || AddsDeposit(t.transactions, u.transactions)))
    || (AddsLog(t.logs, u.logs)
        && var log := u.logs[|t.logs|];
           u.transactions == t.transactions
                             + if Chargeable(log) then [Transaction(log.org, -log.cost, UsageCharge)] else [])
  }

  predicate AddsDeposit(before: seq<Transaction>, after: seq<Transaction>) {
    |after| == |before| + 1 && after == before + [after[|before|]] && after[|before|].kind == Deposit
  }

  predicate AddsLog(before: seq<UsageLog>, after: seq<UsageLog>) {
    |after| == |before| + 1 && after == before + [after[|before|]]
  }

  lemma StepAddsRows(s: State, step: Step)
    requires SessionsSound(s)
    ensures RowsAdded(s.tables, Next(s, step).tables)
  {
  }

  lemma RowsKeepMatch(t: Tables, u: Tables, org: OrgId)
    requires RowsAdded(t, u) && ChargesOn(t.transactions, org) == ChargesDue(t.logs, org)
    ensures ChargesOn(u.transactions, org) == ChargesDue(u.logs, org)
  {
    if u.logs == t.logs {
      if u.transactions != t.transactions {
        ChargesOnAppend(t.transactions, u.transactions[|t.transactions|], org);
      }
    } else {
      var log := u.logs[|t.logs|];
      ChargesDueAppend(t.logs, log, org);
      if Chargeable(log) {
        ChargesOnAppend(t.transactions, Transaction(log.org, -log.cost, UsageCharge), org);
      } else {
        assert t.transactions + [] == t.transactions;
      }
    }
  }

  /** A step adds at most one ledger row: the one for the balance it moves. */
  lemma NewTransaction(s: State, step: Step)
    requires SessionsSound(s)
    ensures var t, u := s.tables, Next(s, step).tables;
            if u.transactions == t.transactions then u.balances == t.balances
            else
              && |u.transactions| == |t.transactions| + 1
              && u.transactions == t.transactions + [u.transactions[|t.transactions|]]
              && var row := u.transactions[|t.transactions|];
                 && (row.kind == UsageCharge <==> step.CommitCharge?)
                 && u.balances == t.balances[row.org := Balance(t, row.org) + Miss(s, step, row.org) + row.amount]
                 && forall org :: org != row.org ==> Miss(s, step, org) == 0
    ensures Next(s, step).tables.transactions == s.tables.transactions ==> forall org :: Miss(s, step, org) == 0
  {
  }

  /** The first row of an account is its sign-up credit of ten dollars. */
  ghost predicate OpenedWithCredit(rows: seq<Transaction>, org: OrgId) {
    exists i :: 0 <= i < |rows| && rows[i] == Transaction(org, 10_000_000, Deposit)
                && forall j :: 0 <= j < i ==> rows[j].org != org
  }

  ghost predicate DepositsRegular(t: Tables) {
    && (forall i :: 0 <= i < |t.transactions| ==> t.transactions[i].org in t.balances)
    && (forall i :: 0 <= i < |t.transactions| && t.transactions[i].kind == Deposit ==>
          t.transactions[i].amount >= 1_000_000)
    && (forall org :: org in t.balances ==> OpenedWithCredit(t.transactions, org))
  }

  lemma StoredAtLeast(amount: Amount)
    requires amount.units >= 1_000_000 * amount.scale
    ensures Stored(amount) >= 1_000_000
  {
    HalfAwayIsNearest(amount.units, amount.scale);
    if Stored(amount) < 1_000_000 {
      MultiplesApart(Stored(amount), 1_000_000, amount.scale);
    }
  }

  lemma OpenedStays(rows: seq<Transaction>, row: Transaction, org: OrgId)
    requires OpenedWithCredit(rows, org)
    ensures OpenedWithCredit(rows + [row], org)
  {
    var i :| 0 <= i < |rows| && rows[i] == Transaction(org, 10_000_000, Deposit)
             && forall j :: 0 <= j < i ==> rows[j].org != org;
    assert (rows + [row])[i] == rows[i];
  }

  /** The row a step adds: for a known account any charge or a deposit of a dollar, for a new one its credit. */
  lemma NewRow(s: State, step: Step)
    requires SessionsSound(s) && Next(s, step).tables.transactions != s.tables.transactions
    ensures var row := Next(s, step).tables.transactions[|s.tables.transactions|];
            && (row.kind == Deposit ==> row.amount >= 1_000_000)
            && (row.org !in s.tables.balances ==> row == Transaction(row.org, 10_000_000, Deposit))
            && Next(s, step).tables.balances.Keys == s.tables.balances.Keys + {row.org}
  {
    if step.WriteDeposit? {
      StoredAtLeast(s.sessions[step.id].amount);
    }
  }

  lemma StepKeepsDeposits(t: Tables, u: Tables, row: Transaction)
    requires DepositsRegular(t) && u.transactions == t.transactions + [row]
    requires u.balances.Keys == t.balances.Keys + {row.org}
    requires row.kind == Deposit ==> row.amount >= 1_000_000
    requires row.org !in t.balances ==> row == Transaction(row.org, 10_000_000, Deposit)
    ensures DepositsRegular(u)
  {
    forall org | org in u.balances ensures OpenedWithCredit(u.transactions, org) {
      if org in t.balances {
        OpenedStays(t.transactions, row, org);
      } else {
        assert u.transactions[|t.transactions|] == Transaction(org, 10_000_000, Deposit);
      }
    }
  }

  /** In every run an account's ledger opens with ten dollars, and no deposit in it is below one dollar. */
  lemma {:induction false} DepositsAreRegular(steps: seq<Step>)
    ensures DepositsRegular(Run(steps).tables)
  {
    if steps == [] {
    } else {
      var earlier, step := steps[..|steps| - 1], steps[|steps| - 1];
      var s := Run(earlier);
      DepositsAreRegular(earlier);
      RunKeepsInv(earlier);
      NewTransaction(s, step);
      if Next(s, step).tables.transactions != s.tables.transactions {
        NewRow(s, step);
        StepKeepsDeposits(s.tables, Next(s, step).tables, Next(s, step).tables.transactions[|s.tables.transactions|]);
      }
    }
  }

  /** In every run the charges of an account are, one for one and in order, the costs of its chargeable logs. */
  lemma {:induction false} ChargesMatchLogs(steps: seq<Step>, org: OrgId)
    ensures ChargesOn(Run(steps).tables.transactions, org) == ChargesDue(Run(steps).tables.logs, org)
  {
    if steps == [] {
    } else {
      ChargesMatchLogs(steps[..|steps| - 1], org);
      RunKeepsInv(steps[..|steps| - 1]);
      StepAddsRows(Run(steps[..|steps| - 1]), steps[|steps| - 1]);
      RowsKeepMatch(Run(steps[..|steps| - 1]).tables, Run(steps).tables, org);
    }
  }

  /** The first commit of a correlation id is its last: no run logs or charges it again. */
  lemma AtMostOnce(steps: seq<Step>, i: nat, j: nat)
    requires i < |Run(steps).tables.logs| && j < |Run(steps).tables.logs|
    requires Run(steps).tables.logs[i].correlation == Run(steps).tables.logs[j].correlation
    ensures i == j
  {
    RunKeepsInv(steps);
  }

  function Sum(amounts: seq<int>): int {
    if amounts == [] then 0 else Sum(amounts[..|amounts| - 1]) + amounts[|amounts| - 1]
  }

  /** The cost of an organization's successful requests. */
  function BilledCost(logs: seq<UsageLog>, org: OrgId): int {
    if logs == [] then 0
    else
      var last := logs[|logs| - 1];
      BilledCost(logs[..|logs| - 1], org) + if last.org == org && last.status == 200 then last.cost else 0
  }

  lemma {:induction false} DueIsBilledCost(logs: seq<UsageLog>, org: OrgId)
    requires forall i :: 0 <= i < |logs| ==> logs[i].cost >= 0
    ensures Sum(ChargesDue(logs, org)) == -BilledCost(logs, org)
  {
    if logs == [] {
    } else {
      var rest := logs[..|logs| - 1];
      DueIsBilledCost(rest, org);
      var last := logs[|logs| - 1];
      var due := ChargesDue(rest, org);
      assert (due + [-last.cost])[..|due|] == due;
    }
  }

  /** With non-negative prices, the charges of an account total minus the cost of its status-200 logs. */
  lemma ChargesTotalBilledCost(steps: seq<Step>, org: OrgId)
    requires forall i :: 0 <= i < |Run(steps).tables.logs| ==> Run(steps).tables.logs[i].cost >= 0
    ensures Sum(ChargesOn(Run(steps).tables.transactions, org)) == -BilledCost(Run(steps).tables.logs, org)
  {
    ChargesMatchLogs(steps, org);
    DueIsBilledCost(Run(steps).tables.logs, org);
  }

  // ----- conservation -----

  function LedgerSum(transactions: seq<Transaction>, org: OrgId): int {
    if transactions == [] then 0
    else
      var last := transactions[|transactions| - 1];
      LedgerSum(transactions[..|transactions| - 1], org) + if last.org == org then last.amount else 0
  }

  function Drift(t: Tables, org: OrgId): int {
    Balance(t, org) - LedgerSum(t.transactions, org)
  }

  ghost predicate Conserved(t: Tables) {
    forall org :: Drift(t, org) == 0
  }

  /**
   The guard of a sound deposit write: the balance it read is the committed one, or one more when
   it makes a tie below zero.
   */
  predicate FreshWrite(s: State, step: Step) {
    step.WriteDeposit? && DepositWrites(s, step.id) ==>
      var session := s.sessions[step.id];
      session.seen == Balance(s.tables, session.org) + if TieBelowZero(session.seen, session.amount) then 1 else 0
  }

  lemma LedgerSumAppend(transactions: seq<Transaction>, last: Transaction, org: OrgId)
    ensures LedgerSum(transactions + [last], org)
         == LedgerSum(transactions, org) + if last.org == org then last.amount else 0
  {
    assert (transactions + [last])[..|transactions|] == transactions;
  }

  lemma StepDrift(s: State, step: Step, org: OrgId)
    requires Inv(s)
    ensures Drift(Next(s, step).tables, org) == Drift(s.tables, org) + Miss(s, step, org)
  {
    var t, u := s.tables, Next(s, step).tables;
    NewTransaction(s, step);
    if u.transactions != t.transactions {
      LedgerSumAppend(t.transactions, u.transactions[|t.transactions|], org);
    }
  }

  function TotalMiss(steps: seq<Step>, org: OrgId): int {
    if steps == [] then 0
    else
      var earlier := steps[..|steps| - 1];
      TotalMiss(earlier, org) + Miss(Run(earlier), steps[|steps| - 1], org)
  }

  /** Over any interleaving the balance differs from the ledger by exactly what deposits overwrote or rounded away. */
  lemma {:induction false} DriftIsMissed(steps: seq<Step>, org: OrgId)
    ensures Drift(Run(steps).tables, org) == TotalMiss(steps, org)
  {
    if steps == [] {
    } else {
      var earlier := steps[..|steps| - 1];
      DriftIsMissed(earlier, org);
      RunKeepsInv(earlier);
      StepDrift(Run(earlier), steps[|steps| - 1], org);
    }
  }

  ghost predicate FreshRun(steps: seq<Step>) {
    forall k :: 0 <= k < |steps| ==> FreshWrite(Run(steps[..k]), steps[k])
  }

  /** Every account agrees with its ledger at every moment of a run exactly when every deposit write is fresh. */
  lemma ConservedIffFresh(steps: seq<Step>)
    ensures FreshRun(steps) <==> forall k :: 0 <= k <= |steps| ==> Conserved(Run(steps[..k]).tables)
  {
    if FreshRun(steps) {
      forall k | 0 <= k <= |steps| ensures Conserved(Run(steps[..k]).tables) {
        FreshKeepsConserved(steps, k);
      }
    }
    if forall k :: 0 <= k <= |steps| ==> Conserved(Run(steps[..k]).tables) {
      forall k | 0 <= k < |steps| ensures FreshWrite(Run(steps[..k]), steps[k]) {
        var s, step := Run(steps[..k]), steps[k];
        RunNext(steps, k);
        RunKeepsInv(steps[..k]);
        if step.WriteDeposit? && DepositWrites(s, step.id) {
          var org := s.sessions[step.id].org;
          StepDrift(s, step, org);
          assert Conserved(Run(steps[..k + 1]).tables);
          assert Drift(s.tables, org) == 0 == Drift(Next(s, step).tables, org);
        }
      }
    }
  }

  lemma FreshStepConserves(s: State, step: Step)
    requires Inv(s) && Conserved(s.tables) && FreshWrite(s, step)
    ensures Conserved(Next(s, step).tables)
  {
    forall org ensures Drift(Next(s, step).tables, org) == 0 {
      StepDrift(s, step, org);
    }
  }

  lemma {:induction false} FreshKeepsConserved(steps: seq<Step>, k: nat)
    requires FreshRun(steps) && k <= |steps|
    ensures Conserved(Run(steps[..k]).tables)
  {
    if k == 0 {
    } else {
      FreshKeepsConserved(steps, k - 1);
      RunNext(steps, k - 1);
      RunKeepsInv(steps[..k - 1]);
      FreshStepConserves(Run(steps[..k - 1]), steps[k - 1]);
    }
  }

  /** Two deposits that read the same balance: the second write loses the first deposit. */
  lemma LostDeposit()
    ensures var dollar := WholeAmount(MIN_DEPOSIT);
            var steps := [Register(0), ReadDeposit(1, 0, dollar), ReadDeposit(2, 0, dollar)]
                         + [WriteDeposit(1)] + [WriteDeposit(2)];
            && Balance(Run(steps).tables, 0) == SIGNUP_CREDIT + MIN_DEPOSIT
            && Drift(Run(steps).tables, 0) == -MIN_DEPOSIT
  {
    var dollar := WholeAmount(MIN_DEPOSIT);
    var both := [Register(0)] + [ReadDeposit(1, 0, dollar)] + [ReadDeposit(2, 0, dollar)];
    RunExtend([], Register(0));
    RunExtend([Register(0)], ReadDeposit(1, 0, dollar));
    RunExtend([Register(0)] + [ReadDeposit(1, 0, dollar)], ReadDeposit(2, 0, dollar));
    RunExtend(both, WriteDeposit(1));
    RunExtend(both + [WriteDeposit(1)], WriteDeposit(2));
    assert both == [Register(0), ReadDeposit(1, 0, dollar), ReadDeposit(2, 0, dollar)];
    var seen := Depositing(0, dollar, SIGNUP_CREDIT);
    assert Run(both).sessions == map[1 := seen, 2 := seen];
    assert Run(both + [WriteDeposit(1)]).sessions == map[2 := seen];
    var credit, deposit := Transaction(0, SIGNUP_CREDIT, Deposit), Transaction(0, MIN_DEPOSIT, Deposit);
    assert Run(both + [WriteDeposit(1)] + [WriteDeposit(2)]).tables.transactions
           == [] + [credit] + [deposit] + [deposit];
    LedgerSumAppend([], credit, 0);
    LedgerSumAppend([] + [credit], deposit, 0);
    LedgerSumAppend([] + [credit] + [deposit], deposit, 0);
  }
}
