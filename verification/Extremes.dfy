/**
 Runs at the edge of what the ledger's theorems allow: bounds that are reached, and deposits
 that lose money (app/auth/dependencies.py:118-127, app/services/usage.py:83-96,
 app/api/dashboard/routes.py:311-340).
 */
module Extremes {
  import opened Arithmetic
  import opened Cost
  import opened Ledger
  import opened Overdraft
  import opened Rounding

  type Sessions = map<SessionId, Session>

  /**
   What a run of one account has come to: its bounds, the credit lost and the money missed, its
   balance, its sessions and the ids used.
   */
  datatype Scene = Scene(width: nat, maxCost: nat, lost: nat, missed: int, balance: int, sessions: Sessions,
                         used: set<CorrelationId>)

  function Open(sessions: Sessions): set<SessionId> {
    set id | id in sessions && OnAccount(sessions[id], 0)
  }

  ghost predicate Pictures(s: State, c: Scene) {
    && s.tables.balances == map[0 := c.balance] && s.sessions == c.sessions
    && forall i :: 0 <= i < |s.tables.logs| ==> s.tables.logs[i].correlation in c.used
  }

  ghost predicate Shows(steps: seq<Step>, c: Scene) {
    && Pictures(Run(steps), c) && NarrowRun(steps, 0, c.width, c.maxCost)
    && LostCredit(steps, 0) == c.lost && TotalMiss(steps, 0) == c.missed
  }

  predicate Unlocked(sessions: Sessions) {
    forall id :: id in sessions ==> !sessions[id].Charging?
  }

  /** The scene changes as the state does. */
  lemma Advances(steps: seq<Step>, c: Scene, step: Step, d: Scene)
    requires Shows(steps, c) && Pictures(Next(Run(steps), step), d) && CheapStep(step, c.maxCost)
    requires step.Admit? ==> |Inflight(Next(Run(steps), step), 0)| <= c.width
    requires d.width == c.width && d.maxCost == c.maxCost
    requires d.lost == c.lost + Fall(Run(steps), step, 0) && d.missed == c.missed + Miss(Run(steps), step, 0)
    ensures Shows(steps + [step], d)
  {
    RunExtend(steps, step);
    LostExtend(steps, step, 0);
    assert (steps + [step])[..|steps|] == steps;
    if !step.Admit? {
      InflightShrinks(Run(steps), step, 0);
    }
    NarrowThen(steps, step, 0, c.width, c.maxCost);
  }

  lemma Admits(steps: seq<Step>, c: Scene, id: SessionId)
    requires Shows(steps, c) && id !in c.sessions && c.balance > 0 && |Open(c.sessions)| < c.width
    ensures Shows(steps + [Admit(id, 0)], c.(sessions := c.sessions[id := Serving(0)]))
  {
    AdmitPictured(Run(steps), c, id);
    Advances(steps, c, Admit(id, 0), c.(sessions := c.sessions[id := Serving(0)]));
  }

  lemma AdmitPictured(s: State, c: Scene, id: SessionId)
    requires Pictures(s, c) && id !in c.sessions && c.balance > 0 && |Open(c.sessions)| < c.width
    ensures Pictures(Next(s, Admit(id, 0)), c.(sessions := c.sessions[id := Serving(0)]))
    ensures |Inflight(Next(s, Admit(id, 0)), 0)| <= c.width
  {
    assert Inflight(Next(s, Admit(id, 0)), 0) == Open(c.sessions) + {id};
  }

  lemma Reads(steps: seq<Step>, c: Scene, id: SessionId, amount: Amount)
    requires Shows(steps, c) && id !in c.sessions && Enough(amount)
    ensures Shows(steps + [ReadDeposit(id, 0, amount)],
                  c.(sessions := c.sessions[id := Depositing(0, amount, c.balance)]))
  {
    Advances(steps, c, ReadDeposit(id, 0, amount), c.(sessions := c.sessions[id := Depositing(0, amount, c.balance)]));
  }

  function Written(c: Scene, id: SessionId): Scene
    requires id in c.sessions && c.sessions[id].Depositing?
  {
    var Depositing(_, amount, seen) := c.sessions[id];
    var balance := NewBalance(seen, amount);
    c.(balance := balance, sessions := c.sessions - {id},
       lost := c.lost + if balance < c.balance then c.balance - balance else 0,
       missed := c.missed + seen - c.balance - RoundingLoss(seen, amount))
  }

  lemma Writes(steps: seq<Step>, c: Scene, id: SessionId)
    requires Shows(steps, c) && id in c.sessions && c.sessions[id].Depositing? && c.sessions[id].org == 0
             && Unlocked(c.sessions)
    requires Fits(Stored(c.sessions[id].amount)) && Fits(NewBalance(c.sessions[id].seen, c.sessions[id].amount))
    ensures Shows(steps + [WriteDeposit(id)], Written(c, id))
  {
    WritePictured(Run(steps), c, id);
    Advances(steps, c, WriteDeposit(id), Written(c, id));
  }

  lemma WritePictured(s: State, c: Scene, id: SessionId)
    requires Pictures(s, c) && id in c.sessions && c.sessions[id].Depositing? && c.sessions[id].org == 0
             && Unlocked(c.sessions)
    requires Fits(Stored(c.sessions[id].amount)) && Fits(NewBalance(c.sessions[id].seen, c.sessions[id].amount))
    ensures Pictures(Next(s, WriteDeposit(id)), Written(c, id))
    ensures Written(c, id).lost == c.lost + Fall(s, WriteDeposit(id), 0)
    ensures Written(c, id).missed == c.missed + Miss(s, WriteDeposit(id), 0)
  {
    assert DepositWrites(s, id);
  }

  lemma Locks(steps: seq<Step>, c: Scene, id: SessionId, bill: UsageLog)
    requires Shows(steps, c) && id in c.sessions && c.sessions[id] == Serving(0) && Unlocked(c.sessions)
    requires Chargeable(bill) && bill.org == 0 && bill.cost <= c.maxCost
    ensures Shows(steps + [LockRow(id, bill)], c.(sessions := c.sessions[id := Charging(bill, c.balance)]))
  {
    Advances(steps, c, LockRow(id, bill), c.(sessions := c.sessions[id := Charging(bill, c.balance)]));
  }

  function Committed(c: Scene, id: SessionId, bill: UsageLog): Scene {
    c.(balance := c.balance - bill.cost, sessions := c.sessions - {id}, used := c.used + {bill.correlation})
  }

  lemma Commits(steps: seq<Step>, c: Scene, id: SessionId, bill: UsageLog)
    requires Shows(steps, c) && id in c.sessions && c.sessions[id] == Charging(bill, c.balance)
    requires bill.org == 0 && bill.correlation !in c.used && Fits(bill.cost) && Fits(c.balance - bill.cost)
    ensures Shows(steps + [CommitCharge(id)], Committed(c, id, bill))
  {
    CommitPictured(Run(steps), c, id, bill);
    Advances(steps, c, CommitCharge(id), Committed(c, id, bill));
  }

  lemma CommitPictured(s: State, c: Scene, id: SessionId, bill: UsageLog)
    requires Pictures(s, c) && id in c.sessions && c.sessions[id] == Charging(bill, c.balance)
    requires bill.org == 0 && bill.correlation !in c.used && Fits(bill.cost) && Fits(c.balance - bill.cost)
    ensures Pictures(Next(s, CommitCharge(id)), Committed(c, id, bill))
  {
    assert ChargeCommits(s.tables, bill, c.balance);
  }

  /** One session settles its bill undisturbed. */
  lemma Settles(steps: seq<Step>, c: Scene, id: SessionId, bill: UsageLog)
    requires Shows(steps, c) && id in c.sessions && c.sessions[id] == Serving(0) && Unlocked(c.sessions)
    requires Chargeable(bill) && bill.org == 0 && bill.correlation !in c.used
    requires bill.cost <= c.maxCost && Fits(bill.cost) && Fits(c.balance - bill.cost)
    ensures Shows(steps + [LockRow(id, bill)] + [CommitCharge(id)], Committed(c, id, bill))
  {
    var locked := c.(sessions := c.sessions[id := Charging(bill, c.balance)]);
    Locks(steps, c, id, bill);
    Commits(steps + [LockRow(id, bill)], locked, id, bill);
    assert locked.sessions - {id} == c.sessions - {id};
  }

  function Bill(correlation: CorrelationId, cost: int): UsageLog {
    UsageLog(correlation, 0, "model", Usage(1, 0), cost, 200)
  }

  lemma Registers(width: nat, maxCost: nat) returns (steps: seq<Step>)
    ensures Shows(steps, Scene(width, maxCost, 0, 0, SIGNUP_CREDIT, map[], {}))
  {
    NarrowEmpty(0, width, maxCost);
    steps := [] + [Register(0)];
    RunExtend([], Register(0));
    LostExtend([], Register(0), 0);
    InflightShrinks(EMPTY, Register(0), 0);
    NarrowThen([], Register(0), 0, width, maxCost);
  }

  /** A new account charged `cost`. */
  lemma Charged(width: nat, cost: nat) returns (steps: seq<Step>)
    requires width > 0 && 0 < cost < BALANCE_LIMIT
    ensures Shows(steps, Scene(width, cost, 0, 0, SIGNUP_CREDIT - cost, map[], {1}))
  {
    var registered := Registers(width, cost);
    var c := Scene(width, cost, 0, 0, SIGNUP_CREDIT, map[], {});
    assert Open(map[]) == {};
    Admits(registered, c, 1);
    Settles(registered + [Admit(1, 0)], c.(sessions := map[1 := Serving(0)]), 1, Bill(1, cost));
    assert map[1 := Serving(0)] - {1} == map[];
    steps := registered + [Admit(1, 0)] + [LockRow(1, Bill(1, cost))] + [CommitCharge(1)];
  }

  // ----- the bound without stale deposits -----

  predicate Below(used: set<CorrelationId>, n: nat) {
    forall id :: id in used ==> id < n
  }

  /** A request admitted and settled while no other is open. */
  lemma ChargesOnce(steps: seq<Step>, c: Scene, n: CorrelationId, cost: nat) returns (more: seq<Step>)
    requires Shows(steps, c) && c.sessions == map[] && c.balance > 0 && c.width > 0 && Below(c.used, n)
    requires 0 < cost <= c.maxCost && Fits(cost) && Fits(c.balance - cost)
    ensures Shows(more, c.(balance := c.balance - cost, used := c.used + {n}))
  {
    assert Open(map[]) == {};
    Admits(steps, c, 0);
    var serving := c.(sessions := map[0 := Serving(0)]);
    assert c.sessions[0 := Serving(0)] == serving.sessions;
    Settles(steps + [Admit(0, 0)], serving, 0, Bill(n, cost));
    assert serving.sessions - {0} == map[];
    more := steps + [Admit(0, 0)] + [LockRow(0, Bill(n, cost))] + [CommitCharge(0)];
  }

  /** Charges of at most `maxCost` bring a positive balance to one micro-dollar. */
  lemma {:induction false} LowersToOne(steps: seq<Step>, c: Scene, n: nat)
    returns (more: seq<Step>, used: set<CorrelationId>, m: nat)
    requires Shows(steps, c) && c.sessions == map[] && c.width > 0 && 0 < c.maxCost < BALANCE_LIMIT && Below(c.used, n)
    requires 0 < c.balance <= SIGNUP_CREDIT
    ensures Shows(more, c.(balance := 1, used := used)) && Below(used, m)
    decreases c.balance
  {
    if c.balance == 1 {
      more, used, m := steps, c.used, n;
    } else {
      var cost := if c.maxCost < c.balance then c.maxCost else c.balance - 1;
      var once := ChargesOnce(steps, c, n, cost);
      more, used, m := LowersToOne(once, c.(balance := c.balance - cost, used := c.used + {n}), n + 1);
    }
  }

  function Servings(k: nat): Sessions {
    if k == 0 then map[] else Servings(k - 1)[k - 1 := Serving(0)]
  }

  lemma {:induction false} ServingsOpen(k: nat)
    ensures |Open(Servings(k))| == k && forall id: SessionId :: id in Servings(k) <==> id < k
    ensures forall id :: id in Servings(k) ==> Servings(k)[id] == Serving(0)
  {
    if k == 0 {
      assert Open(Servings(0)) == {};
    } else {
      ServingsOpen(k - 1);
      assert Open(Servings(k)) == Open(Servings(k - 1)) + {k - 1};
    }
  }

  lemma AdmitsNext(steps: seq<Step>, c: Scene, k: nat) returns (more: seq<Step>)
    requires 0 < k <= c.width && Shows(steps, c.(sessions := Servings(k - 1))) && c.balance > 0
    ensures Shows(more, c.(sessions := Servings(k)))
  {
    ServingsOpen(k - 1);
    Admits(steps, c.(sessions := Servings(k - 1)), k - 1);
    more := steps + [Admit(k - 1, 0)];
  }

  lemma {:induction false} AdmitsAll(steps: seq<Step>, c: Scene, k: nat) returns (more: seq<Step>)
    requires Shows(steps, c.(sessions := map[])) && c.balance > 0 && k <= c.width
    ensures Shows(more, c.(sessions := Servings(k)))
    decreases k
  {
    if k == 0 {
      more := steps;
    } else {
      var before := AdmitsAll(steps, c, k - 1);
      more := AdmitsNext(before, c, k);
    }
  }

  lemma ServingsLess(k: nat)
    requires k > 0
    ensures k - 1 in Servings(k) && Servings(k)[k - 1] == Serving(0) && Unlocked(Servings(k))
            && Servings(k) - {k - 1} == Servings(k - 1)
  {
    ServingsOpen(k);
    ServingsOpen(k - 1);
  }

  lemma OneLess(balance: int, k: nat, cost: nat)
    requires k > 0 && balance - k * cost > -BALANCE_LIMIT
    ensures (balance - cost) - (k - 1) * cost == balance - k * cost && balance - cost > -BALANCE_LIMIT
  {
    OneMore(k - 1, cost);
    ProductOrdered(0, k - 1, cost);
  }

  lemma SettlesLast(steps: seq<Step>, c: Scene, k: nat, n: nat) returns (more: seq<Step>)
    requires Shows(steps, c.(sessions := Servings(k))) && k > 0 && Below(c.used, n) && 0 < c.maxCost < BALANCE_LIMIT
    requires -BALANCE_LIMIT < c.balance - c.maxCost && c.balance <= SIGNUP_CREDIT
    ensures Shows(more, c.(balance := c.balance - c.maxCost, sessions := Servings(k - 1), used := c.used + {n}))
  {
    ServingsLess(k);
    var bill := Bill(n, c.maxCost);
    Settles(steps, c.(sessions := Servings(k)), k - 1, bill);
    more := steps + [LockRow(k - 1, bill)] + [CommitCharge(k - 1)];
  }

  lemma {:induction false} SettlesAll(steps: seq<Step>, c: Scene, k: nat, n: nat)
    returns (more: seq<Step>, used: set<CorrelationId>)
    requires Shows(steps, c.(sessions := Servings(k))) && Below(c.used, n) && 0 < c.maxCost < BALANCE_LIMIT
    requires c.balance <= SIGNUP_CREDIT && c.balance - k * c.maxCost > -BALANCE_LIMIT
    ensures Shows(more, c.(balance := c.balance - k * c.maxCost, sessions := map[], used := used))
    decreases k
  {
    if k == 0 {
      more, used := steps, c.used;
    } else {
      OneLess(c.balance, k, c.maxCost);
      var one := SettlesLast(steps, c, k, n);
      more, used := SettlesAll(one, c.(balance := c.balance - c.maxCost, used := c.used + {n}), k - 1, n + 1);
    }
  }

  /**
   For every width and cost the columns allow, `width` requests admitted on one micro-dollar take
   the balance to one above the bound.
   */
  lemma BoundIsReached(width: nat, maxCost: nat) returns (steps: seq<Step>)
    requires width > 0 && 0 < maxCost < BALANCE_LIMIT && width * maxCost <= BALANCE_LIMIT
    ensures NarrowRun(steps, 0, width, maxCost) && Rising(steps, 0)
    ensures Run(steps).tables.balances == map[0 := -(width * maxCost) + 1]
  {
    var registered := Registers(width, maxCost);
    var c := Scene(width, maxCost, 0, 0, SIGNUP_CREDIT, map[], {});
    var poor, used, n := LowersToOne(registered, c, 0);
    var d := c.(balance := 1, used := used);
    var admitted := AdmitsAll(poor, d, width);
    var settled, all := SettlesAll(admitted, d, width, n);
    steps := settled;
    LostIffFalls(steps, 0);
  }

  lemma LastSettles(served: seq<Step>, c: Scene, id: SessionId) returns (steps: seq<Step>)
    requires Shows(served, c) && c.sessions == map[id := Serving(0)] && id !in c.used
    requires 0 < c.maxCost && Fits(c.maxCost) && Fits(c.balance - c.maxCost)
    ensures Shows(steps, c.(balance := c.balance - c.maxCost, sessions := map[], used := c.used + {id}))
  {
    Settles(served, c, id, Bill(id, c.maxCost));
    steps := served + [LockRow(id, Bill(id, c.maxCost))] + [CommitCharge(id)];
    assert c.sessions - {id} == map[];
  }

  // ----- a stale deposit -----

  /** Two deposits of an account in debt have read it. */
  lemma BothRead(debt: int) returns (steps: seq<Step>)
    requires MIN_DEPOSIT <= debt && SIGNUP_CREDIT + debt < BALANCE_LIMIT
    ensures Shows(steps, Scene(1, SIGNUP_CREDIT + debt, 0, 0, -debt, Readers(debt), {1}))
  {
    var charged := Charged(1, SIGNUP_CREDIT + debt);
    var c := Scene(1, SIGNUP_CREDIT + debt, 0, 0, -debt, map[], {1});
    var small, large := WholeAmount(MIN_DEPOSIT), WholeAmount(debt + 1);
    Reads(charged, c, 3, small);
    Reads(charged + [ReadDeposit(3, 0, small)], c.(sessions := map[3 := Depositing(0, small, -debt)]), 4, large);
    steps := charged + [ReadDeposit(3, 0, small)] + [ReadDeposit(4, 0, large)];
  }

  function Readers(debt: int): Sessions {
    map[3 := Depositing(0, WholeAmount(MIN_DEPOSIT), -debt)][4 := Depositing(0, WholeAmount(debt + 1), -debt)]
  }

  lemma SmallerIsLeft(debt: int)
    ensures var small := map[3 := Depositing(0, WholeAmount(MIN_DEPOSIT), -debt)];
            Readers(debt) - {4} == small && Open(small) == {}
  {
  }

  /** The larger is written and admits a request on one micro-dollar. */
  lemma Races(debt: int) returns (steps: seq<Step>)
    requires MIN_DEPOSIT <= debt && SIGNUP_CREDIT + debt < BALANCE_LIMIT
    ensures Shows(steps, Scene(1, SIGNUP_CREDIT + debt, 0, 0, 1,
                               map[3 := Depositing(0, WholeAmount(MIN_DEPOSIT), -debt), 5 := Serving(0)], {1}))
  {
    var read := BothRead(debt);
    var small := map[3 := Depositing(0, WholeAmount(MIN_DEPOSIT), -debt)];
    Writes(read, Scene(1, SIGNUP_CREDIT + debt, 0, 0, -debt, Readers(debt), {1}), 4);
    SmallerIsLeft(debt);
    Admits(read + [WriteDeposit(4)], Scene(1, SIGNUP_CREDIT + debt, 0, 0, 1, small, {1}), 5);
    steps := read + [WriteDeposit(4)] + [Admit(5, 0)];
  }

  /** The smaller deposit takes the larger one back. */
  lemma TakesBack(debt: int) returns (steps: seq<Step>)
    requires MIN_DEPOSIT <= debt && SIGNUP_CREDIT + debt < BALANCE_LIMIT
    ensures Shows(steps, Scene(1, SIGNUP_CREDIT + debt, debt
              + 1 - MIN_DEPOSIT, -debt - 1, MIN_DEPOSIT - debt, map[5 := Serving(0)], {1}))
  {
    var small := Depositing(0, WholeAmount(MIN_DEPOSIT), -debt);
    var racing := Races(debt);
    var c := Scene(1, SIGNUP_CREDIT + debt, 0, 0, 1, map[3 := small, 5 := Serving(0)], {1});
    Writes(racing, c, 3);
    assert c.sessions - {3} == map[5 := Serving(0)];
    steps := racing + [WriteDeposit(3)];
  }

  /**
   A deposit write can take back any amount of credit that has already admitted a request: with
   one request in flight the balance then comes to one above the bound, credit lost included,
   and so below the bound without it.
   */
  lemma LostCreditIsReached(debt: int) returns (steps: seq<Step>)
    requires MIN_DEPOSIT <= debt && 2 * debt + SIGNUP_CREDIT < BALANCE_LIMIT
    ensures var maxCost := SIGNUP_CREDIT + debt;
            && NarrowRun(steps, 0, 1, maxCost)
            && LostCredit(steps, 0) == debt + 1 - MIN_DEPOSIT
            && Run(steps).tables.balances == map[0 := -(1 * maxCost) - LostCredit(steps, 0) + 1]
  {
    var taken := TakesBack(debt);
    steps := LastSettles(taken, Scene(1, SIGNUP_CREDIT + debt, debt
      + 1 - MIN_DEPOSIT, -debt - 1, MIN_DEPOSIT - debt, map[5 := Serving(0)], {1}), 5);
  }

  // ----- a deposit finer than a micro-dollar -----

  lemma FineRounds(fine: Amount, seen: int)
    requires fine == Amount(10 * MIN_DEPOSIT + 5, 10) && seen == -5_000_001
    ensures NewBalance(seen, fine) == -4_000_001 && Stored(fine) == 1_000_001 && RoundingLoss(seen, fine) == 1
  {
    assert fine.units % fine.scale == 5;
  }

  /**
   A serialised deposit of 1.0000005 dollars to an account at -5.000001 leaves the balance a
   micro-dollar short of its ledger.
   */
  lemma FineDepositDrifts() returns (steps: seq<Step>)
    ensures Run(steps).tables.balances == map[0 := -4_000_001] && Drift(Run(steps).tables, 0) == -1
  {
    var max, fine, seen := SIGNUP_CREDIT + 5_000_001, Amount(10 * MIN_DEPOSIT + 5, 10), -5_000_001;
    FineRounds(fine, seen);
    var charged := Charged(1, max);
    var c := Scene(1, max, 0, 0, seen, map[], {1});
    Reads(charged, c, 2, fine);
    var d := c.(sessions := map[2 := Depositing(0, fine, seen)]);
    Writes(charged + [ReadDeposit(2, 0, fine)], d, 2);
    steps := charged + [ReadDeposit(2, 0, fine)] + [WriteDeposit(2)];
    DriftIsMissed(steps, 0);
  }
}
