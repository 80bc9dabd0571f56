/**
 The administrator's revenue report (app/admin/routes.py:177-193): the sums of all charges
 and of all deposits, over every account, against the sum of all balances.
 */
module Revenue {
  import opened Ledger

  function KindSum(transactions: seq<Transaction>, kind: Kind): int {
    if transactions == [] then 0
    else
      var last := transactions[|transactions| - 1];
      KindSum(transactions[..|transactions| - 1], kind) + if last.kind == kind then last.amount else 0
  }

  ghost function TotalBalance(balances: map<OrgId, int>): int {
    if balances == map[] then 0
    else
      var org :| org in balances;
      balances[org] + TotalBalance(balances - {org})
  }

  lemma {:induction false} TotalRemove(balances: map<OrgId, int>, org: OrgId)
    requires org in balances
    ensures TotalBalance(balances) == balances[org] + TotalBalance(balances - {org})
    decreases |balances|
  {
    var picked :| picked in balances && TotalBalance(balances) == balances[picked] + TotalBalance(balances - {picked});
    if picked != org {
      TotalRemove(balances - {picked}, org);
      TotalRemove(balances - {org}, picked);
      assert balances - {picked} - {org} == balances - {org} - {picked};
    }
  }

  /** Setting one balance moves the total by the change of that balance. */
  lemma TotalUpdate(t: Tables, org: OrgId, balance: int)
    ensures TotalBalance(t.balances[org := balance]) == TotalBalance(t.balances) - Balance(t, org) + balance
  {
    var updated := t.balances[org := balance];
    TotalRemove(updated, org);
    if org in t.balances {
      TotalRemove(t.balances, org);
      assert updated - {org} == t.balances - {org};
    } else {
      assert updated - {org} == t.balances;
    }
  }

  ghost function Imbalance(t: Tables): int {
    TotalBalance(t.balances) - KindSum(t.transactions, Deposit) - KindSum(t.transactions, UsageCharge)
  }

  lemma StepImbalance(s: State, step: Step)
    requires Inv(s)
    ensures Imbalance(Next(s, step).tables)
         == Imbalance(s.tables)
            + if step.WriteDeposit? && DepositWrites(s, step.id) then Miss(s, step, s.sessions[step.id].org) else 0
  {
    var t, u := s.tables, Next(s, step).tables;
    NewTransaction(s, step);
    if u.transactions != t.transactions {
      var row := u.transactions[|t.transactions|];
      assert u.transactions[..|t.transactions|] == t.transactions;
      TotalUpdate(t, row.org, u.balances[row.org]);
    }
  }

  lemma StepKeepsReport(s: State, step: Step)
    requires Inv(s)
    ensures FreshWrite(s, step) <==> Imbalance(Next(s, step).tables) == Imbalance(s.tables)
  {
    StepImbalance(s, step);
  }

  ghost predicate ReportBalances(t: Tables) {
    KindSum(t.transactions, Deposit) + KindSum(t.transactions, UsageCharge) == TotalBalance(t.balances)
  }

  lemma {:induction false} FreshKeepsReport(steps: seq<Step>, k: nat)
    requires FreshRun(steps) && k <= |steps|
    ensures ReportBalances(Run(steps[..k]).tables)
  {
    if k == 0 {
    } else {
      FreshKeepsReport(steps, k - 1);
      RunNext(steps, k - 1);
      RunKeepsInv(steps[..k - 1]);
      StepKeepsReport(Run(steps[..k - 1]), steps[k - 1]);
    }
  }

  /** Deposits plus charges equal the sum of all balances throughout a run exactly when every deposit write is fresh. */
  lemma ReportBalancesIffFresh(steps: seq<Step>)
    ensures FreshRun(steps) <==> forall k :: 0 <= k <= |steps| ==> ReportBalances(Run(steps[..k]).tables)
  {
    if FreshRun(steps) {
      forall k | 0 <= k <= |steps| ensures ReportBalances(Run(steps[..k]).tables) {
        FreshKeepsReport(steps, k);
      }
    }
    if forall k :: 0 <= k <= |steps| ==> ReportBalances(Run(steps[..k]).tables) {
      forall k | 0 <= k < |steps| ensures FreshWrite(Run(steps[..k]), steps[k]) {
        RunNext(steps, k);
        RunKeepsInv(steps[..k]);
        assert ReportBalances(Run(steps[..k + 1]).tables);
        StepKeepsReport(Run(steps[..k]), steps[k]);
      }
    }
  }
}
