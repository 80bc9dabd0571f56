/** Recording one request: price, log, locked charge, ledger row, one commit (app/services/usage.py:22-111). */
module Metering {
  import opened Wrappers
  import opened Cost
  import opened Rounding
  import opened Ledger

  /** A model the registry does not know is priced at zero. */
  function PriceOf(prices: map<string, Price>, model: string): Price {
    if model in prices then prices[model] else Price(0, 0)
  }

  function LogFor(prices: map<string, Price>, correlation: CorrelationId, org: OrgId, model: string, usage: Usage,
                  status: int): UsageLog {
    UsageLog(correlation, org, model, usage, CostOf(usage, PriceOf(prices, model)), status)
  }

  /** The tables after recording `log` in one transaction, or None when the commit fails. */
  function AfterRecord(t: Tables, log: UsageLog): Option<Tables> {
    if Chargeable(log) && log.org in t.balances then
      if ChargeCommits(t, log, t.balances[log.org]) then Some(AfterCharge(t, log, t.balances[log.org])) else None
    else if LogInserts(t, log) then Some(t.(logs := t.logs + [log]))
    else None
  }

  lemma NoPriceNoCost(usage: Usage)
    ensures CostOf(usage, Price(0, 0)) == 0
  {
    HalfEvenExact(0, UNITS_PER_MICRO);
  }

  class BillingDatabase {
    const prices: map<string, Price>
    var logs: seq<UsageLog>
    var transactions: seq<Transaction>
    var balances: map<OrgId, int>

    function Committed(): Tables
      reads this
    {
      Tables(logs, transactions, balances)
    }

    /** Correlation ids arrive as text; `None` stands for text that is not a UUID. */
    method RecordUsage(org: OrgId, correlation: Option<CorrelationId>, model: string, usage: Usage, status: int)
      returns (committed: bool)
      modifies this
      ensures committed <==>
                && correlation.Some?
                && AfterRecord(old(Committed()), LogFor(prices, correlation.value, org, model, usage, status)).Some?
      ensures committed ==>
                AfterRecord(old(Committed()), LogFor(prices, correlation.value, org, model, usage, status))
                  == Some(Committed())
      ensures !committed ==> Committed() == old(Committed())
      ensures var cost := CostOf(usage, PriceOf(prices, model));
              committed <==>
                && correlation.Some?
                && (forall i :: 0 <= i < |old(logs)| ==> old(logs)[i].correlation != correlation.value)
                && Fits(cost)
                && (cost > 0 && status == 200 && org in old(balances) ==> Fits(old(balances)[org] - cost))
      ensures committed ==>
                && |logs| == |old(logs)| + 1 && logs[..|old(logs)|] == old(logs)
                && var log := logs[|old(logs)|];
                   && correlation == Some(log.correlation) && log.org == org && log.model == model
                   && log.usage == usage && log.status == status
                   && (model in prices ==> log.cost == CostOf(usage, prices[model]))
                   && (model !in prices ==> log.cost == 0)
                   && if log.cost > 0 && status == 200 && org in old(balances)
                      then && balances == old(balances)[org := old(balances)[org] - log.cost]
                           && transactions == old(transactions) + [Transaction(org, -log.cost, UsageCharge)]
                      else balances == old(balances) && transactions == old(transactions)
    {
      var price := PriceOf(prices, model);
      var cost := ComputeCost(usage, price);
      NoPriceNoCost(usage);
      if correlation.None? {
        return false;
      }
      var log := UsageLog(correlation.value, org, model, usage, cost, status);
      if cost > 0 && status == 200 && org in balances {
        var balance := balances[org] - cost;
        if Recorded(logs, log.correlation) || !Fits(cost) || !Fits(balance) {
          return false;
        }
        balances := balances[org := balance];
        transactions := transactions + [Transaction(org, -cost, UsageCharge)];
      } else if Recorded(logs, log.correlation) || !Fits(cost) {
        return false;
      }
      logs := logs + [log];
      return true;
    }
  }

  /** One uninterrupted recording is a path of the interleaved machine: lock then commit, or commit the log alone. */
  lemma RecordIsSteps(s: State, id: SessionId, log: UsageLog)
    requires SessionsSound(s)
    requires id in s.sessions && s.sessions[id] == Serving(log.org) && !RowLocked(s, log.org)
    ensures var after := if Chargeable(log)
                         then Next(Next(s, LockRow(id, log)), CommitCharge(id))
                         else Next(s, CommitLog(id, log));
            match AfterRecord(s.tables, log)
            case Some(tables) => after == State(tables, s.sessions - {id})
            case None => after == s
  {
    if Chargeable(log) {
      var locked := Next(s, LockRow(id, log));
      assert locked.sessions - {id} == s.sessions - {id};
      assert locked.sessions[id := Serving(log.org)] == s.sessions;
    }
  }

  /** Recording a correlation id a second time, with whatever outcome, commits nothing. */
  lemma RetryRecordsNothing(t: Tables, log: UsageLog, again: UsageLog)
    requires AfterRecord(t, log).Some? && again.correlation == log.correlation
    ensures AfterRecord(AfterRecord(t, log).value, again).None?
  {
    var u := AfterRecord(t, log).value;
    assert u.logs[|t.logs|].correlation == again.correlation;
  }
}
