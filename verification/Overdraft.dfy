/**
 How far below zero the check-then-charge gate lets a balance fall: the gate looks at the
 balance when a request is admitted (app/auth/dependencies.py:118-127), the charge comes
 when the request ends (app/services/usage.py:83-96).
 */
module Overdraft {
  import opened Cost
  import opened Ledger

  predicate OnAccount(session: Session, org: OrgId) {
    match session
    case Serving(o) => o == org
    case Charging(log, _) => log.org == org
    case Depositing(_, _, _) => false
  }

  /** The admitted requests of an organization that are not settled yet. */
  function Inflight(s: State, org: OrgId): set<SessionId> {
    set id | id in s.sessions && OnAccount(s.sessions[id], org)
  }

  /** At every moment of the run at most `width` requests in flight, and no charge above `maxCost`. */
  ghost predicate NarrowRun(steps: seq<Step>, org: OrgId, width: nat, maxCost: nat) {
    && |Inflight(Run(steps), org)| <= width
    && (steps != [] ==> NarrowRun(steps[..|steps| - 1], org, width, maxCost) && CheapStep(steps[|steps| - 1], maxCost))
  }

  predicate CheapStep(step: Step, maxCost: nat) {
    step.LockRow? ==> step.log.cost <= maxCost
  }

  ghost predicate CheapCharges(s: State, org: OrgId, maxCost: nat) {
    forall id :: id in s.sessions && HoldsLock(s.sessions[id], org) ==> s.sessions[id].log.cost <= maxCost
  }

  /** What the requests still to be admitted may charge. */
  function Reserve(width: int, inflight: int, maxCost: nat): int {
    (width - inflight) * maxCost
  }

  /** The credit a deposit write takes back: it writes less than the committed balance. */
  function Fall(s: State, step: Step, org: OrgId): nat {
    if step.WriteDeposit? && DepositWrites(s, step.id) && s.sessions[step.id].org == org then
      var written := NewBalance(s.sessions[step.id].seen, s.sessions[step.id].amount);
      if written < Balance(s.tables, org) then Balance(s.tables, org) - written else 0
    else 0
  }

  function LostCredit(steps: seq<Step>, org: OrgId): nat {
    if steps == [] then 0
    else
      var earlier := steps[..|steps| - 1];
      LostCredit(earlier, org) + Fall(Run(earlier), steps[|steps| - 1], org)
  }

  ghost predicate Margin(s: State, org: OrgId, width: nat, maxCost: nat, lost: nat) {
    org in s.tables.balances ==> s.tables.balances[org] + lost > -Reserve(width, |Inflight(s, org)|, maxCost)
  }

  lemma ReserveSteps(width: int, inflight: int, maxCost: nat)
    ensures Reserve(width, inflight - 1, maxCost) == Reserve(width, inflight, maxCost) + maxCost
    ensures 0 <= inflight <= width ==> 0 <= Reserve(width, inflight, maxCost) <= width * maxCost
  {
  }

  lemma InflightEffect(s: State, step: Step, org: OrgId)
    ensures var before, after := Inflight(s, org), Inflight(Next(s, step), org);
            if step.Register? || step.ReadDeposit? || step.WriteDeposit? || step.LockRow? || step.Idle?
            then after == before
            else after == if step.id in after then before + {step.id} else before - {step.id}
  {
  }

  /**
   A step admits one request on a positive balance, or settles one for at most `maxCost`, or lets
   the balance fall by no more than `fall`.
   */
  ghost predicate Effect(s: State, u: State, org: OrgId, maxCost: nat, fall: nat) {
    var before, after := |Inflight(s, org)|, |Inflight(u, org)|;
    var had, has := s.tables.balances, u.tables.balances;
    org in has ==>
      || (after == before && has[org] > 0 && org !in had)
      || (after == before && org in had && has[org] + fall >= had[org])
      || (after == before + 1 && org in had && has[org] == had[org] > 0)
      || (after == before - 1 && org in had && has[org] >= had[org] - maxCost)
  }

  lemma StepEffect(s: State, step: Step, org: OrgId, maxCost: nat)
    requires Inv(s) && CheapCharges(s, org, maxCost)
    ensures Effect(s, Next(s, step), org, maxCost, Fall(s, step, org))
  {
    match step
    case CommitCharge(_) => ChargeEffect(s, step, org, maxCost);
    case WriteDeposit(_) => WriteEffect(s, step, org, maxCost);
    case Register(_) => InflightEffect(s, step, org);
    case Admit(_, _) => AdmitEffect(s, step, org, maxCost);
    case _ => QuietEffect(s, step, org, maxCost);
  }

  lemma AdmitEffect(s: State, step: Step, org: OrgId, maxCost: nat)
    requires step.Admit?
    ensures Effect(s, Next(s, step), org, maxCost, 0)
  {
    InflightEffect(s, step, org);
    if step.id in s.sessions {
      assert Next(s, step) == s;
    }
  }

  /** Steps that move no balance may only close sessions. */
  lemma QuietEffect(s: State, step: Step, org: OrgId, maxCost: nat)
    requires step.LockRow? || step.CommitLog? || step.Abandon? || step.ReadDeposit? || step.Idle?
    ensures Effect(s, Next(s, step), org, maxCost, 0)
  {
    InflightEffect(s, step, org);
    assert Next(s, step).tables.balances == s.tables.balances;
    var before, after := Inflight(s, org), Inflight(Next(s, step), org);
    if !step.Idle? && step.id in after {
      assert step.id in before || step.LockRow? || step.ReadDeposit?;
      assert after == before;
    }
  }

  lemma WriteEffect(s: State, step: Step, org: OrgId, maxCost: nat)
    requires step.WriteDeposit? && Inv(s)
    ensures Effect(s, Next(s, step), org, maxCost, Fall(s, step, org))
  {
    InflightEffect(s, step, org);
  }

  lemma ChargeEffect(s: State, step: Step, org: OrgId, maxCost: nat)
    requires step.CommitCharge? && Inv(s) && CheapCharges(s, org, maxCost)
    ensures Effect(s, Next(s, step), org, maxCost, 0)
  {
    InflightEffect(s, step, org);
    var id := step.id;
    if id in s.sessions && s.sessions[id].Charging? {
      var Charging(log, seen) := s.sessions[id];
      assert log.org == org ==> HoldsLock(s.sessions[id], org) && id in Inflight(s, org);
    }
  }

  lemma StepKeepsCheapCharges(s: State, step: Step, org: OrgId, maxCost: nat)
    requires CheapStep(step, maxCost) && CheapCharges(s, org, maxCost)
    ensures CheapCharges(Next(s, step), org, maxCost)
  {
  }

  lemma StepKeepsMargin(s: State, step: Step, org: OrgId, width: nat, maxCost: nat, lost: nat)
    requires Inv(s) && CheapStep(step, maxCost)
    requires CheapCharges(s, org, maxCost) && Margin(s, org, width, maxCost, lost)
    requires |Inflight(s, org)| <= width && |Inflight(Next(s, step), org)| <= width
    ensures CheapCharges(Next(s, step), org, maxCost)
    ensures Margin(Next(s, step), org, width, maxCost, lost + Fall(s, step, org))
  {
    StepEffect(s, step, org, maxCost);
    StepKeepsCheapCharges(s, step, org, maxCost);
    ReserveSteps(width, |Inflight(s, org)|, maxCost);
    ReserveSteps(width, |Inflight(Next(s, step), org)|, maxCost);
  }

  /**
   Every interleaving keeps in reserve what requests still to come may charge, short only of the
   credit that deposit writes took back.
   */
  lemma {:induction false} MarginHolds(steps: seq<Step>, org: OrgId, width: nat, maxCost: nat)
    requires NarrowRun(steps, org, width, maxCost)
    ensures CheapCharges(Run(steps), org, maxCost)
    ensures Margin(Run(steps), org, width, maxCost, LostCredit(steps, org))
  {
    if steps == [] {
    } else {
      var earlier := steps[..|steps| - 1];
      MarginHolds(earlier, org, width, maxCost);
      RunKeepsInv(earlier);
      StepKeepsMargin(Run(earlier), steps[|steps| - 1], org, width, maxCost, LostCredit(earlier, org));
    }
  }

  /** A balance stays above `-(width * maxCost)` less the credit deposit writes took back, whatever the interleaving. */
  lemma DebtBound(steps: seq<Step>, org: OrgId, width: nat, maxCost: nat)
    requires NarrowRun(steps, org, width, maxCost)
    requires org in Run(steps).tables.balances
    ensures Run(steps).tables.balances[org] > -(width * maxCost) - LostCredit(steps, org)
  {
    MarginHolds(steps, org, width, maxCost);
    ReserveSteps(width, |Inflight(Run(steps), org)|, maxCost);
  }

  /** The guard the bound needs of deposits: none writes less than the committed balance. */
  ghost predicate Rising(steps: seq<Step>, org: OrgId) {
    forall k :: 0 <= k < |steps| ==> Fall(Run(steps[..k]), steps[k], org) == 0
  }

  lemma RisingSnoc(earlier: seq<Step>, last: Step, org: OrgId)
    ensures Rising(earlier + [last], org) <==> Rising(earlier, org) && Fall(Run(earlier), last, org) == 0
  {
    var steps := earlier + [last];
    assert forall k :: 0 <= k <= |earlier| ==> steps[..k] == earlier[..k];
    assert earlier[..|earlier|] == earlier;
    if Rising(steps, org) {
      forall k | 0 <= k < |earlier| ensures Fall(Run(earlier[..k]), earlier[k], org) == 0 {
        assert Fall(Run(steps[..k]), steps[k], org) == 0;
      }
      assert Fall(Run(steps[..|earlier|]), steps[|earlier|], org) == 0;
    }
  }

  /** Credit is lost exactly when some deposit writes less than the committed balance. */
  lemma {:induction false} LostIffFalls(steps: seq<Step>, org: OrgId)
    ensures LostCredit(steps, org) == 0 <==> Rising(steps, org)
  {
    if steps == [] {
    } else {
      var earlier, last := steps[..|steps| - 1], steps[|steps| - 1];
      LostIffFalls(earlier, org);
      RisingSnoc(earlier, last, org);
      assert steps == earlier + [last];
    }
  }

  /** A run whose deposit writes are all fresh never lowers a balance by one. */
  lemma FreshRises(steps: seq<Step>, org: OrgId)
    requires FreshRun(steps)
    ensures Rising(steps, org)
  {
    forall k | 0 <= k < |steps| ensures Fall(Run(steps[..k]), steps[k], org) == 0 {
      RunKeepsInv(steps[..k]);
      FreshWriteRises(Run(steps[..k]), steps[k], org);
    }
  }

  lemma FreshWriteRises(s: State, step: Step, org: OrgId)
    requires Inv(s) && FreshWrite(s, step)
    ensures Fall(s, step, org) == 0
  {
    if Fall(s, step, org) > 0 {
      StoredIsPositive(s.sessions[step.id].amount);
    }
  }

  lemma StoredIsPositive(amount: Amount)
    requires Enough(amount)
    ensures Stored(amount) >= 0
  {
    assert amount.units >= 0;
  }

  /** While deposits only raise the balance it never reaches `-(width * maxCost)`. */
  lemma OverdraftBound(steps: seq<Step>, org: OrgId, width: nat, maxCost: nat)
    requires NarrowRun(steps, org, width, maxCost) && Rising(steps, org)
    requires org in Run(steps).tables.balances
    ensures Run(steps).tables.balances[org] > -(width * maxCost)
  {
    DebtBound(steps, org, width, maxCost);
    LostIffFalls(steps, org);
  }

  /** In particular while every deposit write is fresh, as when deposits are serialised with charges and each other. */
  lemma FreshBound(steps: seq<Step>, org: OrgId, width: nat, maxCost: nat)
    requires NarrowRun(steps, org, width, maxCost) && FreshRun(steps)
    requires org in Run(steps).tables.balances
    ensures Run(steps).tables.balances[org] > -(width * maxCost)
  {
    FreshRises(steps, org);
    OverdraftBound(steps, org, width, maxCost);
  }

  // ----- extending runs -----

  lemma LostExtend(steps: seq<Step>, step: Step, org: OrgId)
    ensures LostCredit(steps + [step], org) == LostCredit(steps, org) + Fall(Run(steps), step, org)
  {
    assert (steps + [step])[..|steps|] == steps;
  }

  lemma InflightShrinks(s: State, step: Step, org: OrgId)
    requires !step.Admit?
    ensures |Inflight(Next(s, step), org)| <= |Inflight(s, org)|
  {
    InflightEffect(s, step, org);
    var before, after := Inflight(s, org), Inflight(Next(s, step), org);
    if !step.Register? && !step.Idle? && after == before + {step.id} {
      assert step.id in before;
      assert before + {step.id} == before;
    }
  }

  lemma NarrowThen(steps: seq<Step>, step: Step, org: OrgId, width: nat, maxCost: nat)
    requires NarrowRun(steps, org, width, maxCost) && CheapStep(step, maxCost)
    requires |Inflight(Next(Run(steps), step), org)| <= width
    ensures NarrowRun(steps + [step], org, width, maxCost)
  {
    RunExtend(steps, step);
    assert (steps + [step])[..|steps|] == steps;
  }

  lemma NarrowEmpty(org: OrgId, width: nat, maxCost: nat)
    ensures NarrowRun([], org, width, maxCost)
  {
    assert Inflight(EMPTY, org) == {};
  }
}
