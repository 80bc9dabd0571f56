/**
 The daily request counter (app/middleware/rate_limit.py:92-121): a Redis counter primed from
 the usage table, read, compared and incremented in separate commands. Redis answers every
 command but may evict the key. The monthly counter takes the same steps.
 */
module Quota {
  import opened Wrappers

  type Pid = nat

  /**
   Where a check stands: the key was absent, the table was counted, a value is to be judged, the
   request is to be counted.
   */
  datatype Phase = Missed | Primed(count: int, at: int) | Judging(seen: int) | Cleared

  /**
   `counter` and `expires` are the key and whether it has an expiry; `logged` counts today's log
   rows. The rest is history: requests counted, those of them not logged yet, the most that were
   unlogged whenever the table was counted, the requests counted when a check counted the table
   (`at`), and the most increments any command wiped out: those between a count and the priming
   with it, or all of them when an increment finds no key.
   */
  datatype State = State(counter: Option<int>, expires: bool, logged: int,
                         admitted: nat, unlogged: int, peak: int, forgotten: nat, phases: map<Pid, Phase>)

  datatype Step = Get(pid: Pid) | Count(pid: Pid) | Set(pid: Pid) | Judge(pid: Pid) | Incr(pid: Pid)
                | Evict | LogOne | LogForeign

  function Max(a: int, b: int): int {
    if a > b then a else b
  }

  function Prime(s: State, count: int): State {
    s.(counter := Some(count), expires := true)
  }

  function Increment(s: State): State {
    s.(counter := Some(s.counter.GetOr(0) + 1), expires := s.expires && s.counter.Some?,
       admitted := s.admitted + 1, unlogged := s.unlogged + 1,
       forgotten := if s.counter.Some? then s.forgotten else Max(s.forgotten, s.admitted))
  }

  function Next(s: State, step: Step, limit: int): State {
    match step
    case Get(p) =>
      if p in s.phases then s
      else s.(phases := s.phases[p := if s.counter.Some? then Judging(s.counter.value) else Missed])
    case Count(p) =>
      if p in s.phases && s.phases[p] == Missed
      then s.(phases := s.phases[p := Primed(s.logged, s.admitted)], peak := Max(s.peak, s.unlogged))
      else s
    case Set(p) =>
      if p in s.phases && s.phases[p].Primed?
      then Prime(s, s.phases[p].count).(phases := s.phases[p := Judging(s.phases[p].count)],
                                        forgotten := Max(s.forgotten, s.admitted - s.phases[p].at))
      else s
    case Judge(p) =>
      if p in s.phases && s.phases[p].Judging?
      then s.(phases := if s.phases[p].seen >= limit then s.phases - {p} else s.phases[p := Cleared])
      else s
    case Incr(p) =>
      if p in s.phases && s.phases[p] == Cleared
      then Increment(s).(phases := s.phases - {p})
      else s
    case Evict => s.(counter := None, expires := false)
    case LogOne => if s.unlogged > 0 then s.(logged := s.logged + 1, unlogged := s.unlogged - 1) else s
    case LogForeign => s.(logged := s.logged + 1)
  }

  function Run(s: State, steps: seq<Step>, limit: int): State {
    if steps == [] then s
    else Next(Run(s, steps[..|steps| - 1], limit), steps[|steps| - 1], limit)
  }

  lemma RunNext(s: State, steps: seq<Step>, k: nat, limit: int)
    requires k < |steps|
    ensures Run(s, steps[..k + 1], limit) == Next(Run(s, steps[..k], limit), steps[k], limit)
  {
    assert steps[..k + 1][..k] == steps[..k];
  }

  lemma RunExtend(s: State, steps: seq<Step>, step: Step, limit: int)
    ensures Run(s, steps + [step], limit) == Next(Run(s, steps, limit), step, limit)
  {
    assert (steps + [step])[..|steps|] == steps;
  }

  /** A day that starts with `logged` rows, no key and no check under way. */
  function Midnight(logged: int): State {
    State(None, false, logged, 0, 0, 0, 0, map[])
  }

  /**
   How a day may start: nothing counted today, and whatever key and checks under way the night
   left; the source gives a key a minute past midnight, and a lost key leaves one without expiry.
   A limit below one admits nobody, yesterday's checks included.
   */
  ghost predicate Dawn(s: State, limit: int) {
    && s.admitted == 0 && s.unlogged == 0 && s.peak == 0 && s.forgotten == 0 && Accounted(s)
    && (limit <= 0 ==> Pending(s, limit) == {})
  }

  lemma MidnightIsDawn(logged: nat, limit: int)
    ensures Dawn(Midnight(logged), limit)
  {
    assert Pending(Midnight(logged), limit) == {};
  }

  // ----- checks one at a time -----

  /** A check that nothing interrupts. */
  function Check(s: State, limit: int): State {
    var primed := if s.counter.Some? then s else Prime(s, s.logged).(peak := Max(s.peak, s.unlogged));
    if primed.counter.value >= limit then primed else Increment(primed)
  }

  /** The commands of one check; those past a refusal have no effect. */
  function Commands(s: State, p: Pid): seq<Step> {
    (if s.counter.Some? then [] + [Get(p)] else [] + [Get(p)] + [Count(p)] + [Set(p)]) + [Judge(p)] + [Incr(p)]
  }

  /** Reading the counter, priming it on a miss. */
  lemma ReadIsSteps(s: State, p: Pid, limit: int)
    requires p !in s.phases
    ensures var reading := if s.counter.Some? then [] + [Get(p)] else [] + [Get(p)] + [Count(p)] + [Set(p)];
            var primed := if s.counter.Some? then s else Prime(s, s.logged).(peak := Max(s.peak, s.unlogged));
            Run(s, reading, limit) == primed.(phases := s.phases[p := Judging(primed.counter.value)])
  {
    RunExtend(s, [], Get(p), limit);
    if s.counter.None? {
      RunExtend(s, [] + [Get(p)], Count(p), limit);
      RunExtend(s, [] + [Get(p)] + [Count(p)], Set(p), limit);
      assert s.phases[p := Missed][p := Primed(s.logged, s.admitted)][p := Judging(s.logged)]
             == s.phases[p := Judging(s.logged)];
    }
  }

  lemma CheckIsSteps(s: State, p: Pid, limit: int)
    requires p !in s.phases
    ensures Run(s, Commands(s, p), limit) == Check(s, limit)
  {
    var reading := if s.counter.Some? then [] + [Get(p)] else [] + [Get(p)] + [Count(p)] + [Set(p)];
    ReadIsSteps(s, p, limit);
    RunExtend(s, reading, Judge(p), limit);
    RunExtend(s, reading + [Judge(p)], Incr(p), limit);
    var read := Run(s, reading, limit);
    var seen := read.counter.value;
    assert s.phases[p := Judging(seen)] - {p} == s.phases;
    assert s.phases[p := Judging(seen)][p := Cleared] - {p} == s.phases;
  }

  class DailyQuota {
    var counter: Option<int>
    var expires: bool
    var logged: int
    ghost var admitted: nat
    ghost var unlogged: int
    ghost var peak: int
    ghost var forgotten: nat
    ghost var phases: map<Pid, Phase>

    ghost function Snapshot(): State
      reads this
    {
      State(counter, expires, logged, admitted, unlogged, peak, forgotten, phases)
    }

    /** The source's check: get, prime on a miss, compare, increment. */
    method CheckDaily(limit: int) returns (allowed: bool)
      modifies this
      ensures Snapshot() == Check(old(Snapshot()), limit)
      ensures allowed <==> Snapshot().admitted == old(Snapshot()).admitted + 1
    {
      var current;
      if counter.None? {
        current := logged;
        counter, expires := Some(current), true;
        peak := Max(peak, unlogged);
      } else {
        current := counter.value;
      }
      if current >= limit {
        return false;
      }
      counter, expires := Some(counter.GetOr(0) + 1), expires && counter.Some?;
      admitted, unlogged := admitted + 1, unlogged + 1;
      return true;
    }
  }

  datatype Move = Checks | Evicts | Logs | LogsForeign

  function Serial(s: State, move: Move, limit: int): State {
    match move
    case Checks => Check(s, limit)
    case Evicts => Next(s, Evict, limit)
    case Logs => Next(s, LogOne, limit)
    case LogsForeign => Next(s, LogForeign, limit)
  }

  function SerialRun(s: State, moves: seq<Move>, limit: int): State {
    if moves == [] then s
    else Serial(SerialRun(s, moves[..|moves| - 1], limit), moves[|moves| - 1], limit)
  }

  /** A live counter trails the admissions by no more than were unlogged at some priming. */
  ghost predicate Covered(s: State, limit: int) {
    && 0 <= s.unlogged && 0 <= s.peak
    && s.admitted <= s.logged + s.unlogged
    && (s.counter.Some? ==> s.admitted <= s.counter.value + s.peak)
    && s.admitted <= Max(limit, 0) + s.peak
  }

  lemma MoveKeepsCovered(s: State, move: Move, limit: int)
    requires Covered(s, limit)
    ensures Covered(Serial(s, move, limit), limit)
  {
  }

  lemma {:induction false} SerialCovered(dawn: State, moves: seq<Move>, limit: int)
    requires Dawn(dawn, limit)
    ensures Covered(SerialRun(dawn, moves, limit), limit)
  {
    if moves == [] {
    } else {
      var earlier := moves[..|moves| - 1];
      SerialCovered(dawn, earlier, limit);
      MoveKeepsCovered(SerialRun(dawn, earlier, limit), moves[|moves| - 1], limit);
    }
  }

  /** After every move at most `width` admitted requests are unlogged. */
  ghost predicate SlackRun(dawn: State, moves: seq<Move>, limit: int, width: nat) {
    && SerialRun(dawn, moves, limit).unlogged <= width
    && (moves != [] ==> SlackRun(dawn, moves[..|moves| - 1], limit, width))
  }

  /**
   A counter that still admits trails the admissions by less than `width`: the request it primed
   for was unlogged too.
   */
  ghost predicate Trails(s: State, limit: int, width: nat) {
    && 0 <= s.unlogged && s.admitted <= s.logged + s.unlogged
    && (width == 0 ==> s.admitted == 0)
    && (width > 0 ==>
          && s.admitted <= Max(limit, 0) + width - 1
          && (s.counter.Some? && s.counter.value < limit ==> s.admitted <= s.counter.value + width - 1))
    && (s.counter.Some? ==> s.counter.value >= 0) && s.logged >= 0
  }

  lemma MoveKeepsTrails(s: State, move: Move, limit: int, width: nat)
    requires Trails(s, limit, width) && Serial(s, move, limit).unlogged <= width
    ensures Trails(Serial(s, move, limit), limit, width)
  {
  }

  /**
   With checks one at a time, any number of evictions, and never more than `width` admitted
   requests unlogged, a day admits fewer than `limit + width` requests, and none when
   `width` is zero.
   */
  lemma {:induction false} DailyBound(dawn: State, moves: seq<Move>, limit: int, width: nat)
    requires Dawn(dawn, limit) && SlackRun(dawn, moves, limit, width)
    ensures Trails(SerialRun(dawn, moves, limit), limit, width)
    ensures SerialRun(dawn, moves, limit).admitted <= if width == 0 then 0 else Max(limit, 0) + width - 1
  {
    if moves == [] {
    } else {
      var earlier := moves[..|moves| - 1];
      DailyBound(dawn, earlier, limit, width);
      MoveKeepsTrails(SerialRun(dawn, earlier, limit), moves[|moves| - 1], limit, width);
    }
  }

  function EvictionRounds(n: nat): seq<Move> {
    if n == 0 then [] else EvictionRounds(n - 1) + [Checks] + [Evicts]
  }

  lemma SlackThen(dawn: State, moves: seq<Move>, move: Move, limit: int, width: nat)
    ensures SerialRun(dawn, moves + [move], limit) == Serial(SerialRun(dawn, moves, limit), move, limit)
    ensures SlackRun(dawn, moves, limit, width) && SerialRun(dawn, moves + [move], limit).unlogged <= width
       ==> SlackRun(dawn, moves + [move], limit, width)
  {
    assert (moves + [move])[..|moves|] == moves;
  }

  /** The bound is reached for every width `n`: each eviction forgets the requests that are still unlogged. */
  lemma {:induction false} DailyBoundReached(n: nat)
    ensures SlackRun(Midnight(0), EvictionRounds(n), 1, n)
    ensures SerialRun(Midnight(0), EvictionRounds(n), 1)
         == Midnight(0).(admitted := n, unlogged := n, peak := if n == 0 then 0 else n - 1)
  {
    if n == 0 {
    } else {
      var before := EvictionRounds(n - 1);
      DailyBoundReached(n - 1);
      SlackWidens(Midnight(0), before, 1, n - 1);
      SlackThen(Midnight(0), before, Checks, 1, n);
      SlackThen(Midnight(0), before + [Checks], Evicts, 1, n);
    }
  }

  lemma {:induction false} SlackWidens(dawn: State, moves: seq<Move>, limit: int, width: nat)
    requires SlackRun(dawn, moves, limit, width)
    ensures SlackRun(dawn, moves, limit, width + 1)
  {
    if moves == [] {
    } else {
      SlackWidens(dawn, moves[..|moves| - 1], limit, width);
    }
  }

  // ----- interleaved checks on a live counter -----

  predicate Heading(phase: Phase, limit: int) {
    phase == Cleared || (phase.Judging? && phase.seen < limit)
  }

  /** The checks that will still increment the counter. */
  function Pending(s: State, limit: int): set<Pid> {
    set p | p in s.phases && Heading(s.phases[p], limit)
  }

  ghost predicate Live(s: State) {
    s.counter.Some? && forall p :: p in s.phases ==> !s.phases[p].Missed? && !s.phases[p].Primed?
  }

  ghost predicate Overshoot(s: State, limit: int, bound: int) {
    Live(s) && s.counter.value + |Pending(s, limit)| <= bound
  }

  lemma PendingEffect(s: State, step: Step, limit: int)
    requires Live(s) && !step.Evict?
    ensures Live(Next(s, step, limit))
    ensures var before, after := Pending(s, limit), Pending(Next(s, step, limit), limit);
            if step.Incr? && step.pid in s.phases && s.phases[step.pid] == Cleared
            then after == before - {step.pid} && step.pid in before
            else if step.Get? && step.pid !in s.phases && s.counter.value < limit then after == before + {step.pid}
            else after == before
  {
  }

  lemma StepOvershoot(s: State, step: Step, limit: int, bound: int, width: nat)
    requires Overshoot(s, limit, bound) && !step.Evict?
    requires bound >= limit + width - 1
    requires |Next(s, step, limit).phases.Keys| <= width
    ensures Overshoot(Next(s, step, limit), limit, bound)
    ensures Next(s, step, limit).admitted - s.admitted == Next(s, step, limit).counter.value - s.counter.value
  {
    PendingEffect(s, step, limit);
    PendingAtMost(Next(s, step, limit), limit);
  }

  lemma PendingAtMost(s: State, limit: int)
    ensures |Pending(s, limit)| <= |s.phases.Keys|
  {
    Subset(Pending(s, limit), s.phases.Keys);
  }

  lemma {:induction false} Subset<T>(a: set<T>, b: set<T>)
    requires a <= b
    ensures |a| <= |b|
  {
    if a == {} {
    } else {
      var x :| x in a;
      Subset(a - {x}, b - {x});
    }
  }

  /** At most `width` checks at once, and the key is never evicted. */
  ghost predicate LiveRun(s: State, steps: seq<Step>, limit: int, width: nat) {
    && (forall k :: 0 <= k < |steps| ==> !steps[k].Evict?)
    && (forall k :: 0 <= k <= |steps| ==> |Run(s, steps[..k], limit).phases.Keys| <= width)
  }

  /**
   While a primed counter stays, `width` interleaved checks take it to at most `limit + width - 1`,
   or leave it where it was primed; each admission is one increment.
   */
  lemma {:induction false} ConcurrentBound(s: State, steps: seq<Step>, limit: int, width: nat, k: nat)
    requires s.counter.Some? && s.phases == map[] && LiveRun(s, steps, limit, width) && k <= |steps|
    ensures var u := Run(s, steps[..k], limit);
            && Overshoot(u, limit, Max(s.counter.value, limit + width - 1))
            && u.admitted - s.admitted == u.counter.value - s.counter.value
  {
    if k == 0 {
      assert Pending(s, limit) == {};
    } else {
      ConcurrentBound(s, steps, limit, width, k - 1);
      RunNext(s, steps, k - 1, limit);
      StepOvershoot(Run(s, steps[..k - 1], limit), steps[k - 1], limit, Max(s.counter.value, limit + width - 1), width);
    }
  }

  /** With one check at a time the limit is exact. */
  lemma ExactWhenSerial(s: State, steps: seq<Step>, limit: int)
    requires s.counter.Some? && s.phases == map[] && LiveRun(s, steps, limit, 1)
    ensures var u := Run(s, steps, limit);
            u.counter.Some? && u.counter.value <= Max(s.counter.value, limit)
            && u.admitted - s.admitted <= Max(0, limit - s.counter.value)
  {
    assert steps[..|steps|] == steps;
    ConcurrentBound(s, steps, limit, 1, |steps|);
  }

  // ----- a key lost inside a check -----

  ghost predicate Expiring(s: State) {
    s.counter.Some? ==> s.expires
  }

  /** The guard the increment lacks: the key it adds to is still there. */
  predicate FindsKey(s: State, step: Step) {
    step.Incr? && step.pid in s.phases && s.phases[step.pid] == Cleared ==> s.counter.Some?
  }

  /** The counter always carries an expiry exactly when no increment meets an evicted key. */
  lemma ExpiringIffKeyFound(dawn: State, steps: seq<Step>, limit: int)
    requires Expiring(dawn)
    ensures (forall k :: 0 <= k < |steps| ==> FindsKey(Run(dawn, steps[..k], limit), steps[k]))
       <==> (forall k :: 0 <= k <= |steps| ==> Expiring(Run(dawn, steps[..k], limit)))
  {
    var s := dawn;
    if forall k :: 0 <= k < |steps| ==> FindsKey(Run(s, steps[..k], limit), steps[k]) {
      forall k | 0 <= k <= |steps| ensures Expiring(Run(s, steps[..k], limit)) {
        KeyFoundKeepsExpiring(s, steps, limit, k);
      }
    }
    if forall k :: 0 <= k <= |steps| ==> Expiring(Run(s, steps[..k], limit)) {
      forall k | 0 <= k < |steps| ensures FindsKey(Run(s, steps[..k], limit), steps[k]) {
        RunNext(s, steps, k, limit);
        StepExpiring(Run(s, steps[..k], limit), steps[k], limit);
        assert Expiring(Run(s, steps[..k + 1], limit));
      }
    }
  }

  lemma StepExpiring(s: State, step: Step, limit: int)
    requires Expiring(s)
    ensures Expiring(Next(s, step, limit)) <==> FindsKey(s, step)
  {
  }

  lemma {:induction false} KeyFoundKeepsExpiring(s: State, steps: seq<Step>, limit: int, k: nat)
    requires k <= |steps| && Expiring(s)
    requires forall j :: 0 <= j < |steps| ==> FindsKey(Run(s, steps[..j], limit), steps[j])
    ensures Expiring(Run(s, steps[..k], limit))
  {
    if k == 0 {
    } else {
      KeyFoundKeepsExpiring(s, steps, limit, k - 1);
      RunNext(s, steps, k - 1, limit);
      StepExpiring(Run(s, steps[..k - 1], limit), steps[k - 1], limit);
    }
  }

  /** One check whose key is evicted before its increment restarts the count at one, for good. */
  lemma LostKeyRestartsCount(s: State, p: Pid, limit: int)
    requires s.counter.Some? && s.counter.value < limit && p !in s.phases
    ensures var u := Next(Next(Next(Next(s, Get(p), limit), Judge(p), limit), Evict, limit), Incr(p), limit);
            u.counter == Some(1) && !u.expires && u.admitted == s.admitted + 1
  {
  }

  // ----- overlapping checks, with evictions -----

  /** At every moment of the day at most `overlap` checks under way and at most `width` admitted requests unlogged. */
  ghost predicate CrowdedRun(dawn: State, steps: seq<Step>, limit: int, overlap: nat, width: nat) {
    var s := Run(dawn, steps, limit);
    && |s.phases.Keys| <= overlap && s.unlogged <= width
    && (steps != [] ==> CrowdedRun(dawn, steps[..|steps| - 1], limit, overlap, width))
  }

  ghost predicate PhaseAccounted(s: State, phase: Phase) {
    && (phase.Primed? ==> 0 <= phase.count && phase.at <= s.admitted && phase.at <= phase.count + s.peak)
    && (phase.Judging? ==> 0 <= phase.seen)
  }

  /** The counter trails the admissions by what was unlogged when the table was counted, and by what was wiped out. */
  ghost predicate Accounted(s: State) {
    && 0 <= s.unlogged && 0 <= s.peak && 0 <= s.logged && s.admitted <= s.logged + s.unlogged
    && (s.counter.Some? ==> 0 <= s.counter.value && s.admitted <= s.counter.value + s.peak + s.forgotten)
    && forall p :: p in s.phases ==> PhaseAccounted(s, s.phases[p])
  }

  /** Admissions, and the checks that will still be admitted, against the limit; no limit below one admits anybody. */
  ghost predicate Capped(s: State, limit: int, overlap: nat) {
    if limit <= 0 then s.admitted == 0 && Pending(s, limit) == {}
    else s.admitted + |Pending(s, limit)| <= limit - 1 + overlap + s.peak + s.forgotten
  }

  lemma StepAccounted(s: State, step: Step, limit: int)
    requires Accounted(s)
    ensures Accounted(Next(s, step, limit))
  {
    var u := Next(s, step, limit);
    forall p | p in u.phases ensures PhaseAccounted(u, u.phases[p]) {
      assert p in s.phases ==> PhaseAccounted(s, s.phases[p]);
    }
  }

  /** Only reading a value below the limit adds to the checks that will be admitted. */
  lemma HeadingEffect(s: State, step: Step, limit: int)
    ensures var before, after, u := Pending(s, limit), Pending(Next(s, step, limit), limit), Next(s, step, limit);
            if step.Incr? && step.pid in s.phases && s.phases[step.pid] == Cleared
            then after == before - {step.pid} && step.pid in before
            else if (step.Get? || step.Set?) && after != before then u.counter.Some? && u.counter.value < limit
            else after == before
  {
    if step.Get? || step.Set? {
      var before, after := Pending(s, limit), Pending(Next(s, step, limit), limit);
      if step.pid !in after {
        assert after == before;
      }
    }
  }

  lemma StepCapped(s: State, step: Step, limit: int, overlap: nat)
    requires Accounted(s) && Capped(s, limit, overlap)
    requires |Next(s, step, limit).phases.Keys| <= overlap
    ensures Capped(Next(s, step, limit), limit, overlap)
  {
    HeadingEffect(s, step, limit);
    StepAccounted(s, step, limit);
    PendingAtMost(Next(s, step, limit), limit);
  }

  ghost predicate Crowded(s: State, limit: int, overlap: nat, width: nat) {
    Accounted(s) && Capped(s, limit, overlap) && s.peak <= width
  }

  lemma DawnCrowded(dawn: State, limit: int, overlap: nat, width: nat)
    requires Dawn(dawn, limit) && |dawn.phases.Keys| <= overlap
    ensures Crowded(dawn, limit, overlap, width)
  {
    PendingAtMost(dawn, limit);
  }

  lemma StepCrowded(s: State, step: Step, limit: int, overlap: nat, width: nat)
    requires Crowded(s, limit, overlap, width) && s.unlogged <= width
    requires |Next(s, step, limit).phases.Keys| <= overlap
    ensures Crowded(Next(s, step, limit), limit, overlap, width)
  {
    StepAccounted(s, step, limit);
    StepCapped(s, step, limit, overlap);
  }

  lemma {:induction false} CrowdedInvariant(dawn: State, steps: seq<Step>, limit: int, overlap: nat, width: nat)
    requires Dawn(dawn, limit) && CrowdedRun(dawn, steps, limit, overlap, width)
    ensures Crowded(Run(dawn, steps, limit), limit, overlap, width)
  {
    if steps == [] {
      DawnCrowded(dawn, limit, overlap, width);
    } else {
      var earlier := steps[..|steps| - 1];
      CrowdedInvariant(dawn, earlier, limit, overlap, width);
      StepCrowded(Run(dawn, earlier, limit), steps[|steps| - 1], limit, overlap, width);
    }
  }

  /**
   However checks overlap and whenever the key is evicted, a day admits at most the limit less
   one, plus the checks under way, the requests unlogged and the increments wiped out.
   */
  lemma OverlapBound(dawn: State, steps: seq<Step>, limit: int, overlap: nat, width: nat)
    requires Dawn(dawn, limit) && CrowdedRun(dawn, steps, limit, overlap, width)
    ensures var u := Run(dawn, steps, limit);
            u.admitted <= if limit <= 0 then 0 else limit - 1 + overlap + width + u.forgotten
  {
    CrowdedInvariant(dawn, steps, limit, overlap, width);
  }

  /**
   The guard that wipes nothing out: no request was counted since the check counted the table, and
   an increment finds the key unless it is the day's first.
   */
  predicate Remembers(s: State, step: Step) {
    match step
    case Set(p) => p in s.phases && s.phases[p].Primed? ==> s.phases[p].at == s.admitted
    case Incr(p) => p in s.phases && s.phases[p] == Cleared ==> s.counter.Some? || s.admitted == 0
    case _ => true
  }

  ghost predicate RememberingRun(dawn: State, steps: seq<Step>, limit: int) {
    steps != [] ==>
      var earlier := steps[..|steps| - 1];
      RememberingRun(dawn, earlier, limit) && Remembers(Run(dawn, earlier, limit), steps[|steps| - 1])
  }

  lemma {:induction false} AlwaysAccounted(dawn: State, steps: seq<Step>, limit: int)
    requires Dawn(dawn, limit)
    ensures Accounted(Run(dawn, steps, limit))
  {
    if steps == [] {
    } else {
      AlwaysAccounted(dawn, steps[..|steps| - 1], limit);
      StepAccounted(Run(dawn, steps[..|steps| - 1], limit), steps[|steps| - 1], limit);
    }
  }

  lemma StepForgets(s: State, step: Step, limit: int)
    requires Accounted(s)
    ensures Next(s, step, limit).forgotten == 0 <==> s.forgotten == 0 && Remembers(s, step)
  {
    if step.Set? && step.pid in s.phases {
      assert PhaseAccounted(s, s.phases[step.pid]);
    }
  }

  /** Nothing is wiped out exactly when every priming and every increment meets its guard. */
  lemma {:induction false} ForgottenIff(dawn: State, steps: seq<Step>, limit: int)
    requires Dawn(dawn, limit)
    ensures Run(dawn, steps, limit).forgotten == 0 <==> RememberingRun(dawn, steps, limit)
  {
    if steps == [] {
    } else {
      var earlier := steps[..|steps| - 1];
      ForgottenIff(dawn, earlier, limit);
      AlwaysAccounted(dawn, earlier, limit);
      StepForgets(Run(dawn, earlier, limit), steps[|steps| - 1], limit);
    }
  }

  /** Under those guards the limit, the overlap and the unlogged requests bound a day. */
  lemma RememberedBound(dawn: State, steps: seq<Step>, limit: int, overlap: nat, width: nat)
    requires Dawn(dawn, limit) && CrowdedRun(dawn, steps, limit, overlap, width) && RememberingRun(dawn, steps, limit)
    ensures Run(dawn, steps, limit).admitted <= if limit <= 0 then 0 else limit - 1 + overlap + width
  {
    OverlapBound(dawn, steps, limit, overlap, width);
    ForgottenIff(dawn, steps, limit);
  }
}
