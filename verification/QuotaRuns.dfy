/**
 Days at the edge of the daily counter's bounds (app/middleware/rate_limit.py:92-121): each
 guard of the overlap bound is needed, and the bound is reached.
 */
module QuotaRuns {
  import opened Wrappers
  import opened Quota

  /** A limit, the checks under way and the requests unlogged at most, and whether every step meets its guard. */
  datatype Setting = Setting(limit: int, overlap: nat, width: nat, guarded: bool)

  /** A day that starts with nothing logged comes to `s`. */
  ghost predicate Reaches(steps: seq<Step>, s: State, c: Setting) {
    && Run(Midnight(0), steps, c.limit) == s
    && CrowdedRun(Midnight(0), steps, c.limit, c.overlap, c.width)
    && (c.guarded ==> RememberingRun(Midnight(0), steps, c.limit))
  }

  lemma Begins(c: Setting)
    ensures Reaches([], Midnight(0), c)
  {
  }

  lemma Goes(steps: seq<Step>, s: State, c: Setting, step: Step)
    requires Reaches(steps, s, c) && (c.guarded ==> Remembers(s, step))
    requires var u := Next(s, step, c.limit); |u.phases.Keys| <= c.overlap && u.unlogged <= c.width
    ensures Reaches(steps + [step], Next(s, step, c.limit), c)
  {
    RunExtend(Midnight(0), steps, step, c.limit);
    assert (steps + [step])[..|steps|] == steps;
  }

  // ----- single commands -----

  lemma Misses(steps: seq<Step>, s: State, c: Setting, p: Pid, phases: map<Pid, Phase>)
    requires Reaches(steps, s, c) && s.counter.None? && p !in s.phases && s.unlogged <= c.width
    requires phases == s.phases[p := Missed] && |s.phases.Keys| < c.overlap
    ensures Reaches(steps + [Get(p)], s.(phases := phases), c)
  {
    assert phases.Keys == s.phases.Keys + {p};
    Goes(steps, s, c, Get(p));
  }

  lemma Counts(steps: seq<Step>, s: State, c: Setting, p: Pid, phases: map<Pid, Phase>)
    requires Reaches(steps, s, c) && p in s.phases && s.phases[p] == Missed && s.unlogged <= c.width
    requires phases == s.phases[p := Primed(s.logged, s.admitted)]
    ensures Reaches(steps + [Count(p)], s.(peak := Max(s.peak, s.unlogged), phases := phases), c)
  {
    assert phases.Keys == s.phases.Keys;
    Goes(steps, s, c, Count(p));
  }

  lemma ReadsOne(s: State, limit: int, p: Pid)
    requires p !in s.phases && s.counter.Some?
    ensures Next(s, Get(p), limit) == s.(phases := s.phases[p := Judging(s.counter.value)])
    ensures |Next(s, Get(p), limit).phases.Keys| == |s.phases.Keys| + 1
  {
    assert s.phases[p := Judging(s.counter.value)].Keys == s.phases.Keys + {p};
  }

  lemma Reads(steps: seq<Step>, s: State, c: Setting, p: Pid)
    requires Reaches(steps, s, c) && p !in s.phases && s.counter.Some?
    requires s.unlogged <= c.width && |s.phases.Keys| < c.overlap
    ensures Reaches(steps + [Get(p)], s.(phases := s.phases[p := Judging(s.counter.value)]), c)
  {
    ReadsOne(s, c.limit, p);
    Goes(steps, s, c, Get(p));
  }

  lemma Clears(s: State, limit: int, p: Pid)
    requires p in s.phases && s.phases[p].Judging? && s.phases[p].seen < limit
    ensures Next(s, Judge(p), limit) == s.(phases := s.phases[p := Cleared])
    ensures Next(s, Judge(p), limit).phases.Keys == s.phases.Keys
  {
  }

  /** The counter primed by check `p` with the zero it counted, whatever it was. */
  function Zeroed(s: State, p: Pid, at: nat): State {
    State(Some(0), true, s.logged, s.admitted, s.unlogged, s.peak, Max(s.forgotten, s.admitted - at),
          s.phases[p := Judging(0)])
  }

  lemma PrimedZero(s: State, limit: int, p: Pid, at: nat)
    requires p in s.phases && s.phases[p] == Primed(0, at)
    ensures Next(s, Set(p), limit) == Zeroed(s, p, at) && Zeroed(s, p, at).phases.Keys == s.phases.Keys
  {
  }

  // ----- requests admitted and logged -----

  function AdmittedOne(s: State): State
    requires s.counter.Some?
  {
    s.(counter := Some(s.counter.value + 1), logged := s.logged + 1, admitted := s.admitted + 1)
  }

  /** The increment of a cleared check, and the log of its request. */
  lemma Counted(steps: seq<Step>, s: State, c: Setting, p: Pid) returns (more: seq<Step>)
    requires Reaches(steps, s, c) && s.unlogged == 0 && c.width > 0 && p in s.phases && s.phases[p] == Cleared
    requires c.guarded ==> s.counter.Some?
    ensures Reaches(more, Increment(s).(unlogged := 0, logged := s.logged + 1, phases := s.phases - {p}), c)
  {
    var b := Next(s, Incr(p), c.limit);
    assert s.phases.Keys == b.phases.Keys + {p};
    Goes(steps, s, c, Incr(p));
    Goes(steps + [Incr(p)], b, c, LogOne);
    more := steps + [Incr(p)] + [LogOne];
  }

  lemma Overwritten(phases: map<Pid, Phase>, p: Pid, phase: Phase)
    ensures phases[p := phase] - {p} == phases - {p}
    ensures p !in phases ==> phases[p := phase] - {p} == phases
  {
  }

  lemma ClearsIn(steps: seq<Step>, s: State, c: Setting, p: Pid)
    requires Reaches(steps, s, c) && p in s.phases && s.phases[p].Judging? && s.phases[p].seen < c.limit
    requires s.unlogged <= c.width
    ensures Reaches(steps + [Judge(p)], s.(phases := s.phases[p := Cleared]), c)
  {
    Clears(s, c.limit, p);
    Goes(steps, s, c, Judge(p));
  }

  lemma AfterClearing(s: State, p: Pid)
    requires s.unlogged == 0 && s.counter.Some? && p in s.phases
    ensures var b := s.(phases := s.phases[p := Cleared]);
            Increment(b).(unlogged := 0, logged := b.logged + 1, phases := b.phases - {p})
            == AdmittedOne(s).(phases := s.phases - {p})
  {
    Overwritten(s.phases, p, Cleared);
  }

  /** The rest of a check that has read a value below the limit, and the log of its request. */
  lemma JudgedIn(steps: seq<Step>, s: State, c: Setting, p: Pid) returns (more: seq<Step>)
    requires Reaches(steps, s, c) && s.unlogged == 0 && c.width > 0 && s.counter.Some?
    requires p in s.phases && s.phases[p].Judging? && s.phases[p].seen < c.limit
    ensures Reaches(more, AdmittedOne(s).(phases := s.phases - {p}), c)
  {
    ClearsIn(steps, s, c, p);
    AfterClearing(s, p);
    more := Counted(steps + [Judge(p)], s.(phases := s.phases[p := Cleared]), c, p);
  }

  lemma AfterReading(s: State, a: State, p: Pid)
    requires s.counter.Some? && p !in s.phases && a == s.(phases := s.phases[p := Judging(s.counter.value)])
    ensures AdmittedOne(a).(phases := a.phases - {p}) == AdmittedOne(s)
  {
    Overwritten(s.phases, p, Judging(s.counter.value));
  }

  /** An admission read, judged, counted and logged on a live counter while others wait. */
  lemma AdmitsOne(steps: seq<Step>, s: State, c: Setting, p: Pid) returns (more: seq<Step>)
    requires Reaches(steps, s, c) && p !in s.phases && s.unlogged == 0 && c.width > 0
    requires s.counter.Some? && s.counter.value < c.limit && |s.phases.Keys| < c.overlap
    ensures Reaches(more, AdmittedOne(s), c)
  {
    var a := s.(phases := s.phases[p := Judging(s.counter.value)]);
    Reads(steps, s, c, p);
    AfterReading(s, a, p);
    more := JudgedIn(steps + [Get(p)], a, c, p);
  }

  function AdmittedMany(s: State, n: nat): State
    requires s.counter.Some?
  {
    s.(counter := Some(s.counter.value + n), logged := s.logged + n, admitted := s.admitted + n)
  }

  lemma OneThenMany(s: State, n: nat)
    requires s.counter.Some? && n > 0
    ensures AdmittedMany(AdmittedOne(s), n - 1) == AdmittedMany(s, n) && AdmittedMany(s, 0) == s
  {
  }

  /** Checks one after the other, each admitted and logged, until the counter has risen by `n`. */
  lemma {:induction false} AdmitsMany(steps: seq<Step>, s: State, c: Setting, p: Pid, n: nat) returns (more: seq<Step>)
    requires Reaches(steps, s, c) && p !in s.phases && s.unlogged == 0 && c.width > 0
    requires s.counter.Some? && s.counter.value + n <= c.limit && |s.phases.Keys| < c.overlap
    ensures Reaches(more, AdmittedMany(s, n), c)
    decreases n
  {
    if n == 0 {
      more := steps;
    } else {
      var one := AdmitsOne(steps, s, c, p);
      OneThenMany(s, n);
      assert AdmittedOne(s).phases == s.phases && AdmittedOne(s).unlogged == 0;
      more := AdmitsMany(one, AdmittedOne(s), c, p, n - 1);
    }
  }

  /** Check `p` primes the counter with the zero it counted, and is admitted. */
  lemma PrimesWithZero(steps: seq<Step>, s: State, c: Setting, p: Pid) returns (more: seq<Step>)
    requires Reaches(steps, s, c) && !c.guarded && c.limit > 0 && c.width > 0 && s.unlogged == 0
    requires p in s.phases && s.phases[p] == Primed(0, 0) && |s.phases.Keys| <= c.overlap
    ensures Reaches(more, AdmittedOne(Zeroed(s, p, 0)).(phases := s.phases - {p}), c)
  {
    PrimedZero(s, c.limit, p, 0);
    Goes(steps, s, c, Set(p));
    more := JudgedIn(steps + [Set(p)], Zeroed(s, p, 0), c, p);
    assert s.phases[p := Judging(0)] - {p} == s.phases - {p};
  }

  // ----- the guards are needed -----

  function Pair(limit: int): Setting {
    Setting(limit, 2, 1, false)
  }

  /** Checks 1 and 2 both miss the key and count an empty table. */
  lemma BothCount(limit: int) returns (steps: seq<Step>)
    ensures Reaches(steps, Midnight(0).(phases := map[1 := Primed(0, 0), 2 := Primed(0, 0)]), Pair(limit))
  {
    var missed := BothMiss(limit);
    var s := Midnight(0);
    var c0, c1 := map[1 := Missed, 2 := Missed], map[1 := Primed(0, 0), 2 := Missed];
    var c2 := map[1 := Primed(0, 0), 2 := Primed(0, 0)];
    assert c1 == c0[1 := Primed(0, 0)] && c2 == c1[2 := Primed(0, 0)];
    Counts(missed, s.(phases := c0), Pair(limit), 1, c1);
    Counts(missed + [Count(1)], s.(phases := c1), Pair(limit), 2, c2);
    steps := missed + [Count(1)] + [Count(2)];
  }

  lemma BothMiss(limit: int) returns (steps: seq<Step>)
    ensures Reaches(steps, Midnight(0).(phases := map[1 := Missed, 2 := Missed]), Pair(limit))
  {
    var s := Midnight(0);
    var m1, m2 := map[1 := Missed], map[1 := Missed, 2 := Missed];
    assert m1.Keys == {1} && m1 == s.phases[1 := Missed] && m2 == m1[2 := Missed];
    Begins(Pair(limit));
    Misses([], s, Pair(limit), 1, m1);
    Misses([] + [Get(1)], s.(phases := m1), Pair(limit), 2, m2);
    steps := [] + [Get(1)] + [Get(2)];
  }

  /** A day on which `n` requests were admitted and logged and the counter stands at `value`. */
  function Day(value: int, expires: bool, n: nat, forgotten: nat, phases: map<Pid, Phase>): State {
    State(Some(value), expires, n, n, 0, 0, forgotten, phases)
  }

  /** The first of two checks primes the counter, and requests are admitted until it stands at the limit. */
  lemma FirstFills(limit: int, counter: Option<int>, phases: map<Pid, Phase>, counted: seq<Step>, left: map<Pid, Phase>)
    returns (steps: seq<Step>)
    requires limit > 0 && 1 in phases && phases[1] == Primed(0, 0) && left == phases - {1}
    requires |phases.Keys| == 2 && |left.Keys| == 1
    requires Reaches(counted, State(counter, counter.Some?, 0, 0, 0, 0, 0, phases), Pair(limit))
    ensures Reaches(steps, Day(limit, true, limit, 0, left), Pair(limit))
  {
    var primed := PrimesWithZero(counted, State(counter, counter.Some?, 0, 0, 0, 0, 0, phases), Pair(limit), 1);
    steps := AdmitsMany(primed, Day(1, true, 1, 0, left), Pair(limit), 1, limit - 1);
  }

  lemma StaleWaits(limit: int) returns (steps: seq<Step>)
    requires limit > 0
    ensures Reaches(steps, Day(limit, true, limit, 0, map[2 := Primed(0, 0)]), Pair(limit))
  {
    var counted := BothCount(limit);
    var both, left := map[1 := Primed(0, 0), 2 := Primed(0, 0)], map[2 := Primed(0, 0)];
    assert both.Keys == {1, 2} && left.Keys == {2} && both - {1} == left;
    steps := FirstFills(limit, None, both, counted, left);
  }

  lemma StalePrimes(limit: int) returns (steps: seq<Step>)
    requires limit > 0
    ensures Reaches(steps, Day(1, true, limit + 1, limit, map[]), Pair(limit))
  {
    var waiting := StaleWaits(limit);
    var left := map[2 := Primed(0, 0)];
    assert left.Keys == {2} && left - {2} == map[];
    steps := PrimesWithZero(waiting, Day(limit, true, limit, 0, left), Pair(limit), 2);
  }

  /**
   The guard of the priming is needed: with two checks at a time and one request unlogged, a
   check that counted before the others were admitted wipes out a whole limit's increments, and
   another limit is admitted.
   */
  lemma StalePrimingForgets(limit: int) returns (steps: seq<Step>)
    requires limit > 0
    ensures CrowdedRun(Midnight(0), steps, limit, 2, 1)
    ensures var s := Run(Midnight(0), steps, limit); s.admitted == 2 * limit && s.forgotten == limit
  {
    var again := StalePrimes(limit);
    steps := AdmitsMany(again, Day(1, true, limit + 1, limit, map[]), Pair(limit), 1, limit - 1);
  }

  /**
   The guard of the increment is needed: when the key is evicted under a cleared check, its
   increment wipes out a whole limit's.
   */
  lemma LostKeyForgets(limit: int) returns (steps: seq<Step>)
    requires limit > 0
    ensures CrowdedRun(Midnight(0), steps, limit, 2, 1)
    ensures var s := Run(Midnight(0), steps, limit); s.admitted == 2 * limit && s.forgotten == limit
  {
    var lost := KeyIsLost(limit);
    steps := AdmitsMany(lost, Day(1, false, limit + 1, limit, map[]), Pair(limit), 1, limit - 1);
  }

  lemma KeyIsLost(limit: int) returns (steps: seq<Step>)
    requires limit > 0
    ensures Reaches(steps, Day(1, false, limit + 1, limit, map[]), Pair(limit))
  {
    var full := ClearedWaits(limit);
    var u := Day(limit, true, limit, 0, map[2 := Cleared]);
    assert u.phases.Keys == {2};
    Goes(full, u, Pair(limit), Evict);
    CountsFromOne(limit);
    steps := Counted(full + [Evict], u.(counter := None, expires := false), Pair(limit), 2);
  }

  lemma CountsFromOne(limit: int)
    requires limit > 0
    ensures var s := State(None, false, limit, limit, 0, 0, 0, map[2 := Cleared]);
            Increment(s).(unlogged := 0, logged := limit + 1, phases := s.phases - {2})
              == Day(1, false, limit + 1, limit, map[])
  {
    assert map[2 := Cleared] - {2} == map[];
  }

  /** A limit's requests admitted and logged, and check 2 cleared before any was counted. */
  lemma ClearedWaits(limit: int) returns (steps: seq<Step>)
    requires limit > 0
    ensures Reaches(steps, Day(limit, true, limit, 0, map[2 := Cleared]), Pair(limit))
  {
    var cleared := ClearsSecond(limit);
    var both, left := map[1 := Primed(0, 0), 2 := Cleared], map[2 := Cleared];
    assert both.Keys == {1, 2} && left.Keys == {2} && both - {1} == left;
    steps := FirstFills(limit, Some(0), both, cleared, left);
  }

  lemma ClearsSecond(limit: int) returns (steps: seq<Step>)
    requires limit > 0
    ensures Reaches(steps, State(Some(0), true, 0, 0, 0, 0, 0, map[1 := Primed(0, 0), 2 := Cleared]), Pair(limit))
  {
    var counted := BothCount(limit);
    var s := Midnight(0).(phases := map[1 := Primed(0, 0), 2 := Primed(0, 0)]);
    var a := State(Some(0), true, 0, 0, 0, 0, 0, map[1 := Primed(0, 0), 2 := Judging(0)]);
    assert Next(s, Set(2), limit) == a && a.phases.Keys == {1, 2};
    Goes(counted, s, Pair(limit), Set(2));
    Clears(a, limit, 2);
    assert a.phases[2 := Cleared] == map[1 := Primed(0, 0), 2 := Cleared];
    Goes(counted + [Set(2)], a, Pair(limit), Judge(2));
    steps := counted + [Set(2)] + [Judge(2)];
  }

  // ----- three checks count before any primes -----

  const TRIO := Setting(1, 3, 1, false)

  lemma TwoMiss()
    ensures Reaches([Get(1), Get(2)], Midnight(0).(phases := map[1 := Missed, 2 := Missed]), TRIO)
  {
    var s := Midnight(0);
    var m1, m2 := map[1 := Missed], map[1 := Missed, 2 := Missed];
    assert m1.Keys == {1};
    assert m1 == s.phases[1 := Missed] && m2 == m1[2 := Missed];
    Begins(TRIO);
    Misses([], s, TRIO, 1, m1);
    Misses([Get(1)], s.(phases := m1), TRIO, 2, m2);
  }

  lemma AllMiss() returns (steps: seq<Step>)
    ensures Reaches(steps, Midnight(0).(phases := map[1 := Missed, 2 := Missed, 3 := Missed]), TRIO)
  {
    var m2, m3 := map[1 := Missed, 2 := Missed], map[1 := Missed, 2 := Missed, 3 := Missed];
    assert m2.Keys == {1, 2} && m3 == m2[3 := Missed];
    TwoMiss();
    Misses([Get(1), Get(2)], Midnight(0).(phases := m2), TRIO, 3, m3);
    steps := [Get(1), Get(2)] + [Get(3)];
  }

  lemma AllCount() returns (steps: seq<Step>)
    ensures Reaches(steps, Midnight(0).(phases := map[1 := Primed(0, 0), 2 := Primed(0, 0), 3 := Primed(0, 0)]), TRIO)
  {
    var missed := AllMiss();
    var s := Midnight(0);
    var c0 := map[1 := Missed, 2 := Missed, 3 := Missed];
    var c1 := map[1 := Primed(0, 0), 2 := Missed, 3 := Missed];
    var c2 := map[1 := Primed(0, 0), 2 := Primed(0, 0), 3 := Missed];
    var c3 := map[1 := Primed(0, 0), 2 := Primed(0, 0), 3 := Primed(0, 0)];
    assert c1 == c0[1 := Primed(0, 0)] && c2 == c1[2 := Primed(0, 0)] && c3 == c2[3 := Primed(0, 0)];
    Counts(missed, s.(phases := c0), TRIO, 1, c1);
    Counts(missed + [Count(1)], s.(phases := c1), TRIO, 2, c2);
    Counts(missed + [Count(1)] + [Count(2)], s.(phases := c2), TRIO, 3, c3);
    steps := missed + [Count(1)] + [Count(2)] + [Count(3)];
  }

  lemma NextPrimes(steps: seq<Step>, n: nat, forgotten: nat, phases: map<Pid, Phase>, p: Pid, left: map<Pid, Phase>)
    returns (more: seq<Step>)
    requires Reaches(steps, Day(1, true, n, forgotten, phases), TRIO) && p in phases && phases[p] == Primed(0, 0)
    requires |phases.Keys| <= 3 && left == phases - {p} && forgotten <= n
    ensures Reaches(more, Day(1, true, n + 1, n, left), TRIO)
  {
    more := PrimesWithZero(steps, Day(1, true, n, forgotten, phases), TRIO, p);
  }

  lemma PrimedKeys()
    ensures var all := map[1 := Primed(0, 0), 2 := Primed(0, 0), 3 := Primed(0, 0)];
            all.Keys == {1, 2, 3} && all - {1} == map[2 := Primed(0, 0), 3 := Primed(0, 0)]
  {
  }

  lemma FirstOfThree() returns (steps: seq<Step>)
    ensures Reaches(steps, Day(1, true, 1, 0, map[2 := Primed(0, 0), 3 := Primed(0, 0)]), TRIO)
  {
    var counted := AllCount();
    var all := map[1 := Primed(0, 0), 2 := Primed(0, 0), 3 := Primed(0, 0)];
    PrimedKeys();
    steps := PrimesWithZero(counted, Midnight(0).(phases := all), TRIO, 1);
  }

  /** They are all admitted under a limit of one, with never more than one request unlogged. */
  lemma OverlappedPrimings() returns (steps: seq<Step>)
    ensures CrowdedRun(Midnight(0), steps, 1, 3, 1)
    ensures var s := Run(Midnight(0), steps, 1); s.admitted == 3 && s.peak == 0 && s.unlogged == 0
  {
    var one := FirstOfThree();
    var two, three := map[2 := Primed(0, 0), 3 := Primed(0, 0)], map[3 := Primed(0, 0)];
    assert two.Keys == {2, 3} && three.Keys == {3} && two - {2} == three && three - {3} == map[];
    var second := NextPrimes(one, 1, 0, two, 2, three);
    steps := NextPrimes(second, 2, 1, three, 3, map[]);
  }

  // ----- the bound is reached with nothing forgotten -----

  /** `n` requests admitted and unlogged, the key evicted after each. */
  function Unlogged(n: nat): State {
    State(None, false, 0, n, n, if n == 0 then 0 else n - 1, 0, map[])
  }

  /** A check counts the empty table with `n` requests unlogged. */
  lemma CountsUnlogged(steps: seq<Step>, n: nat, c: Setting) returns (more: seq<Step>)
    requires Reaches(steps, Unlogged(n), c) && n <= c.width && c.overlap > 0
    ensures Reaches(more, State(None, false, 0, n, n, n, 0, map[0 := Primed(0, n)]), c)
  {
    var m1, m2 := map[0 := Missed], map[0 := Primed(0, n)];
    var s := Unlogged(n);
    assert m1 == s.phases[0 := Missed] && m2 == m1[0 := Primed(0, n)];
    Misses(steps, s, c, 0, m1);
    Counts(steps + [Get(0)], s.(phases := m1), c, 0, m2);
    more := steps + [Get(0)] + [Count(0)];
  }

  lemma PrimesUnlogged(steps: seq<Step>, n: nat, c: Setting) returns (more: seq<Step>)
    requires Reaches(steps, State(None, false, 0, n, n, n, 0, map[0 := Primed(0, n)]), c)
    requires n < c.width && c.overlap > 0 && c.limit > 0
    ensures Reaches(more, State(Some(0), true, 0, n, n, n, 0, map[0 := Cleared]), c)
  {
    var s := State(None, false, 0, n, n, n, 0, map[0 := Primed(0, n)]);
    PrimedZero(s, c.limit, 0, n);
    var a := State(Some(0), true, 0, n, n, n, 0, map[0 := Judging(0)]);
    assert Zeroed(s, 0, n) == a && a.phases.Keys == {0};
    Goes(steps, s, c, Set(0));
    Clears(a, c.limit, 0);
    assert a.phases[0 := Cleared] == map[0 := Cleared];
    Goes(steps + [Set(0)], a, c, Judge(0));
    more := steps + [Set(0)] + [Judge(0)];
  }

  lemma LosesOne(steps: seq<Step>, n: nat, c: Setting) returns (more: seq<Step>)
    requires Reaches(steps, State(Some(0), true, 0, n, n, n, 0, map[0 := Cleared]), c) && n < c.width
    ensures Reaches(more, Unlogged(n + 1), c)
  {
    var s := State(Some(0), true, 0, n, n, n, 0, map[0 := Cleared]);
    var a := State(Some(1), true, 0, n + 1, n + 1, n, 0, map[]);
    assert s.phases - {0} == map[];
    assert Next(s, Incr(0), c.limit) == a;
    Goes(steps, s, c, Incr(0));
    Goes(steps + [Incr(0)], a, c, Evict);
    more := steps + [Incr(0)] + [Evict];
  }

  lemma {:induction false} ReachesUnlogged(n: nat, c: Setting) returns (steps: seq<Step>)
    requires n <= c.width && c.overlap > 0 && c.limit > 0
    ensures Reaches(steps, Unlogged(n), c)
    decreases n
  {
    if n == 0 {
      Begins(c);
      steps := [];
    } else {
      var before := ReachesUnlogged(n - 1, c);
      var counted := CountsUnlogged(before, n - 1, c);
      var cleared := PrimesUnlogged(counted, n - 1, c);
      steps := LosesOne(cleared, n - 1, c);
    }
  }

  lemma {:induction false} LogsAll(steps: seq<Step>, s: State, c: Setting, n: nat) returns (more: seq<Step>)
    requires Reaches(steps, s, c) && s.unlogged == n <= c.width && |s.phases.Keys| <= c.overlap
    ensures Reaches(more, s.(logged := s.logged + n, unlogged := 0), c)
    decreases n
  {
    if n == 0 {
      more := steps;
    } else {
      Goes(steps, s, c, LogOne);
      more := LogsAll(steps + [LogOne], s.(logged := s.logged + 1, unlogged := n - 1), c, n - 1);
    }
  }

  /** The pids below `n`. */
  function Firsts(n: nat): (pids: set<Pid>)
    ensures |pids| == n && forall p: Pid :: p in pids <==> p < n
  {
    if n == 0 then {} else Firsts(n - 1) + {n - 1}
  }

  /** `n` checks have read a value below the limit. */
  ghost predicate Waiting(phases: map<Pid, Phase>, n: nat, limit: int) {
    phases.Keys == Firsts(n) && forall p :: p in phases ==> phases[p].Judging? && phases[p].seen < limit
  }

  lemma OneMoreWaits(phases: map<Pid, Phase>, n: nat, limit: int, seen: int)
    requires Waiting(phases, n, limit) && seen < limit
    ensures n !in phases && |phases.Keys| == n && Waiting(phases[n := Judging(seen)], n + 1, limit)
  {
    assert phases[n := Judging(seen)].Keys == Firsts(n) + {n} == Firsts(n + 1);
  }

  lemma OneLessWaits(phases: map<Pid, Phase>, n: nat, limit: int)
    requires Waiting(phases, n, limit) && n > 0
    ensures n - 1 in phases && Waiting(phases - {n - 1}, n - 1, limit)
  {
    assert (phases - {n - 1}).Keys == Firsts(n) - {n - 1} == Firsts(n - 1);
  }

  lemma {:induction false} WaitsFill(steps: seq<Step>, s: State, c: Setting, n: nat)
    returns (more: seq<Step>, phases: map<Pid, Phase>)
    requires Reaches(steps, s, c) && s.counter.Some? && s.counter.value < c.limit && s.unlogged <= c.width
    requires Waiting(s.phases, n, c.limit) && n <= c.overlap
    ensures Reaches(more, s.(phases := phases), c) && Waiting(phases, c.overlap, c.limit)
    decreases c.overlap - n
  {
    if n == c.overlap {
      more, phases := steps, s.phases;
    } else {
      OneMoreWaits(s.phases, n, c.limit, s.counter.value);
      ReadsOne(s, c.limit, n);
      Goes(steps, s, c, Get(n));
      more, phases := WaitsFill(steps + [Get(n)], s.(phases := s.phases[n := Judging(s.counter.value)]), c, n + 1);
    }
  }

  /** `n` requests admitted and logged, and nobody left waiting. */
  function Drained(s: State, n: nat): State
    requires s.counter.Some?
  {
    AdmittedMany(s, n).(phases := map[])
  }

  lemma OneThenDrained(s: State, n: nat, left: map<Pid, Phase>)
    requires s.counter.Some? && n > 0
    ensures Drained(AdmittedOne(s).(phases := left), n - 1) == Drained(s, n)
  {
  }

  lemma {:induction false} WaitsDrain(steps: seq<Step>, s: State, c: Setting, n: nat) returns (more: seq<Step>)
    requires Reaches(steps, s, c) && s.counter.Some? && s.unlogged == 0 && c.width > 0 && Waiting(s.phases, n, c.limit)
    ensures Reaches(more, Drained(s, n), c)
    decreases n
  {
    if n == 0 {
      assert s.phases == map[];
      more := steps;
    } else {
      OneLessWaits(s.phases, n, c.limit);
      var one := JudgedIn(steps, s, c, n - 1);
      OneThenDrained(s, n, s.phases - {n - 1});
      more := WaitsDrain(one, AdmittedOne(s).(phases := s.phases - {n - 1}), c, n - 1);
    }
  }

  /**
   The counter stands one below the limit, at most one check waits, and `width` requests more than
   that were admitted.
   */
  lemma NearLimit(c: Setting) returns (steps: seq<Step>, s: State, n: nat)
    requires c.limit > 0 && c.width > 0 && c.overlap > 0
    ensures Reaches(steps, s, c) && s.counter == Some(c.limit - 1) && s.unlogged == 0
    ensures s.admitted == c.limit - 1 + c.width && Waiting(s.phases, n, c.limit) && n <= 1
  {
    if c.limit == 1 {
      steps := PrimedAfterLogs(c);
      s, n := State(Some(0), true, c.width, c.width, 0, c.width, 0, map[0 := Judging(0)]), 1;
      assert s.phases.Keys == {0} == Firsts(1) by { assert Firsts(0) == {}; }
    } else {
      s, n := State(Some(c.limit - 1), true, c.width + c.limit - 1, c.width + c.limit - 1, 0, c.width, 0, map[]), 0;
      steps := AdmitsUpToLimit(c);
      assert s.phases.Keys == {} == Firsts(0);
    }
  }

  lemma AdmitsUpToLimit(c: Setting) returns (steps: seq<Step>)
    requires c.limit > 1 && c.width > 0 && c.overlap > 0
    ensures var n := c.width + c.limit - 1;
            Reaches(steps, State(Some(c.limit - 1), true, n, n, 0, c.width, 0, map[]), c)
  {
    var one := FirstAfterLogs(c);
    var s := State(Some(1), true, c.width + 1, c.width + 1, 0, c.width, 0, map[]);
    steps := AdmitsMany(one, s, c, 0, c.limit - 2);
  }

  lemma FirstAfterLogs(c: Setting) returns (steps: seq<Step>)
    requires c.limit > 1 && c.width > 0 && c.overlap > 0
    ensures Reaches(steps, State(Some(1), true, c.width + 1, c.width + 1, 0, c.width, 0, map[]), c)
  {
    var primed := PrimedAfterLogs(c);
    var s := State(Some(0), true, c.width, c.width, 0, c.width, 0, map[0 := Judging(0)]);
    assert s.phases - {0} == map[];
    steps := JudgedIn(primed, s, c, 0);
  }

  /** A check that counted before `width` requests were logged primes after they are. */
  lemma PrimedAfterLogs(c: Setting) returns (steps: seq<Step>)
    requires c.limit > 0 && c.width > 0 && c.overlap > 0
    ensures Reaches(steps, State(Some(0), true, c.width, c.width, 0, c.width, 0, map[0 := Judging(0)]), c)
  {
    var w := c.width;
    var unlogged := ReachesUnlogged(w, c);
    var counted := CountsUnlogged(unlogged, w, c);
    var a := State(None, false, 0, w, w, w, 0, map[0 := Primed(0, w)]);
    assert a.phases.Keys == {0};
    var logged := LogsAll(counted, a, c, w);
    var b := State(None, false, w, w, 0, w, 0, map[0 := Primed(0, w)]);
    PrimedZero(b, c.limit, 0, w);
    assert Zeroed(b, 0, w) == State(Some(0), true, w, w, 0, w, 0, map[0 := Judging(0)]);
    Goes(logged, b, c, Set(0));
    steps := logged + [Set(0)];
  }

  /** For every limit, overlap and width the guarded bound is reached. */
  lemma OverlapReached(limit: int, overlap: nat, width: nat) returns (steps: seq<Step>)
    requires limit > 0 && overlap > 0 && width > 0
    ensures CrowdedRun(Midnight(0), steps, limit, overlap, width) && RememberingRun(Midnight(0), steps, limit)
    ensures Run(Midnight(0), steps, limit).admitted == limit - 1 + overlap + width
  {
    var c := Setting(limit, overlap, width, true);
    var near, s, n := NearLimit(c);
    var full, phases := WaitsFill(near, s, c, n);
    steps := WaitsDrain(full, s.(phases := phases), c, overlap);
  }
}
