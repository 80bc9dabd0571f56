/**
 The sliding-window limiter (app/middleware/rate_limit.py:26-53): a Redis sorted set that is
 pruned, counted, extended and given an expiry in one transaction, against the full history
 of attempts. Redis does not fail, attempts run in order of time, and the random suffixes
 keep their members apart.
 */
module SlidingWindow {
  import opened Wrappers

  /** A member of the set: `time` is its score, `suffix` its random part. */
  datatype Attempt = Attempt(time: real, suffix: nat)

  /** Seconds an idle key outlives its window. */
  const SLACK := 5.0

  /** Attempts in order of time, no two with the same member. */
  predicate Ordered(h: seq<Attempt>) {
    h == [] ||
    var rest, last := h[..|h| - 1], h[|h| - 1];
    && Ordered(rest)
    && 0.0 <= last.time
    && (rest != [] ==> rest[|rest| - 1].time <= last.time)
    && last !in rest
  }

  /** How many attempts of `h` came after `when`. */
  function CountAfter(h: seq<Attempt>, when: real): nat {
    if h == [] then 0
    else CountAfter(h[..|h| - 1], when) + if h[|h| - 1].time > when then 1 else 0
  }

  /** The set of attempts of `h` that came after `when`. */
  function After(h: seq<Attempt>, when: real): set<Attempt> {
    set a | a in h && a.time > when
  }

  lemma AfterSnoc(h: seq<Attempt>, last: Attempt, when: real)
    ensures After(h + [last], when) == After(h, when) + if last.time > when then {last} else {}
  {
    assert forall a :: a in h + [last] <==> a in h || a == last;
  }

  lemma {:induction false} AfterCounts(h: seq<Attempt>, when: real)
    requires Ordered(h)
    ensures |After(h, when)| == CountAfter(h, when)
  {
    if h == [] {
    } else {
      var rest, last := h[..|h| - 1], h[|h| - 1];
      AfterCounts(rest, when);
      assert h == rest + [last] && last !in rest;
      AfterSnoc(rest, last, when);
    }
  }

  /** Redis's state under one key: the set and the time the key expires. */
  datatype Entry = Entry(members: set<Attempt>, expiresAt: Option<real>)

  /** The set holds every attempt the next decision can count, and nothing but attempts. */
  ghost predicate Tracks(e: Entry, h: seq<Attempt>, window: real) {
    if h == [] then e == Entry({}, None)
    else
      var last := h[|h| - 1].time;
      && e.expiresAt == Some(last + window + SLACK)
      && After(h, last - window) <= e.members
      && (forall a :: a in e.members ==> a in h)
  }

  function Expire(e: Entry, now: real): set<Attempt> {
    if e.expiresAt.Some? && now >= e.expiresAt.value then {} else e.members
  }

  function Prune(members: set<Attempt>, clearBefore: real): set<Attempt> {
    set a | a in members && !(0.0 <= a.time <= clearBefore)
  }

  /** In an ordered history no attempt is later than the last one. */
  lemma {:induction false} LastIsLatest(h: seq<Attempt>)
    requires Ordered(h) && h != []
    ensures forall i :: 0 <= i < |h| ==> 0.0 <= h[i].time <= h[|h| - 1].time
  {
    var rest := h[..|h| - 1];
    if rest == [] {
    } else {
      LastIsLatest(rest);
      assert forall i :: 0 <= i < |rest| ==> h[i] == rest[i];
    }
  }

  lemma OrderedPrefix(h: seq<Attempt>, attempt: Attempt)
    requires Ordered(h + [attempt])
    ensures Ordered(h) && (h != [] ==> h[|h| - 1].time <= attempt.time)
  {
    assert (h + [attempt])[..|h|] == h;
  }

  lemma {:induction false} OrderedTake(h: seq<Attempt>, i: nat)
    requires Ordered(h) && i <= |h|
    ensures Ordered(h[..i])
  {
    if i < |h| {
      OrderedTake(h[..|h| - 1], i);
      assert h[..|h| - 1][..i] == h[..i];
    } else {
      assert h[..i] == h;
    }
  }

  /** What pruning or expiry dropped earlier is too old to be counted now. */
  lemma PruneIsExact(e: Entry, h: seq<Attempt>, window: real, now: real)
    requires window > 0.0 && Ordered(h) && Tracks(e, h, window)
    requires h != [] ==> h[|h| - 1].time <= now
    ensures Prune(Expire(e, now), now - window) == After(h, now - window)
  {
    if h != [] {
      LastIsLatest(h);
      var last := h[|h| - 1].time;
      assert After(h, now - window) <= After(h, last - window);
    }
  }

  lemma ExtendTracks(h: seq<Attempt>, attempt: Attempt, window: real)
    requires window > 0.0
    ensures Tracks(Entry(After(h, attempt.time - window) + {attempt}, Some(attempt.time + window + SLACK)),
                   h + [attempt], window)
  {
    AfterSnoc(h, attempt, attempt.time - window);
  }

  /** One decision: the pruned set is as large as the history's window, and tracking goes on. */
  lemma DecideExactly(e: Entry, h: seq<Attempt>, now: real, suffix: nat, window: real, kept: set<Attempt>)
    requires window > 0.0 && Ordered(h + [Attempt(now, suffix)]) && Tracks(e, h, window)
    requires kept == Prune(Expire(e, now), now - window)
    ensures |kept| == CountAfter(h, now - window)
    ensures Tracks(Entry(kept + {Attempt(now, suffix)}, Some(now + window + SLACK)), h + [Attempt(now, suffix)], window)
  {
    OrderedPrefix(h, Attempt(now, suffix));
    PruneIsExact(e, h, window, now);
    AfterCounts(h, now - window);
    ExtendTracks(h, Attempt(now, suffix), window);
  }

  class Limiter {
    const limit: int
    const window: real
    var members: set<Attempt>
    var expiresAt: Option<real>
    ghost var history: seq<Attempt>

    ghost predicate Valid()
      reads this
    {
      window > 0.0 && Ordered(history) && Tracks(Entry(members, expiresAt), history, window)
    }

    constructor (limit: int, window: real)
      requires window > 0.0
      ensures Valid() && history == [] && this.limit == limit && this.window == window
    {
      this.limit, this.window := limit, window;
      members, expiresAt, history := {}, None, [];
    }

    /** Decides as the full history does: limited when `limit` attempts, admitted or refused, fall in the window. */
    method IsRateLimited(now: real, suffix: nat) returns (limited: bool)
      requires Valid() && Ordered(history + [Attempt(now, suffix)])
      modifies this
      ensures Valid() && history == old(history) + [Attempt(now, suffix)]
      ensures limited <==> CountAfter(old(history), now - window) >= limit
      ensures expiresAt == Some(now + window + 5.0)
    {
      // one transaction, on a key that may have expired: prune, count, add, expire
      var kept := Prune(Expire(Entry(members, expiresAt), now), now - window);
      DecideExactly(Entry(members, expiresAt), history, now, suffix, window, kept);
      limited := |kept| >= limit;
      members := kept + {Attempt(now, suffix)};
      expiresAt := Some(now + window + SLACK);
      history := history + [Attempt(now, suffix)];
    }
  }

  // ----- runs -----

  /** Whether attempt `i` of a run is admitted. */
  predicate Admitted(h: seq<Attempt>, i: nat, limit: int, window: real)
    requires i < |h|
  {
    CountAfter(h[..i], h[i].time - window) < limit
  }

  /** The decisions of a run, oldest first. */
  function Decisions(h: seq<Attempt>, limit: int, window: real): seq<bool> {
    if h == [] then []
    else Decisions(h[..|h| - 1], limit, window) + [Admitted(h, |h| - 1, limit, window)]
  }

  lemma DecisionsExtend(h: seq<Attempt>, i: nat, limit: int, window: real)
    requires i < |h|
    ensures Decisions(h[..i + 1], limit, window)
         == Decisions(h[..i], limit, window) + [!(CountAfter(h[..i], h[i].time - window) >= limit)]
  {
    assert h[..i + 1][..i] == h[..i];
  }

  lemma NextAttempt(h: seq<Attempt>, i: nat)
    requires Ordered(h) && i < |h|
    ensures Ordered(h[..i] + [Attempt(h[i].time, h[i].suffix)])
            && h[..i] + [Attempt(h[i].time, h[i].suffix)] == h[..i + 1]
  {
    OrderedTake(h, i + 1);
    assert h[i] == Attempt(h[i].time, h[i].suffix) && h[..i] + [h[i]] == h[..i + 1];
  }

  /** A limiter fed any run of attempts takes the decisions of the full history. */
  method RunLimiter(h: seq<Attempt>, limit: int, window: real) returns (admitted: seq<bool>)
    requires Ordered(h) && window > 0.0
    ensures admitted == Decisions(h, limit, window)
  {
    var limiter := new Limiter(limit, window);
    admitted := [];
    for i := 0 to |h|
      invariant limiter.Valid() && limiter.limit == limit && limiter.window == window && limiter.history == h[..i]
      invariant fresh(limiter)
      invariant admitted == Decisions(h[..i], limit, window)
    {
      NextAttempt(h, i);
      DecisionsExtend(h, i, limit, window);
      var limited := limiter.IsRateLimited(h[i].time, h[i].suffix);
      admitted := admitted + [!limited];
    }
    assert h[..|h|] == h;
  }

  function AdmittedIn(h: seq<Attempt>, limit: int, window: real, from: real): nat {
    if h == [] then 0
    else
      var last := |h| - 1;
      AdmittedIn(h[..last], limit, window, from)
      + if from <= h[last].time < from + window && Admitted(h, last, limit, window) then 1 else 0
  }

  /** Attempts at or after `from` are all counted by a later decision whose window reaches back before `from`. */
  lemma {:induction false} AdmittedAreCounted(h: seq<Attempt>, limit: int, window: real, from: real, when: real)
    requires when < from
    ensures AdmittedIn(h, limit, window, from) <= CountAfter(h, when)
  {
    if h == [] {
    } else {
      AdmittedAreCounted(h[..|h| - 1], limit, window, from, when);
    }
  }

  /** No half-open interval of one window's length holds more than `limit` admitted attempts. */
  lemma {:induction false} WindowSafety(h: seq<Attempt>, limit: int, window: real, from: real)
    requires window > 0.0
    ensures AdmittedIn(h, limit, window, from) <= if limit > 0 then limit else 0
  {
    if h == [] {
    } else {
      var last := |h| - 1;
      WindowSafety(h[..last], limit, window, from);
      if from <= h[last].time < from + window && Admitted(h, last, limit, window) {
        AdmittedAreCounted(h[..last], limit, window, from, h[last].time - window);
      }
    }
  }

  lemma {:induction false} NoneAfter(h: seq<Attempt>, when: real)
    requires Ordered(h) && (h != [] ==> h[|h| - 1].time <= when)
    ensures CountAfter(h, when) == 0
  {
    if h == [] {
    } else {
      NoneAfter(h[..|h| - 1], when);
    }
  }

  lemma {:induction false} CountAtLeast(h: seq<Attempt>, when: real, n: nat)
    requires Ordered(h) && n <= |h|
    ensures CountAfter(h, when) >= n <==> n == 0 || h[|h| - n].time > when
  {
    if h != [] && n > 0 {
      var rest := h[..|h| - 1];
      CountAtLeast(rest, when, n - 1);
      if h[|h| - 1].time > when {
        assert n == 1 || rest[|rest| - (n - 1)] == h[|h| - n];
      } else {
        NoneAfter(h, when);
        LastIsLatest(h);
      }
    }
  }

  lemma {:induction false} CountAtMost(h: seq<Attempt>, when: real)
    ensures CountAfter(h, when) <= |h|
  {
    if h == [] {
    } else {
      CountAtMost(h[..|h| - 1], when);
    }
  }

  /**
   Attempt `i` is admitted exactly when the attempt `limit` places before it, admitted or not, has
   left the window.
   */
  lemma AdmittedIff(h: seq<Attempt>, i: nat, limit: nat, window: real)
    requires Ordered(h) && i < |h| && limit > 0
    ensures Admitted(h, i, limit, window) <==> i < limit || h[i - limit].time <= h[i].time - window
  {
    OrderedTake(h, i);
    if i < limit {
      CountAtMost(h[..i], h[i].time - window);
    } else {
      CountAtLeast(h[..i], h[i].time - window, limit);
    }
  }

  /** Refused attempts count too: a client that keeps `limit` attempts in every window is never admitted again. */
  lemma PersistentClientStarves(h: seq<Attempt>, limit: nat, window: real)
    requires Ordered(h) && limit > 0
    requires forall i :: limit <= i < |h| ==> h[i - limit].time > h[i].time - window
    ensures forall i :: 0 <= i < |h| ==> (Admitted(h, i, limit, window) <==> i < limit)
  {
    forall i | 0 <= i < |h| ensures Admitted(h, i, limit, window) <==> i < limit {
      AdmittedIff(h, i, limit, window);
    }
  }
}
