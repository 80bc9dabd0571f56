/**
 Retry with exponential backoff inside a one-level failover (app/routing/router.py:76-122,
 124-163, 186-210 and 226-271). A provider is an arbitrary sequence of outcomes; time is
 only the sum of the sleeps.
 */
module Router {
  import opened Powers
  import opened Wrappers

  type Payload = nat

  /** What one provider call does: a response, an HTTP error, or any other exception. */
  datatype Outcome = Responds(payload: Payload) | Fails(status: int) | Breaks

  /** What a routing method does; `TypeError` stands for raising no exception object at all. */
  datatype Result = Returns(payload: Payload) | Raises(status: int) | TypeError

  datatype Model = Model(provider: string, fallback: Option<string>)

  predicate Retryable(status: int) {
    status in {429, 500, 502, 503, 504}
  }

  /** The upstream providers: the outcomes still to come, the calls made and the time slept. */
  class Upstream {
    const configured: set<string>
    const outcomes: nat -> Outcome
    var calls: nat
    var slept: real

    constructor (configured: set<string>, outcomes: nat -> Outcome)
      ensures calls == 0 && slept == 0.0 && this.configured == configured && this.outcomes == outcomes
    {
      this.configured, this.outcomes, calls, slept := configured, outcomes, 0, 0.0;
    }

    /** One attempt: an unsupported or unconfigured provider fails before anything is sent. */
    method Execute(model: Model) returns (outcome: Outcome)
      modifies this
      ensures outcome == Attempt(configured, outcomes, model, old(calls))
      ensures calls == old(calls) + if model.provider in configured then 1 else 0
      ensures slept == old(slept)
    {
      if model.provider !in configured {
        return Fails(500);
      }
      outcome := outcomes(calls);
      calls := calls + 1;
    }

    /** The retry loop of the source. */
    method ExecuteWithRetry(model: Model, maxRetries: nat, backoff: real) returns (r: Result)
      modifies this
      ensures var at := Attempts(configured, outcomes, model, old(calls));
              && r == RetrySpec(at, maxRetries)
              && calls == old(calls) + (if model.provider in configured then Tries(at, maxRetries) else 0)
              && slept == old(slept) + Slept(Tries(at, maxRetries), backoff)
    {
      ghost var at := Attempts(configured, outcomes, model, calls);
      var last := TypeError;
      PauseDoubles(1, backoff);
      for attempt := 0 to maxRetries
        invariant calls == old(calls) + if model.provider in configured then attempt else 0
        invariant forall i :: 0 <= i < attempt ==> Transient(at(i))
        invariant attempt < maxRetries || (maxRetries == 0 && last == TypeError)
        invariant slept == old(slept) + Slept(attempt + 1, backoff)
      {
        var outcome := Execute(model);
        assert at(attempt) == Attempt(configured, outcomes, model, old(calls) + attempt);
        assert outcome == at(attempt);
        if outcome.Responds? {
          SettledAt(at, maxRetries, attempt);
          return Returns(outcome.payload);
        }
        last := Raises(if outcome.Fails? then outcome.status else 502);
        if outcome.Breaks? || Retryable(outcome.status) {
          if attempt < maxRetries - 1 {
            slept := slept + backoff * Pow2(attempt) as real;
            PauseDoubles(attempt + 1, backoff);
            continue;
          }
        }
        SettledAt(at, maxRetries, attempt);
        return last;
      }
      r := last;
    }

    /** Lookup, retries on the model, then retries on its one fallback. */
    method RouteChatCompletion(registry: map<string, Model>, name: string, maxRetries: nat,
                               backoff: real) returns (r: Result, routed: string)
      modifies this
      ensures var spec := RouteSpec(configured, outcomes, registry, name, maxRetries, old(calls));
              && r == spec.result && routed == spec.routed
              && calls == old(calls) + spec.calls
              && slept == old(slept) + Slept(spec.primaryTries, backoff) + Slept(spec.fallbackTries, backoff)
      ensures name !in registry ==> r == Raises(400) && routed == name && calls == old(calls) && slept == old(slept)
    {
      routed := name;
      if name !in registry {
        return Raises(400), routed;
      }
      var model := registry[name];
      r := ExecuteWithRetry(model, maxRetries, backoff);
      if r.Raises? && Retryable(r.status) && model.fallback.Some? && model.fallback.value != ""
        && model.fallback.value in registry {
        var second := ExecuteWithRetry(registry[model.fallback.value], maxRetries, backoff);
        if second.Returns? {
          return second, model.fallback.value;
        }
        return Raises(502), routed;
      }
    }

    /** Stream routing: provider streams are lazy, so only the configuration can fail here. */
    method RouteStream(registry: map<string, Model>, name: string) returns (r: Option<string>, status: int)
      ensures r.Some? ==> status == 200 && r.value in registry && registry[r.value].provider in configured
      ensures name in registry && registry[name].provider in configured ==> r == Some(name)
      ensures name !in registry ==> r == None && status == 400
      ensures r.None? && name in registry ==> status == if Fallback(registry, name).Some? then 502 else 500
      ensures name in registry && registry[name].provider !in configured ==>
                r == match Fallback(registry, name)
                     case Some(fallback) => if registry[fallback].provider in configured then Some(fallback) else None
                     case None => None
    {
      if name !in registry {
        return None, 400;
      }
      var model := registry[name];
      if model.provider in configured {
        return Some(name), 200;
      }
      if model.fallback.Some? && model.fallback.value != "" && model.fallback.value in registry {
        if registry[model.fallback.value].provider in configured {
          return Some(model.fallback.value), 200;
        }
        return None, 502;
      }
      return None, 500;
    }
  }

  // ----- the functional specification -----

  function Attempt(configured: set<string>, outcomes: nat -> Outcome, model: Model, call: nat): Outcome {
    if model.provider in configured then outcomes(call) else Fails(500)
  }

  /** The outcomes successive attempts on `model` would have, starting at call `from`. */
  function Attempts(configured: set<string>, outcomes: nat -> Outcome, model: Model, from: nat): nat -> Outcome {
    (i: nat) => Attempt(configured, outcomes, model, from + i)
  }

  /** An outcome worth another attempt. */
  predicate Transient(outcome: Outcome) {
    outcome.Breaks? || (outcome.Fails? && Retryable(outcome.status))
  }

  /** How many attempts are made from attempt `i` on: up to the first that is not transient, and at most `max`. */
  function TriesFrom(at: nat -> Outcome, i: nat, max: nat): nat
    decreases max - i
  {
    if i >= max then max
    else if !Transient(at(i)) then i + 1
    else TriesFrom(at, i + 1, max)
  }

  function Tries(at: nat -> Outcome, max: nat): nat {
    TriesFrom(at, 0, max)
  }

  /** The last attempt made decides. */
  function RetrySpec(at: nat -> Outcome, max: nat): Result {
    var tries := Tries(at, max);
    if tries == 0 then TypeError
    else
      match at(tries - 1)
      case Responds(payload) => Returns(payload)
      case Fails(status) => Raises(status)
      case Breaks => Raises(502)
  }

  /** A sleep between attempts: 1, 2, 4, ... backoffs. */
  function Slept(tries: nat, backoff: real): real {
    if tries == 0 then 0.0 else backoff * (Pow2(tries - 1) - 1) as real
  }

  lemma {:induction false} TriesIsFirst(at: nat -> Outcome, i: nat, max: nat)
    requires i < max
    ensures i < TriesFrom(at, i, max) <= max
    ensures forall k :: i <= k < TriesFrom(at, i, max) - 1 ==> Transient(at(k))
    ensures TriesFrom(at, i, max) < max ==> !Transient(at(TriesFrom(at, i, max) - 1))
    decreases max - i
  {
    if Transient(at(i)) && i + 1 < max {
      TriesIsFirst(at, i + 1, max);
    }
  }

  lemma {:induction false} SettledFrom(at: nat -> Outcome, i: nat, max: nat, attempt: nat)
    requires i <= attempt < max
    requires forall k :: i <= k < attempt ==> Transient(at(k))
    requires attempt == max - 1 || !Transient(at(attempt))
    ensures TriesFrom(at, i, max) == attempt + 1
    decreases max - i
  {
    if i < attempt {
      SettledFrom(at, i + 1, max, attempt);
    } else {
      assert TriesFrom(at, i + 1, max) == max || i + 1 < max;
    }
  }

  lemma SettledAt(at: nat -> Outcome, max: nat, attempt: nat)
    requires attempt < max
    requires forall i :: 0 <= i < attempt ==> Transient(at(i))
    requires attempt == max - 1 || !Transient(at(attempt))
    ensures Tries(at, max) == attempt + 1
  {
    SettledFrom(at, 0, max, attempt);
  }

  lemma Doubling(n: nat, backoff: real)
    ensures backoff * (Pow2(n) - 1) as real + backoff * Pow2(n) as real == backoff * (Pow2(n + 1) - 1) as real
  {
    var p := Pow2(n) as real;
    assert Pow2(n + 1) as real == 2.0 * p;
  }

  /** The registered fallback of a model. An empty name counts as none. */
  function Fallback(registry: map<string, Model>, name: string): (fallback: Option<string>)
    requires name in registry
    ensures forall other: string :: fallback == Some(other) <==>
              registry[name].fallback == Some(other) && other in registry && |other| > 0
  {
    var fallback := registry[name].fallback;
    if fallback.Some? && fallback.value != "" && fallback.value in registry then fallback else None
  }

  datatype Routing = Routing(result: Result, routed: string, calls: nat, primaryTries: nat, fallbackTries: nat)

  function Sent(configured: set<string>, model: Model, tries: nat): nat {
    if model.provider in configured then tries else 0
  }

  function RouteSpec(configured: set<string>, outcomes: nat -> Outcome, registry: map<string, Model>, name: string,
                     max: nat, from: nat): Routing {
    if name !in registry then Routing(Raises(400), name, 0, 0, 0)
    else
      var at := Attempts(configured, outcomes, registry[name], from);
      var first, tries := RetrySpec(at, max), Tries(at, max);
      var sent := Sent(configured, registry[name], tries);
      if first.Raises? && Retryable(first.status) && Fallback(registry, name).Some? then
        var fallback := Fallback(registry, name).value;
        var at2 := Attempts(configured, outcomes, registry[fallback], from + sent);
        var second, tries2 := RetrySpec(at2, max), Tries(at2, max);
        Routing(if second.Returns? then second else Raises(502),
                if second.Returns? then fallback else name,
                sent + Sent(configured, registry[fallback], tries2), tries, tries2)
      else Routing(first, name, sent, tries, 0)
  }

  // ----- what routing promises -----

  /** A failure is tried again at these five statuses and no other, and so is anything that is no HTTP error. */
  lemma RetriedStatuses(at: nat -> Outcome, max: nat, payload: Payload)
    requires max > 1 && at(1) == Responds(payload)
    ensures at(0).Fails? ==>
              var s := at(0).status;
              RetrySpec(at, max) == if s == 429 || s == 500 || s == 502 || s == 503 || s == 504 then Returns(payload)
                                    else Raises(s)
    ensures at(0).Breaks? ==> RetrySpec(at, max) == Returns(payload)
  {
    if at(0).Fails? && !Transient(at(0)) {
      SettledAt(at, max, 0);
    } else if !at(0).Responds? {
      SettledAt(at, max, 1);
    }
  }

  /** Before attempt `n + 1` there is a pause of `2^(n-1)` backoffs: 1, 2, 4 and so on. */
  lemma PauseDoubles(n: nat, backoff: real)
    requires n > 0
    ensures Slept(1, backoff) == 0.0 && Slept(2, backoff) == backoff
    ensures Slept(n + 1, backoff) == Slept(n, backoff) + backoff * Pow2(n - 1) as real
  {
    Doubling(n - 1, backoff);
  }

  /** A provider that is not configured fails every attempt with 500, nothing sent. */
  lemma UnconfiguredFails(configured: set<string>, outcomes: nat -> Outcome, model: Model, from: nat, max: nat)
    requires max > 0 && model.provider !in configured
    ensures var at := Attempts(configured, outcomes, model, from);
            RetrySpec(at, max) == Raises(500) && Sent(configured, model, Tries(at, max)) == 0
  {
    var at := Attempts(configured, outcomes, model, from);
    forall i: nat ensures Transient(at(i)) {
      assert at(i) == Attempt(configured, outcomes, model, from + i);
    }
    SettledAt(at, max, max - 1);
    assert at(max - 1) == Attempt(configured, outcomes, model, from + (max - 1));
  }

  /** Attempt `k` is the first success, after nothing but transient failures. */
  ghost predicate FirstSuccess(at: nat -> Outcome, k: nat, max: nat) {
    k < max && at(k).Responds? && forall i :: 0 <= i < k ==> Transient(at(i))
  }

  ghost predicate Succeeds(at: nat -> Outcome, max: nat) {
    exists k :: FirstSuccess(at, k, max)
  }

  ghost predicate IsFirstSuccess(at: nat -> Outcome, max: nat, r: Result) {
    forall k :: FirstSuccess(at, k, max) ==> r == Returns(at(k).payload)
  }

  /** Retrying returns a response exactly when some attempt in range is a first success, and then that one's. */
  lemma RetryReturnsFirstSuccess(at: nat -> Outcome, max: nat)
    ensures RetrySpec(at, max).Returns? <==> Succeeds(at, max)
    ensures IsFirstSuccess(at, max, RetrySpec(at, max))
  {
    forall k | FirstSuccess(at, k, max) ensures RetrySpec(at, max) == Returns(at(k).payload) {
      SettledAt(at, max, k);
    }
    if max > 0 {
      TriesIsFirst(at, 0, max);
      if RetrySpec(at, max).Returns? {
        assert FirstSuccess(at, Tries(at, max) - 1, max);
      }
    }
  }

  /**
   Otherwise it raises the first permanent error, or the last error once attempts run out, other
   exceptions as 502.
   */
  lemma RetryRaises(at: nat -> Outcome, max: nat)
    requires max > 0 && !RetrySpec(at, max).Returns?
    ensures exists k ::
              && 0 <= k < max
              && (forall i :: 0 <= i < k ==> Transient(at(i)))
              && (k == max - 1 || !Transient(at(k)))
              && RetrySpec(at, max) == Raises(if at(k).Fails? then at(k).status else 502)
  {
    TriesIsFirst(at, 0, max);
    var k := Tries(at, max) - 1;
    assert at(k) == at(k);
  }

  /**
   Over every registry, cyclic fallbacks included, and every outcome sequence: the response of the
   model if it succeeds, else of its one fallback after a retryable failure, else 502 when the
   fallback was tried and the model's own error when it was not.
   */
  lemma RoutingRefinesFailover(configured: set<string>, outcomes: nat -> Outcome, registry: map<string, Model>,
                               name: string, max: nat, from: nat)
    requires name in registry && max > 0
    ensures var spec := RouteSpec(configured, outcomes, registry, name, max, from);
            var at := Attempts(configured, outcomes, registry[name], from);
            var sent := Sent(configured, registry[name], Tries(at, max));
            if Succeeds(at, max) then spec.routed == name && IsFirstSuccess(at, max, spec.result)
            else if
              && RetrySpec(at, max).Raises? && Retryable(RetrySpec(at, max).status)
              && Fallback(registry, name).Some?
            then
              var fallback := Fallback(registry, name).value;
              var at2 := Attempts(configured, outcomes, registry[fallback], from + sent);
              if Succeeds(at2, max) then spec.routed == fallback && IsFirstSuccess(at2, max, spec.result)
              else spec.result == Raises(502)
            else spec.result == RetrySpec(at, max)
  {
    var at := Attempts(configured, outcomes, registry[name], from);
    var sent := Sent(configured, registry[name], Tries(at, max));
    RetryReturnsFirstSuccess(at, max);
    if RetrySpec(at, max).Raises? {
      if Retryable(RetrySpec(at, max).status) && Fallback(registry, name).Some? {
        var fallback := registry[Fallback(registry, name).value];
        RetryReturnsFirstSuccess(Attempts(configured, outcomes, fallback, from + sent), max);
      }
    }
  }

  lemma SleepBound(tries: nat, max: nat, backoff: real)
    requires 0 < max && tries <= max && backoff >= 0.0
    ensures 0.0 <= Slept(tries, backoff) <= backoff * (Pow2(max - 1) - 1) as real
  {
    var most: int := Pow2(max - 1) - 1;
    var units: int := if tries == 0 then 0 else Pow2(tries - 1) - 1;
    if tries > 0 {
      Pow2Monotone(tries - 1, max - 1);
    }
    assert 0 <= units <= most;
    Scale(units as real, most as real, backoff);
    assert Slept(tries, backoff) == backoff * (units as real);
  }

  lemma Scale(x: real, y: real, backoff: real)
    requires 0.0 <= x <= y && 0.0 <= backoff
    ensures 0.0 <= backoff * x <= backoff * y
  {
  }

  /**
   At most `2 * max` provider calls and `2 * backoff * (2^(max-1) - 1)` seconds of sleep, whatever
   the providers do.
   */
  lemma RoutingIsBounded(configured: set<string>, outcomes: nat -> Outcome, registry: map<string, Model>,
                         name: string, max: nat, backoff: real, from: nat)
    requires 0 < max && backoff >= 0.0
    ensures var spec := RouteSpec(configured, outcomes, registry, name, max, from);
            && spec.calls <= 2 * max
            && Slept(spec.primaryTries, backoff) + Slept(spec.fallbackTries, backoff)
               <= 2.0 * (backoff * (Pow2(max - 1) - 1) as real)
  {
    var spec := RouteSpec(configured, outcomes, registry, name, max, from);
    assert spec.primaryTries <= max && spec.fallbackTries <= max by {
      if name in registry {
        var at := Attempts(configured, outcomes, registry[name], from);
        TriesIsFirst(at, 0, max);
        if Fallback(registry, name).Some? {
          var sent := Sent(configured, registry[name], Tries(at, max));
          TriesIsFirst(Attempts(configured, outcomes, registry[Fallback(registry, name).value], from + sent), 0, max);
        }
      }
    }
    SleepBound(spec.primaryTries, max, backoff);
    SleepBound(spec.fallbackTries, max, backoff);
  }

  /** When every attempt is transient the sleeps are exactly the bound. */
  lemma BackoffIsExact(at: nat -> Outcome, max: nat, backoff: real)
    requires 0 < max && forall i :: 0 <= i < max ==> Transient(at(i))
    ensures Tries(at, max) == max && Slept(Tries(at, max), backoff) == backoff * (Pow2(max - 1) - 1) as real
  {
    SettledAt(at, max, max - 1);
  }
}
