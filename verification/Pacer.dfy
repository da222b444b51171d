/** Request pacing and retries: how often one fetch can call the provider, and how many calls
    an endpoint can see in any window of time. */
module Pacer {
  import opened Outcomes

  // ----- Starts of calls

  /** A call of an endpoint, and the clock when it started. */
  type Starts = seq<(string, real)>

  /** Calls of the same endpoint start at least `minimum` apart. */
  ghost predicate Spaced(starts: Starts, minimum: real) {
    forall i, j :: 0 <= i < j < |starts| && starts[i].0 == starts[j].0 ==> starts[j].1 - starts[i].1 >= minimum
  }

  /** The times at which an endpoint was called within [from, from + length]. */
  function Within(starts: Starts, endpoint: string, from: real, length: real): seq<real> {
    if starts == [] then []
    else
      var (name, time) := starts[|starts| - 1];
      Within(starts[..|starts| - 1], endpoint, from, length)
        + if name == endpoint && from <= time <= from + length then [time] else []
  }

  /** The n-th multiple of an interval. */
  function Multiple(n: int, interval: real): real {
    n as real * interval
  }

  lemma {:induction false} WithinSpread(starts: Starts, endpoint: string, from: real, length: real, minimum: real)
    requires Spaced(starts, minimum)
    ensures var times := Within(starts, endpoint, from, length);
      times != [] ==>
        && times[|times| - 1] - times[0] >= Multiple(|times| - 1, minimum)
        && from <= times[0] && times[|times| - 1] <= from + length
        && exists i :: 0 <= i < |starts| && starts[i] == (endpoint, times[|times| - 1])
  {
    if starts != [] {
      var n := |starts| - 1;
      WithinSpread(starts[..n], endpoint, from, length, minimum);
      var front, times := Within(starts[..n], endpoint, from, length), Within(starts, endpoint, from, length);
      if |times| > |front| {
        assert starts[n] == (endpoint, times[|front|]);
        if front != [] {
          var i :| 0 <= i < n && starts[..n][i] == (endpoint, front[|front| - 1]);
          assert starts[i].0 == starts[n].0;
          MultipleStep(|front| - 1, minimum);
        } else {
          assert Multiple(0, minimum) == 0.0;
        }
      } else if times != [] {
        var i :| 0 <= i < n && starts[..n][i] == (endpoint, front[|front| - 1]);
        assert starts[i] == (endpoint, times[|times| - 1]);
      }
    }
  }

  lemma MultipleStep(n: int, interval: real)
    ensures Multiple(n + 1, interval) == Multiple(n, interval) + interval
  {
  }

  /** In any window of some length an endpoint starts at most floor(length / interval) + 1 calls. */
  lemma RateBound(starts: Starts, endpoint: string, from: real, length: real, minimum: real)
    requires Spaced(starts, minimum) && minimum > 0.0 && length >= 0.0
    ensures |Within(starts, endpoint, from, length)| <= (length / minimum).Floor + 1
  {
    var times := Within(starts, endpoint, from, length);
    WithinSpread(starts, endpoint, from, length, minimum);
    hide Multiple;
    StepsFit(if times == [] then 0 else |times| - 1, length, minimum);
  }

  lemma StepsFit(steps: nat, length: real, interval: real)
    requires interval > 0.0 && length >= 0.0
    ensures (length / interval).Floor >= 0
    ensures Multiple(steps, interval) <= length ==> steps <= (length / interval).Floor
  {
    var ratio := length / interval;
    assert ratio * interval == length;
    assert ratio >= 0.0;
    if steps as real > ratio {
      Scale(ratio, steps as real, interval);
      assert Multiple(steps, interval) > length;
    }
  }

  lemma Scale(a: real, b: real, k: real)
    requires a < b && k > 0.0
    ensures a * k < b * k
  {
  }

  /** With the default 0.35 s between calls, no minute sees more than 172 of them, which keeps
      the documented 200 requests a minute. */
  lemma DefaultQuota(starts: Starts, endpoint: string, from: real)
    requires Spaced(starts, 0.35)
    ensures |Within(starts, endpoint, from, 60.0)| <= 172 <= 200
  {
    RateBound(starts, endpoint, from, 60.0, 0.35);
    assert 60.0 / 0.35 < 172.0;
  }

  // ----- Configuration

  datatype Config = Config(testOnly: bool, maxRetries: int, retryDelay: real, minInterval: real, cooldown: real, jitter: real)

  function NonNegative(x: real): real {
    if x < 0.0 then 0.0 else x
  }

  function Larger(x: real, y: real): real {
    if x < y then y else x
  }

  function PowerOfTwo(n: nat): nat {
    if n == 0 then 1 else 2 * PowerOfTwo(n - 1)
  }

  /** Exponential back-off, at most 5 seconds. */
  function Grown(c: Config, attempt: nat): real {
    var grown := NonNegative(c.retryDelay) * PowerOfTwo(attempt) as real;
    if grown < 5.0 then grown else 5.0
  }

  lemma GrownGrows(c: Config, attempt: nat)
    ensures 0.0 <= Grown(c, attempt) <= Grown(c, attempt + 1) <= 5.0
  {
    var base, power := NonNegative(c.retryDelay), PowerOfTwo(attempt) as real;
    assert PowerOfTwo(attempt + 1) as real == 2.0 * power;
    Doubling(base, power);
  }

  /** The pause before the next attempt; `drawn` is what the random jitter adds. */
  function RetryDelay(c: Config, attempt: nat, rateLimited: bool, drawn: real): real {
    (if rateLimited then Larger(Grown(c, attempt), NonNegative(c.cooldown)) else Grown(c, attempt)) + drawn
  }

  ghost predicate Jitter(c: Config, drawn: real) {
    0.0 <= drawn <= NonNegative(c.jitter)
  }

  /** Whatever the jitter draws, a pause without a rate limit is at most 5 seconds plus the
      jitter bound and shorter than the one before it by at most that bound, so without jitter
      pauses never shrink; after a rate limit it is at least the cooldown. */
  lemma DelaysGrow(c: Config, attempt: nat, rateLimited: bool, drawn: real, later: real)
    requires Jitter(c, drawn) && Jitter(c, later)
    ensures 0.0 <= RetryDelay(c, attempt, false, drawn) <= 5.0 + NonNegative(c.jitter)
    ensures RetryDelay(c, attempt, false, drawn) - NonNegative(c.jitter) <= RetryDelay(c, attempt + 1, false, later)
    ensures RetryDelay(c, attempt, false, drawn) <= RetryDelay(c, attempt, rateLimited, drawn)
    ensures rateLimited ==> RetryDelay(c, attempt, rateLimited, drawn) >= c.cooldown
  {
    hide Grown;
    GrownGrows(c, attempt);
  }

  lemma Doubling(base: real, power: real)
    requires base >= 0.0 && power >= 0.0
    ensures 0.0 <= base * power <= base * (2.0 * power)
  {
    assert base * (2.0 * power) == base * power + base * power;
  }

  // ----- The pacer

  /** How one attempt of a call ends. */
  datatype Response = Returns(value: string) | Refused | Raises(rateLimited: bool)

  /** How a fetch ends. `Nothing` is a fetch that was not allowed a single attempt. */
  datatype Fetched = Value(value: string) | Fatal | ProviderCallError(attempts: nat, rateLimited: bool) | Nothing

  /** The clock around one attempt: when it is ready to start, and how much longer than asked
      sleeping and reading the clock take. */
  datatype Clock = Clock(ready: real, lag: real)

  class CallPacer {
    const minimum: real
    var lastCalls: map<string, real>
    /** All calls so far. */
    ghost var starts: Starts

    ghost predicate Valid()
      reads this
    {
      && minimum >= 0.0
      && Spaced(starts, minimum)
      && (forall i :: 0 <= i < |starts| ==> starts[i].0 in lastCalls && starts[i].1 <= lastCalls[starts[i].0])
    }

    constructor (c: Config)
      ensures Valid() && starts == [] && lastCalls == map[]
      ensures minimum == if c.testOnly then 0.0 else NonNegative(c.minInterval)
    {
      minimum := if c.testOnly then 0.0 else NonNegative(c.minInterval);
      lastCalls := map[];
      starts := [];
    }

    /** Sleeps until the endpoint's previous call is `minimum` ago, and no longer than that. */
    method Wait(endpoint: string, clock: Clock)
      requires Valid() && clock.lag >= 0.0
      requires endpoint in lastCalls ==> lastCalls[endpoint] <= clock.ready
      modifies this
      ensures Valid()
      ensures var start := StartAfter(LastCall(old(lastCalls), endpoint), clock, minimum);
        starts == old(starts) + [(endpoint, start)] && lastCalls == old(lastCalls)[endpoint := start]
    {
      var now := clock.ready;
      if endpoint in lastCalls {
        var delay := minimum - (now - lastCalls[endpoint]);
        if delay > 0.0 { now := now + delay; }
      }
      now := now + clock.lag;
      starts := starts + [(endpoint, now)];
      lastCalls := lastCalls[endpoint := now];
    }
  }

  /** The attempt that settles a fetch: the first that does not raise a retryable error. */
  function Settling(responses: seq<Response>): (k: nat)
    ensures k <= |responses|
    ensures forall i :: 0 <= i < k ==> responses[i].Raises?
    ensures k < |responses| ==> !responses[k].Raises?
  {
    if responses == [] || !responses[0].Raises? then 0 else 1 + Settling(responses[1..])
  }

  function LastCall(lastCalls: map<string, real>, endpoint: string): Option<real> {
    if endpoint in lastCalls then Some(lastCalls[endpoint]) else None
  }

  function StartAfter(last: Option<real>, clock: Clock, minimum: real): real {
    (if last.Some? then Larger(clock.ready, last.value + minimum) else clock.ready) + clock.lag
  }

  /** The clock never runs back behind the endpoint's previous call. */
  ghost predicate Forward(clocks: seq<Clock>, minimum: real, last: Option<real>)
    decreases |clocks|
  {
    clocks == [] ||
    (&& clocks[0].lag >= 0.0 && (last.Some? ==> last.value <= clocks[0].ready)
     && Forward(clocks[1..], minimum, Some(StartAfter(last, clocks[0], minimum))))
  }

  function Outcome(responses: seq<Response>): Fetched {
    var k := Settling(responses);
    if responses == [] then Nothing
    else if k == |responses| then ProviderCallError(|responses|, responses[|responses| - 1].rateLimited)
    else if responses[k].Returns? then Value(responses[k].value)
    else Fatal
  }

  function Attempts(c: Config): nat {
    if c.maxRetries < 0 then 0 else c.maxRetries + 1
  }

  /** What the provider would answer to each permitted attempt decides the outcome. At most
      `maxRetries + 1` calls are made, none after the one that settles the fetch, and every
      one of them is paced; `retries` counts the repeated ones. */
  method Fetch(c: Config, pacer: CallPacer, endpoint: string, responses: seq<Response>, clocks: seq<Clock>)
    returns (result: Fetched, retries: nat)
    requires pacer.Valid() && |responses| == |clocks| == Attempts(c)
    requires Forward(clocks, pacer.minimum, LastCall(pacer.lastCalls, endpoint))
    modifies pacer
    ensures pacer.Valid() && result == Outcome(responses)
    ensures old(pacer.starts) <= pacer.starts
    ensures forall i :: |old(pacer.starts)| <= i < |pacer.starts| ==> pacer.starts[i].0 == endpoint
    ensures var calls := |pacer.starts| - |old(pacer.starts)|;
      && calls == (if Settling(responses) < |responses| then Settling(responses) + 1 else |responses|)
      && calls <= Attempts(c) && retries == if calls == 0 then 0 else calls - 1
  {
    retries := 0;
    for attempt := 0 to |responses|
      invariant pacer.Valid() && retries == attempt
      invariant attempt <= Settling(responses) && (attempt < |responses| || responses == [])
      invariant Forward(clocks[attempt..], pacer.minimum, LastCall(pacer.lastCalls, endpoint))
      invariant |pacer.starts| == |old(pacer.starts)| + attempt && old(pacer.starts) <= pacer.starts
      invariant forall i :: |old(pacer.starts)| <= i < |pacer.starts| ==> pacer.starts[i].0 == endpoint
    {
      assert clocks[attempt..][1..] == clocks[attempt + 1..];
      pacer.Wait(endpoint, clocks[attempt]);
      match responses[attempt] {
        case Returns(value) => return Value(value), retries;
        case Refused => return Fatal, retries;
        case Raises(rateLimited) =>
          if attempt >= c.maxRetries {
            return ProviderCallError(attempt + 1, rateLimited), retries;
          }
          retries := retries + 1;
      }
    }
    result := Nothing;
  }

  // ----- What retries come to

  /** How a fetch ends: with the first answer that is no retryable error, a value or a refusal;
      with the last of the retryable errors if there is nothing else; with nothing if no
      attempt is allowed. Negative retry counts allow none, others one attempt more. */
  lemma {:induction false} OutcomeIs(responses: seq<Response>, c: Config)
    ensures |responses| == Attempts(c) ==> |responses| == if c.maxRetries < 0 then 0 else c.maxRetries + 1
    ensures responses == [] ==> Outcome(responses) == Nothing
    ensures responses != [] && (forall i :: 0 <= i < |responses| ==> responses[i].Raises?) ==>
      Outcome(responses) == ProviderCallError(|responses|, responses[|responses| - 1].rateLimited)
    ensures forall k :: 0 <= k < |responses| && !responses[k].Raises? && (forall i :: 0 <= i < k ==> responses[i].Raises?) ==>
      (if responses[k].Returns? then Outcome(responses) == Value(responses[k].value) else Outcome(responses) == Fatal)
  {
  }

  /** The pause doubles with every attempt until it reaches five seconds; after a rate limit it
      is at least the cooldown; and what the jitter draws is added. */
  lemma DelayIs(c: Config, attempt: nat, drawn: real)
    ensures var base := if c.retryDelay < 0.0 then 0.0 else c.retryDelay;
      RetryDelay(c, 0, false, 0.0) == if base < 5.0 then base else 5.0
    ensures var now := RetryDelay(c, attempt, false, 0.0);
      && RetryDelay(c, attempt + 1, false, 0.0) == (if 2.0 * now < 5.0 then 2.0 * now else 5.0)
      && RetryDelay(c, attempt, false, drawn) == now + drawn
      && RetryDelay(c, attempt, true, drawn) == (if now < c.cooldown then c.cooldown else now) + drawn
  {
    var base, power := NonNegative(c.retryDelay), PowerOfTwo(attempt) as real;
    assert PowerOfTwo(attempt + 1) as real == 2.0 * power;
    Doubling(base, power);
    assert base * (2.0 * power) == 2.0 * (base * power);
    GrownGrows(c, attempt);
  }
}
