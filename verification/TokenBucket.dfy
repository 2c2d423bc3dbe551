/**
 The terminal's rate limiter: a bucket refilled by the time since the previous call. Times are
 nanoseconds of the monotonic clock, so they never decrease from call to call.
 */
module TokenBucket {

  const SECOND := 1_000_000_000

  datatype Bucket = Bucket(tokens: int, maxTokens: nat, refillRate: nat, lastRefill: int) {
    predicate Valid() {
      0 <= tokens <= maxTokens
    }
  }

  function Min(a: int, b: int): int {
    if a < b then a else b
  }

  /** Whole tokens earned in a time span: the fraction of a token is dropped at every call. */
  function Refill(rate: nat, elapsed: nat): (n: nat)
    ensures n * 1_000_000_000 <= rate * elapsed < (n + 1) * 1_000_000_000
  {
    assert rate * elapsed >= 0;
    rate * elapsed / SECOND
  }

  /** The bucket as a call at time `now` finds it, after the refill. */
  function Refilled(b: Bucket, now: int): Bucket
    requires b.lastRefill <= now
  {
    b.(tokens := Min(b.tokens + Refill(b.refillRate, now - b.lastRefill), b.maxTokens), lastRefill := now)
  }

  function Allows(b: Bucket, now: int): bool
    requires b.lastRefill <= now
  {
    Refilled(b, now).tokens > 0
  }

  function After(b: Bucket, now: int): Bucket
    requires b.lastRefill <= now
  {
    var r := Refilled(b, now);
    if r.tokens <= 0 then r else r.(tokens := r.tokens - 1)
  }

  class Limiter {
    var tokens: int
    const maxTokens: nat
    const refillRate: nat
    var lastRefill: int

    function Value(): Bucket
      reads this
    {
      Bucket(tokens, maxTokens, refillRate, lastRefill)
    }

    constructor (maxTokens: nat, refillRate: nat, now: int)
      ensures Value() == Bucket(maxTokens, maxTokens, refillRate, now)
    {
      this.tokens, this.maxTokens, this.refillRate, this.lastRefill := maxTokens, maxTokens, refillRate, now;
    }

    method Allow(now: int) returns (allowed: bool)
      requires lastRefill <= now
      modifies this
      ensures allowed == Allows(old(Value()), now)
      ensures Value() == After(old(Value()), now)
    {
      var elapsed := now - lastRefill;
      lastRefill := now;
      tokens := tokens + Refill(refillRate, elapsed);
      if tokens > maxTokens {
        tokens := maxTokens;
      }
      if tokens <= 0 {
        return false;
      }
      tokens := tokens - 1;
      return true;
    }
  }

  // ----- Runs of calls -----------------------------------------------------------------------

  predicate InOrder(from: int, times: seq<int>)
    decreases |times|
  {
    times == [] || (from <= times[0] && InOrder(times[0], times[1..]))
  }

  function Run(b: Bucket, times: seq<int>): Bucket
    requires InOrder(b.lastRefill, times)
    decreases |times|
  {
    if times == [] then b else Run(After(b, times[0]), times[1..])
  }

  /** How many of the calls are allowed. */
  function Allowed(b: Bucket, times: seq<int>): (n: nat)
    requires InOrder(b.lastRefill, times)
    ensures n <= |times|
    decreases |times|
  {
    if times == [] then 0
    else (if Allows(b, times[0]) then 1 else 0) + Allowed(After(b, times[0]), times[1..])
  }

  function Last(from: int, times: seq<int>): int {
    if times == [] then from else times[|times| - 1]
  }

  lemma {:induction false} StaysValid(b: Bucket, times: seq<int>)
    requires b.Valid() && InOrder(b.lastRefill, times)
    ensures Run(b, times).Valid() && Run(b, times).lastRefill == Last(b.lastRefill, times)
    ensures Run(b, times).maxTokens == b.maxTokens && Run(b, times).refillRate == b.refillRate
    decreases |times|
  {
    if times != [] {
      StaysValid(After(b, times[0]), times[1..]);
    }
  }

  /** Billionths of a token, the unit in which a rate of whole tokens per second earns in nanoseconds. */
  function Billionths(tokens: int): int {
    tokens * SECOND
  }

  function Earned(rate: nat, span: int): int {
    rate * span
  }

  lemma EarnedInParts(rate: nat, x: int, y: int)
    ensures Earned(rate, x + y) == Earned(rate, x) + Earned(rate, y)
  {}

  /** Tokens spent and left never exceed those there at the start and those earned since. */
  lemma {:induction false} SpendingIsBounded(b: Bucket, times: seq<int>)
    requires b.Valid() && InOrder(b.lastRefill, times)
    ensures Billionths(Allowed(b, times) + Run(b, times).tokens)
            <= Billionths(b.tokens) + Earned(b.refillRate, Last(b.lastRefill, times) - b.lastRefill)
    decreases |times|
  {
    if times != [] {
      var next := After(b, times[0]);
      SpendingIsBounded(next, times[1..]);
      var end := Last(b.lastRefill, times);
      assert end == Last(times[0], times[1..]);
      EarnedInParts(b.refillRate, times[0] - b.lastRefill, end - times[0]);
    }
  }

  lemma {:induction false} RunSplits(b: Bucket, first: seq<int>, second: seq<int>)
    requires InOrder(b.lastRefill, first + second)
    ensures InOrder(b.lastRefill, first) && InOrder(Run(b, first).lastRefill, second)
    ensures Run(b, first + second) == Run(Run(b, first), second)
    ensures Allowed(b, first + second) == Allowed(b, first) + Allowed(Run(b, first), second)
    decreases |first|
  {
    if first == [] {
      assert first + second == second;
    } else {
      assert (first + second)[1..] == first[1..] + second;
      RunSplits(After(b, first[0]), first[1..], second);
    }
  }

  /** Only the first call of the window can spend tokens that are older than the window. */
  lemma FirstCallSpends(s: Bucket, window: seq<int>)
    requires s.Valid() && InOrder(s.lastRefill, window) && window != []
    ensures var next := After(s, window[0]);
            && next.Valid() && next.refillRate == s.refillRate && InOrder(next.lastRefill, window[1..])
            && Last(next.lastRefill, window[1..]) - next.lastRefill == window[|window| - 1] - window[0]
            && Allowed(s, window) + next.tokens <= Allowed(next, window[1..]) + s.maxTokens
  {
    hide Refill;
  }

  lemma SpentAtMost(spent: int, next: Bucket, rest: seq<int>, most: int)
    requires next.Valid() && InOrder(next.lastRefill, rest)
    requires spent + next.tokens <= Allowed(next, rest) + most
    ensures Billionths(spent)
            <= Billionths(most) + Earned(next.refillRate, Last(next.lastRefill, rest) - next.lastRefill)
  {
    SpendingIsBounded(next, rest);
    StaysValid(next, rest);
    hide Refill, Allowed, Run, After, Refilled, Allows, Earned, InOrder, Last;
  }

  lemma BoundFromFirstCall(s: Bucket, window: seq<int>)
    requires s.Valid() && InOrder(s.lastRefill, window) && window != []
    ensures Billionths(Allowed(s, window))
            <= Billionths(s.maxTokens) + Earned(s.refillRate, window[|window| - 1] - window[0])
  {
    hide Allowed, Run, After, Refilled, Allows, Earned, Billionths, Last, Bucket.Valid;
    FirstCallSpends(s, window);
    SpentAtMost(Allowed(s, window), After(s, window[0]), window[1..], s.maxTokens);
  }

  /**
   In every window that begins and ends with a call of a run, at most `maxTokens` calls plus
   `refillRate` times the window's length are allowed.
   */
  lemma WindowIsBounded(b: Bucket, before: seq<int>, window: seq<int>)
    requires b.Valid() && InOrder(b.lastRefill, before + window) && window != []
    ensures InOrder(b.lastRefill, before) && InOrder(Run(b, before).lastRefill, window)
    ensures Allowed(b, before + window) == Allowed(b, before) + Allowed(Run(b, before), window)
    ensures Allowed(Run(b, before), window) * 1_000_000_000
            <= b.maxTokens * 1_000_000_000 + b.refillRate * (window[|window| - 1] - window[0])
  {
    hide Allowed, Run, After, Refilled, Allows, InOrder;
    RunSplits(b, before, window);
    StaysValid(b, before);
    BoundFromFirstCall(Run(b, before), window);
  }

  /** Gap `k` is the time from the previous call, or from the bucket's last refill. */
  function Gap(from: int, times: seq<int>, k: nat): int
    requires k < |times|
  {
    times[k] - if k == 0 then from else times[k - 1]
  }

  /**
   Once empty, a bucket lets a call through if and only if some single gap earns a whole token,
   however long the run: gaps that are shorter each lose their fraction.
   */
  lemma {:induction false} EmptyBucketRecoversIff(b: Bucket, times: seq<int>)
    requires b.tokens == 0 < b.maxTokens && InOrder(b.lastRefill, times)
    ensures Allowed(b, times) > 0 <==>
            exists k :: 0 <= k < |times| && b.refillRate * Gap(b.lastRefill, times, k) >= 1_000_000_000
    decreases |times|
  {
    if times != [] {
      var earned := Refill(b.refillRate, times[0] - b.lastRefill);
      assert Gap(b.lastRefill, times, 0) == times[0] - b.lastRefill;
      if earned == 0 {
        var next := After(b, times[0]);
        EmptyBucketRecoversIff(next, times[1..]);
        forall k | 0 < k < |times| ensures Gap(b.lastRefill, times, k) == Gap(times[0], times[1..], k - 1) {}
        if k :| 0 <= k < |times[1..]| && b.refillRate * Gap(times[0], times[1..], k) >= SECOND {
          assert b.refillRate * Gap(b.lastRefill, times, k + 1) >= SECOND;
        }
      } else {
        assert b.refillRate * Gap(b.lastRefill, times, 0) >= SECOND;
      }
    }
  }

  /** Calls far enough apart are all allowed. */
  lemma {:induction false} SpacedCallsPass(b: Bucket, times: seq<int>)
    requires b.Valid() && 0 < b.maxTokens && InOrder(b.lastRefill, times)
    requires forall k :: 0 <= k < |times| ==> b.refillRate * Gap(b.lastRefill, times, k) >= 1_000_000_000
    ensures Allowed(b, times) == |times|
    decreases |times|
  {
    if times != [] {
      assert Gap(b.lastRefill, times, 0) == times[0] - b.lastRefill;
      assert Refill(b.refillRate, times[0] - b.lastRefill) >= 1;
      forall k | 0 <= k < |times[1..]| ensures b.refillRate * Gap(times[0], times[1..], k) >= SECOND {
        assert Gap(times[0], times[1..], k) == Gap(b.lastRefill, times, k + 1);
      }
      SpacedCallsPass(After(b, times[0]), times[1..]);
    }
  }

  /** A bucket lets through as many calls in a row as it holds tokens, however close together. */
  lemma {:induction false} BurstPasses(b: Bucket, times: seq<int>)
    requires b.Valid() && |times| <= b.tokens && InOrder(b.lastRefill, times)
    ensures Allowed(b, times) == |times|
    decreases |times|
  {
    if times != [] {
      BurstPasses(After(b, times[0]), times[1..]);
    }
  }
}
