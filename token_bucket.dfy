/** The token bucket of golang.org/x/time/rate, as the rate limiter uses it:
    a Limiter refills at `limit` tokens per second up to `burst`, and Allow
    takes one token when there is one. Only the parts Allow reaches are
    modelled. */
module TokenBucket {
  import opened Common
  import opened Calendar

  /** limit: tokens per second; burst: bucket size; tokens: the level at
      instant `last`. */
  datatype Limiter = Limiter(limit: real, burst: nat, tokens: real, last: Instant)

  /** The zero value rate.Limiter{}: no refill and no bucket. */
  const ZeroLimiter: Limiter := Limiter(0.0, 0, 0.0, ZeroTime)

  /** rate.NewLimiter(r, b): an empty bucket last filled at the zero time,
      so the first call finds it refilled to `b`. */
  function NewLimiter(r: real, b: nat): Limiter
  {
    Limiter(r, b, 0.0, ZeroTime)
  }

  /** The tokens a limit earns in `ms` milliseconds. */
  function Earned(limit: real, ms: int): real
  {
    limit * ms as real / 1000.0
  }

  lemma EarnedMonotone(limit: real, a: int, b: int)
    requires limit >= 0.0 && a <= b
    ensures Earned(limit, a) <= Earned(limit, b)
  {
    assert limit * b as real - limit * a as real == limit * (b - a) as real;
  }

  lemma EarnedAdditive(limit: real, a: int, b: int)
    ensures Earned(limit, a + b) == Earned(limit, a) + Earned(limit, b)
  {
  }

  /** The level the bucket has at `now`: the tokens earned since `last`
      (none when `now` is earlier), capped at the burst. */
  function Advanced(l: Limiter, now: Instant): real
  {
    var elapsed := if now < l.last then 0 else now - l.last;
    var earned := l.tokens + Earned(l.limit, elapsed);
    if earned > l.burst as real then l.burst as real else earned
  }

  /** Limiter.Allow at `now`. A limiter without refill spends its burst one
      event at a time; any other grants an event when a whole token is
      available at `now`, taking it, and otherwise changes nothing. */
  function Allow(l: Limiter, now: Instant): (r: (Limiter, bool))
    requires l.limit >= 0.0
    ensures r.0.limit == l.limit
    ensures !r.1 ==> r.0 == l
    ensures l.limit > 0.0 ==> (r.1 <==> 1 <= l.burst && Advanced(l, now) >= 1.0)
    ensures l.limit > 0.0 && r.1 ==> r.0 == l.(tokens := Advanced(l, now) - 1.0, last := now)
  {
    if l.limit == 0.0 then
      if l.burst >= 1 then (l.(burst := l.burst - 1), true) else (l, false)
    else
      var left := Advanced(l, now) - 1.0;
      if 1 <= l.burst && left >= 0.0 then (l.(tokens := left, last := now), true) else (l, false)
  }

  /** A bucket that refills holds between zero and burst tokens. */
  predicate Bounded(l: Limiter)
  {
    l.limit > 0.0 && 0.0 <= l.tokens <= l.burst as real
  }

  /** Allow keeps the level within bounds. */
  lemma AllowBounded(l: Limiter, now: Instant)
    requires Bounded(l)
    ensures Bounded(Allow(l, now).0)
  {
  }

  predicate NonDecreasing(times: seq<Instant>)
  {
    forall i, j | 0 <= i < j < |times| :: times[i] <= times[j]
  }

  /** Calls of Allow at the given instants, in order: the final limiter and
      how many calls were granted. */
  function Run(l: Limiter, times: seq<Instant>): (Limiter, nat)
    requires l.limit >= 0.0
    decreases |times|
  {
    if times == [] then (l, 0)
    else
      var (next, granted) := Allow(l, times[0]);
      var (last, more) := Run(next, times[1..]);
      (last, more + if granted then 1 else 0)
  }

  /** The zero limiter grants nothing, however often it is asked. */
  lemma {:induction false} ZeroLimiterNeverGrants(times: seq<Instant>)
    ensures Run(ZeroLimiter, times) == (ZeroLimiter, 0)
  {
    if times != [] {
      ZeroLimiterNeverGrants(times[1..]);
    }
  }

  /** Token accounting: over calls at non-decreasing instants from the last
      refill on, the grants plus the tokens left never exceed the tokens at
      the start plus those earned up to the final refill, which is no later
      than the last call. */
  lemma {:induction false} RunAccounting(l: Limiter, times: seq<Instant>)
    requires Bounded(l)
    requires NonDecreasing(times)
    requires times != [] ==> l.last <= times[0]
    ensures Bounded(Run(l, times).0)
    ensures l.last <= Run(l, times).0.last
    ensures times != [] ==> Run(l, times).0.last <= times[|times| - 1]
    ensures Run(l, times).1 as real + Run(l, times).0.tokens
         <= l.tokens + Earned(l.limit, Run(l, times).0.last - l.last)
    decreases |times|
  {
    if times != [] {
      var (next, granted) := Allow(l, times[0]);
      AllowBounded(l, times[0]);
      assert times[1..] != [] ==> next.last <= times[1..][0] by {
        if times[1..] != [] { assert times[0] <= times[1]; }
      }
      RunAccounting(next, times[1..]);
      var (final, more) := Run(next, times[1..]);
      if times[1..] != [] {
        assert times[1..][|times[1..]| - 1] == times[|times| - 1];
      } else {
        assert final == next;
      }
      if granted {
        // One token taken from what was there at times[0].
        var elapsed := times[0] - l.last;
        assert next.tokens + 1.0 <= l.tokens + Earned(l.limit, elapsed);
        EarnedAdditive(l.limit, elapsed, final.last - next.last);
      }
    }
  }

  /** The rate guarantee: over calls at non-decreasing instants, a limiter
      that refills grants at most its burst plus what it earns between the
      first and the last call. */
  lemma {:induction false} RunRateBound(l: Limiter, times: seq<Instant>)
    requires Bounded(l)
    requires NonDecreasing(times)
    requires times != [] && l.last <= times[0]
    ensures Run(l, times).1 as real
         <= l.burst as real + Earned(l.limit, times[|times| - 1] - times[0])
    decreases |times|
  {
    var (next, granted) := Allow(l, times[0]);
    AllowBounded(l, times[0]);
    if |times| == 1 {
      assert Run(next, times[1..]) == (next, 0);
    } else {
      assert times[0] <= times[1] && times[1] <= times[|times| - 1];
      assert times[1..][|times[1..]| - 1] == times[|times| - 1];
      if granted {
        assert next.last == times[0];
        RunAccounting(next, times[1..]);
        var (final, more) := Run(next, times[1..]);
        assert next.tokens + 1.0 <= l.burst as real;
        EarnedMonotone(l.limit, final.last - times[0], times[|times| - 1] - times[0]);
      } else {
        assert next == l;
        RunRateBound(l, times[1..]);
        EarnedMonotone(l.limit, times[|times| - 1] - times[1], times[|times| - 1] - times[0]);
      }
    }
  }

  /** The burst guarantee: a full bucket asked n times at one instant not
      before its last refill grants min(n, tokens) requests for a whole
      number of tokens. */
  lemma {:induction false} RunBurst(l: Limiter, now: Instant, n: nat, k: nat)
    requires Bounded(l) && l.last <= now
    requires Advanced(l, now) == k as real
    ensures Run(l, seq(n, _ => now)).1 == if n < k then n else k
    decreases n
  {
    var times := seq(n, _ => now);
    if n > 0 {
      var (next, granted) := Allow(l, now);
      assert times[1..] == seq(n - 1, _ => now);
      if k >= 1 {
        assert k <= l.burst;
        assert granted && next.last == now && next.tokens == (k - 1) as real;
        RunBurst(next, now, n - 1, k - 1);
      } else {
        assert !granted && next == l;
        RunBurst(l, now, n - 1, k);
      }
    }
  }
}
