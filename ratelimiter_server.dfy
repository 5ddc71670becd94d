/** The rate limiter service (ratelimiter/main.go): one token bucket per
    merchant, created on the merchant's first request from the QPS limit the
    merchant service reports, and kept from then on. */
module RateLimiterServer {
  import opened Common
  import opened Calendar
  import opened TokenBucket

  /** The bucket size every merchant with a positive QPS limit gets. */
  const Burst: nat := 10

  datatype Client = Client(limiter: Limiter, lastSeen: Instant)

  /** A request whose ID does not parse, and a failed QPS lookup. */
  datatype LimiterError = MalformedId | MerchantUnavailable

  /** getMaxQPS: the merchant's QPS limit, None when the merchant service is
      unreachable or answers with an error. */
  type QpsLookup = Uuid -> Option<int>

  /** The bucket for a merchant's QPS limit: rate.NewLimiter(maxQPS, 10) for a
      positive limit, the zero limiter otherwise. */
  function LimiterFor(maxQps: int): (l: Limiter)
    ensures maxQps > 0 ==> Bounded(l) && l.limit == maxQps as real && l.burst == Burst
    ensures maxQps <= 0 ==> l == ZeroLimiter
  {
    if maxQps > 0 then NewLimiter(maxQps as real, Burst) else ZeroLimiter
  }

  /** The limiters the server ever holds: a refilling one of burst 10, or
      the zero limiter. */
  predicate WellFormed(l: Limiter)
  {
    (Bounded(l) && l.burst == Burst) || l == ZeroLimiter
  }

  lemma AllowWellFormed(l: Limiter, now: Instant)
    requires WellFormed(l)
    ensures WellFormed(Allow(l, now).0)
  {
    if l != ZeroLimiter {
      AllowBounded(l, now);
    }
  }

  /** allowClient: the client table afterwards, the verdict and the error. A
      known merchant's bucket is asked and its last-seen time recorded; an
      unknown merchant's bucket is first made from the QPS lookup, and when
      that fails nothing is recorded and the verdict is false. */
  function AllowClientOutcome(clients: map<Uuid, Client>, id: Uuid, now: Instant, lookup: QpsLookup)
    : (r: (map<Uuid, Client>, bool, Option<LimiterError>))
    requires forall c | c in clients.Values :: WellFormed(c.limiter)
    ensures forall c | c in r.0.Values :: WellFormed(c.limiter)
    ensures r.2.Some? ==> !r.1 && r.0 == clients
    ensures r.2.None? <==> id in clients || lookup(id).Some?
    ensures r.2.None? ==> r.0.Keys == clients.Keys + {id} && r.0[id].lastSeen == now
    ensures forall k | k in clients && k != id :: k in r.0 && r.0[k] == clients[k]
  {
    if id !in clients && lookup(id).None? then (clients, false, Some(MerchantUnavailable))
    else
      var limiter := if id in clients then clients[id].limiter else LimiterFor(lookup(id).value);
      assert WellFormed(limiter);
      var (next, allow) := Allow(limiter, now);
      AllowWellFormed(limiter, now);
      (clients[id := Client(next, now)], allow, None)
  }

  /** The Allow RPC: parse the ID, then allowClient. */
  function AllowOutcome(clients: map<Uuid, Client>, reqId: string, parse: UuidParser, now: Instant, lookup: QpsLookup)
    : (r: (map<Uuid, Client>, bool, Option<LimiterError>))
    requires forall c | c in clients.Values :: WellFormed(c.limiter)
    ensures parse(reqId).None? ==> r == (clients, false, Some(MalformedId))
  {
    match parse(reqId)
    case None => (clients, false, Some(MalformedId))
    case Some(id) => AllowClientOutcome(clients, id, now, lookup)
  }

  class Server {
    var clients: map<Uuid, Client>

    ghost predicate Valid()
      reads this
    {
      forall c | c in clients.Values :: WellFormed(c.limiter)
    }

    /** newServerWithMemoryLimiter. */
    constructor ()
      ensures Valid() && clients == map[]
    {
      clients := map[];
    }

    method AllowClient(id: Uuid, now: Instant, lookup: QpsLookup) returns (allow: bool, err: Option<LimiterError>)
      requires Valid()
      modifies this
      ensures Valid()
      ensures (clients, allow, err) == AllowClientOutcome(old(clients), id, now, lookup)
    {
      var limiter;
      if id in clients {
        limiter := clients[id].limiter;
      } else {
        var maxQps := lookup(id);
        if maxQps.None? {
          return false, Some(MerchantUnavailable);
        }
        limiter := LimiterFor(maxQps.value);
      }
      var asked := TokenBucket.Allow(limiter, now);
      allow := asked.1;
      clients := clients[id := Client(asked.0, now)];
      err := None;
    }

    method Allow(reqId: string, parse: UuidParser, now: Instant, lookup: QpsLookup) returns (allow: bool, err: Option<LimiterError>)
      requires Valid()
      modifies this
      ensures Valid()
      ensures (clients, allow, err) == AllowOutcome(old(clients), reqId, parse, now, lookup)
    {
      var id := parse(reqId);
      if id.None? {
        return false, Some(MalformedId);
      }
      allow, err := AllowClient(id.value, now, lookup);
    }
  }

  /** Once a merchant has a bucket, the merchant service is not asked again:
      the outcome does not depend on the lookup, so a later change of the
      merchant's QPS limit is never seen. */
  lemma CachedLimiterIgnoresLookup(clients: map<Uuid, Client>, id: Uuid, now: Instant, lookup1: QpsLookup, lookup2: QpsLookup)
    requires forall c | c in clients.Values :: WellFormed(c.limiter)
    requires id in clients
    ensures AllowClientOutcome(clients, id, now, lookup1) == AllowClientOutcome(clients, id, now, lookup2)
  {
  }

  /** Merchants do not share buckets: a request of one merchant changes
      neither the verdict nor the error another merchant's next request
      gets, and leaves that merchant's entry as it was. */
  lemma OtherMerchantUnaffected(clients: map<Uuid, Client>, a: Uuid, b: Uuid, now1: Instant, now2: Instant,
                                lookup: QpsLookup)
    requires forall c | c in clients.Values :: WellFormed(c.limiter)
    requires a != b
    ensures var after := AllowClientOutcome(clients, a, now1, lookup).0;
      && (b in after <==> b in clients)
      && (b in clients ==> after[b] == clients[b])
      && AllowClientOutcome(after, b, now2, lookup).1 == AllowClientOutcome(clients, b, now2, lookup).1
      && AllowClientOutcome(after, b, now2, lookup).2 == AllowClientOutcome(clients, b, now2, lookup).2
  {
  }

  /** A merchant whose QPS limit is zero or negative is refused on every
      request, from the first on. */
  lemma NonPositiveQpsRefused(clients: map<Uuid, Client>, id: Uuid, now: Instant, lookup: QpsLookup)
    requires forall c | c in clients.Values :: WellFormed(c.limiter)
    requires id in clients ==> clients[id].limiter == ZeroLimiter
    requires id !in clients ==> lookup(id).Some? && lookup(id).value <= 0
    ensures var r := AllowClientOutcome(clients, id, now, lookup);
      !r.1 && r.2 == None && id in r.0 && r.0[id].limiter == ZeroLimiter
  {
  }

  /** The calls of one merchant at the given instants: the verdicts granted. */
  function Grants(clients: map<Uuid, Client>, id: Uuid, times: seq<Instant>, lookup: QpsLookup): nat
    requires forall c | c in clients.Values :: WellFormed(c.limiter)
    decreases |times|
  {
    if times == [] then 0
    else
      var (next, allow, _) := AllowClientOutcome(clients, id, times[0], lookup);
      Grants(next, id, times[1..], lookup) + if allow then 1 else 0
  }

  /** The merchant's consecutive requests are exactly the calls of its bucket. */
  lemma {:induction false} GrantsAreRun(clients: map<Uuid, Client>, id: Uuid, times: seq<Instant>, lookup: QpsLookup)
    requires forall c | c in clients.Values :: WellFormed(c.limiter)
    requires id in clients
    ensures Grants(clients, id, times, lookup) == Run(clients[id].limiter, times).1
    decreases |times|
  {
    if times != [] {
      var (next, allow, _) := AllowClientOutcome(clients, id, times[0], lookup);
      GrantsAreRun(next, id, times[1..], lookup);
    }
  }

  /** A merchant's first request behaves as if its bucket had already been
      made from the QPS lookup. */
  lemma {:induction false} FirstRequestBuildsBucket(clients: map<Uuid, Client>, id: Uuid, times: seq<Instant>, lookup: QpsLookup, q: int)
    requires forall c | c in clients.Values :: WellFormed(c.limiter)
    requires id !in clients && lookup(id) == Some(q)
    ensures Grants(clients, id, times, lookup) == Run(LimiterFor(q), times).1
  {
    var withBucket := clients[id := Client(LimiterFor(q), 0)];
    if times != [] {
      var (next, allow) := TokenBucket.Allow(LimiterFor(q), times[0]);
      assert clients[id := Client(next, times[0])] == withBucket[id := Client(next, times[0])];
      assert AllowClientOutcome(clients, id, times[0], lookup) == AllowClientOutcome(withBucket, id, times[0], lookup);
      assert Grants(clients, id, times, lookup) == Grants(withBucket, id, times, lookup);
    }
    GrantsAreRun(withBucket, id, times, lookup);
  }

  /** The service's rate guarantee: for a merchant with QPS limit q, the
      requests granted at non-decreasing instants from the first one on are
      at most 10 plus q for every second between the first and the last; a
      merchant with a limit of zero or less has none granted. */
  lemma RateLimitHolds(clients: map<Uuid, Client>, id: Uuid, times: seq<Instant>, lookup: QpsLookup, q: int)
    requires forall c | c in clients.Values :: WellFormed(c.limiter)
    requires id !in clients && lookup(id) == Some(q)
    requires NonDecreasing(times) && times != [] && ZeroTime <= times[0]
    ensures q > 0 ==> Grants(clients, id, times, lookup) as real <= Burst as real + Earned(q as real, times[|times| - 1] - times[0])
    ensures q <= 0 ==> Grants(clients, id, times, lookup) == 0
  {
    FirstRequestBuildsBucket(clients, id, times, lookup, q);
    if q > 0 {
      RunRateBound(LimiterFor(q), times);
    } else {
      ZeroLimiterNeverGrants(times);
    }
  }

  /** The burst: a merchant with a positive QPS limit, first seen at least ten
      seconds after the zero time (so its bucket has filled), has its first n
      requests at one instant granted up to 10. */
  lemma FirstBurstGranted(clients: map<Uuid, Client>, id: Uuid, now: Instant, n: nat, lookup: QpsLookup, q: int)
    requires forall c | c in clients.Values :: WellFormed(c.limiter)
    requires id !in clients && lookup(id) == Some(q) && q > 0
    requires ZeroTime + 10_000 <= now
    ensures Grants(clients, id, seq(n, _ => now), lookup) == if n < Burst then n else Burst
  {
    var l := LimiterFor(q);
    FirstRequestBuildsBucket(clients, id, seq(n, _ => now), lookup, q);
    EarnedMonotone(q as real, 10_000, now - ZeroTime);
    assert Earned(q as real, 10_000) == 10.0 * q as real;
    assert Advanced(l, now) == Burst as real;
    RunBurst(l, now, n, Burst);
  }
}
