/** The gateway's client of the rate limiter (api/ratelimiter/service.go):
    it admits a request unless the rate limiter answers that it must not. */
module ApiRateLimiter {
  import opened Common
  import RateLimiterServer

  /** How an Allow call ends: the dial fails, the call returns an error, or
      the service answers. */
  datatype RpcOutcome = DialFailed | CallFailed | Answered(allow: bool)

  /** The constructor's fields; `failOpen` is stored and never read. */
  datatype RateLimiterService = RateLimiterService(address: string, failOpen: bool)

  /** RateLimiterService.Allow: fail open. Only an answer of false refuses. */
  function Allow(svc: RateLimiterService, outcome: RpcOutcome): (admit: bool)
    ensures !admit <==> outcome == Answered(false)
    ensures outcome.Answered? ==> admit == outcome.allow
  {
    var failOpen := true;
    match outcome
    case DialFailed => failOpen
    case CallFailed => failOpen
    case Answered(allow) => allow
  }

  /** The decision does not depend on the service's configuration: the
      address only picks the server, and the failOpen field is ignored. */
  lemma AllowIgnoresConfiguration(outcome: RpcOutcome, svc1: RateLimiterService, svc2: RateLimiterService)
    ensures Allow(svc1, outcome) == Allow(svc2, outcome)
  {
  }

  /** What the client sees of the server's answer: gRPC drops the response
      of a handler that returns an error, so the call fails. */
  function Delivered(allow: bool, err: Option<RateLimiterServer.LimiterError>): (outcome: RpcOutcome)
    ensures outcome.CallFailed? <==> err.Some?
    ensures outcome != DialFailed
  {
    if err.Some? then CallFailed else Answered(allow)
  }

  /** End to end: when the merchant service cannot be reached for a merchant
      the rate limiter has not seen, the rate limiter refuses with an error,
      nothing is cached, and the gateway admits the request. */
  lemma MerchantServiceDownAdmits(clients: map<Uuid, RateLimiterServer.Client>, reqId: string, parse: UuidParser,
                                  now: Instant, lookup: RateLimiterServer.QpsLookup, svc: RateLimiterService)
    requires forall c | c in clients.Values :: RateLimiterServer.WellFormed(c.limiter)
    requires parse(reqId).Some? && parse(reqId).value !in clients && lookup(parse(reqId).value).None?
    ensures var (after, allow, err) := RateLimiterServer.AllowOutcome(clients, reqId, parse, now, lookup);
      && !allow && err == Some(RateLimiterServer.MerchantUnavailable) && after == clients
      && Allow(svc, Delivered(allow, err))
  {
  }

  /** End to end: a merchant the rate limiter knows gets exactly its bucket's
      verdict. */
  lemma KnownMerchantGetsVerdict(clients: map<Uuid, RateLimiterServer.Client>, reqId: string, parse: UuidParser,
                                 now: Instant, lookup: RateLimiterServer.QpsLookup, svc: RateLimiterService)
    requires forall c | c in clients.Values :: RateLimiterServer.WellFormed(c.limiter)
    requires parse(reqId).Some? && parse(reqId).value in clients
    ensures var (after, allow, err) := RateLimiterServer.AllowOutcome(clients, reqId, parse, now, lookup);
      Allow(svc, Delivered(allow, err)) == allow && err.None?
  {
  }
}
