/** The gateway's routes (api/main.go): each route is its middlewares in
    order, then its handler. POST /payment and GET /payment/:id pass
    authMiddleware then rateLimitMiddleware; PUT /payment, the bank's
    callback, passes the IP gate. */
module ApiRoutes {
  import opened Common
  import ApiRateLimiter
  import opened ApiMiddleware
  import opened ApiHandlers
  import opened ApiEntities

  /** The response of a middleware that aborts. */
  function Aborted(g: Gate): (r: Response)
    requires g.Halt?
    ensures r.status == g.status
    ensures g.error.None? <==> r.reply == NoBody
  {
    Response(g.status, match g.error case None => NoBody case Some(e) => Error(Text(e)))
  }

  /** What the admission middlewares decide, ahead of the handler: an
      aborting response with the calls made so far, or the claims the
      handler runs under. */
  datatype Admission = Refused(response: Response, calls: seq<Call>) | Admitted(claims: Claims, calls: seq<Call>)

  /** authMiddleware, then rateLimitMiddleware with the rate limiter's
      answer `limiter` about the merchant of the claims. */
  function Admit(header: string, jwt: JwtParser, now: Instant,
                 svc: ApiRateLimiter.RateLimiterService, limiter: ApiRateLimiter.RpcOutcome): Admission
  {
    match Authenticate(header, jwt, now)
    case Unauthorized(e) => Refused(Response(StatusUnauthorized, Error(Text(e))), [])
    case Authorized(claims) =>
      var gate := RateLimitGate(svc, limiter);
      if gate.Halt? then Refused(Aborted(gate), [AskRateLimiter(claims.id)])
      else Admitted(claims, [AskRateLimiter(claims.id)])
  }

  /** POST /payment. */
  function PostPayment(header: string, jwt: JwtParser, now: Instant,
                       svc: ApiRateLimiter.RateLimiterService, limiter: ApiRateLimiter.RpcOutcome,
                       bind: Option<CreateBody>, parsers: Parsers, answers: CreateAnswers): (Response, seq<Call>)
  {
    match Admit(header, jwt, now, svc, limiter)
    case Refused(response, calls) => (response, calls)
    case Admitted(claims, calls) =>
      var (response, more) := CreateSaga(bind, claims, parsers, answers, now);
      (response, calls + more)
  }

  /** GET /payment/:id. */
  function GetPayment(header: string, jwt: JwtParser, now: Instant,
                      svc: ApiRateLimiter.RateLimiterService, limiter: ApiRateLimiter.RpcOutcome,
                      idParam: string, parse: UuidParser, read: Option<Payment>): (Response, seq<Call>)
  {
    match Admit(header, jwt, now, svc, limiter)
    case Refused(response, calls) => (response, calls)
    case Admitted(claims, calls) =>
      var (response, more) := ReadSaga(idParam, parse, read, claims);
      (response, calls + more)
  }

  /** The decision of a request handler on the request's remote address. */
  type Handle = (string, HostSplitter) -> Gate

  /** What a route may be given in front of its handler: a request handler
      (gin's HandlerFunc, `func(*gin.Context)`), or a function that makes
      one from a configured string (`func(string) func(*gin.Context)`),
      which gin does not take as a handler. */
  datatype Middleware = HandlerFunc(handle: Handle) | HandlerFactory(make: string -> Handle)

  /** A route builds only when every middleware given to it is a request
      handler. */
  predicate RouteBuilds(chain: seq<Middleware>)
  {
    forall i | 0 <= i < |chain| :: chain[i].HandlerFunc?
  }

  /** restrictMiddleware: from the allowed IP, the handler that gates on it. */
  function Restrict(allowedIp: string): Handle
  {
    (remoteAddr: string, split: HostSplitter) => RestrictGate(allowedIp, remoteAddr, split)
  }

  /** The middlewares of PUT /payment as written: the factory itself. */
  function PutMiddlewaresAsWritten(): seq<Middleware>
  {
    [HandlerFactory(Restrict)]
  }

  /** The middlewares of PUT /payment as intended: the factory applied to
      the allowed IP. */
  function PutMiddlewares(allowedIp: string): seq<Middleware>
  {
    [HandlerFunc(Restrict(allowedIp))]
  }

  /** As written, the route is given a factory where a handler is expected,
      so it does not build. */
  lemma PutRouteAsWrittenDoesNotBuild()
    ensures !RouteBuilds(PutMiddlewaresAsWritten())
  {
    assert PutMiddlewaresAsWritten()[0].HandlerFactory?;
  }

  /** As intended, the route builds, and its one middleware is the IP gate
      for the allowed IP. */
  lemma PutRouteBuilds(allowedIp: string, remoteAddr: string, split: HostSplitter)
    ensures RouteBuilds(PutMiddlewares(allowedIp))
    ensures |PutMiddlewares(allowedIp)| == 1
    ensures PutMiddlewares(allowedIp)[0].handle(remoteAddr, split) == RestrictGate(allowedIp, remoteAddr, split)
  {
  }

  /** PUT /payment, behind the IP gate for `allowedIp`, as intended. */
  function PutPayment(allowedIp: string, remoteAddr: string, split: HostSplitter,
                      bind: Option<BankMessage>, parse: UuidParser, found: Option<Payment>,
                      updated: bool, now: Instant): (Response, seq<Call>)
  {
    var gate := PutMiddlewares(allowedIp)[0].handle(remoteAddr, split);
    if gate.Halt? then (Aborted(gate), []) else CallbackSaga(bind, parse, found, updated, now)
  }

  /** Admission comes first: a request without a valid token is answered
      401 without calling any service; one the rate limiter refuses is
      answered 429 after that single call; only an admitted request
      reaches the handler, whose calls follow the rate limiter's. */
  lemma PostPaymentAdmission(header: string, jwt: JwtParser, now: Instant,
                             svc: ApiRateLimiter.RateLimiterService, limiter: ApiRateLimiter.RpcOutcome,
                             bind: Option<CreateBody>, parsers: Parsers, answers: CreateAnswers)
    ensures var (response, calls) := PostPayment(header, jwt, now, svc, limiter, bind, parsers, answers);
      var auth := Authenticate(header, jwt, now);
      && (auth.Unauthorized? ==> response.status == StatusUnauthorized && calls == [])
      && (auth.Authorized? && limiter == ApiRateLimiter.Answered(false) ==>
            response.status == StatusTooManyRequests && calls == [AskRateLimiter(auth.claims.id)])
      && (auth.Authorized? && limiter != ApiRateLimiter.Answered(false) ==>
            (response, calls) ==
              (CreateSaga(bind, auth.claims, parsers, answers, now).0,
               [AskRateLimiter(auth.claims.id)] + CreateSaga(bind, auth.claims, parsers, answers, now).1))
  {
    RateLimitGateFailsOpen(svc, limiter);
  }

  /** The ledger is only touched for a request whose token is valid at
      `now` and that the rate limiter did not refuse, and always after the
      rate limiter was asked about the token's merchant. */
  lemma PostPaymentLedgerOnlyAfterAdmission(header: string, jwt: JwtParser, now: Instant,
                                            svc: ApiRateLimiter.RateLimiterService, limiter: ApiRateLimiter.RpcOutcome,
                                            bind: Option<CreateBody>, parsers: Parsers, answers: CreateAnswers, k: nat)
    requires var calls := PostPayment(header, jwt, now, svc, limiter, bind, parsers, answers).1;
      k < |calls| && TouchesLedger(calls[k])
    ensures var auth := Authenticate(header, jwt, now);
      && auth.Authorized? && ClaimsValid(auth.claims, now)
      && limiter != ApiRateLimiter.Answered(false)
      && 0 < k
      && PostPayment(header, jwt, now, svc, limiter, bind, parsers, answers).1[0] == AskRateLimiter(auth.claims.id)
  {
    AuthenticateSpec(header, jwt, now);
    RateLimitGateFailsOpen(svc, limiter);
  }

  /** A payment record is only answered to a request whose token is valid
      at `now`, admitted by the rate limiter, and whose merchant owns the
      payment. */
  lemma GetPaymentOnlyToOwner(header: string, jwt: JwtParser, now: Instant,
                              svc: ApiRateLimiter.RateLimiterService, limiter: ApiRateLimiter.RpcOutcome,
                              idParam: string, parse: UuidParser, read: Option<Payment>)
    requires GetPayment(header, jwt, now, svc, limiter, idParam, parse, read).0.reply.Record?
    ensures var auth := Authenticate(header, jwt, now);
      && auth.Authorized? && ClaimsValid(auth.claims, now)
      && limiter != ApiRateLimiter.Answered(false)
      && read.Some?
      && GetPayment(header, jwt, now, svc, limiter, idParam, parse, read).0.reply.payment == read.value
      && read.value.merchantId == auth.claims.id
  {
    AuthenticateSpec(header, jwt, now);
    RateLimitGateFailsOpen(svc, limiter);
    match Admit(header, jwt, now, svc, limiter)
    case Refused(_, _) =>
    case Admitted(claims, _) => ReadSagaSpec(idParam, parse, read, claims);
  }

  /** The bank's callback makes no call unless it comes from the allowed
      IP, and from there on is exactly the callback handler. */
  lemma PutPaymentGated(allowedIp: string, remoteAddr: string, split: HostSplitter,
                        bind: Option<BankMessage>, parse: UuidParser, found: Option<Payment>,
                        updated: bool, now: Instant)
    ensures var (response, calls) := PutPayment(allowedIp, remoteAddr, split, bind, parse, found, updated, now);
      && (split(remoteAddr) != Some(allowedIp) ==>
            calls == [] && response.status in {StatusInternalServerError, StatusUnauthorized})
      && (split(remoteAddr) == Some(allowedIp) ==>
            (response, calls) == CallbackSaga(bind, parse, found, updated, now))
  {
    RestrictGateSpec(allowedIp, remoteAddr, split);
  }
}
