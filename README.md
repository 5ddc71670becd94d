# A verified model of the payment gateway

This project models the core of a small payment gateway written in Go. The
gateway has four services:

- the **ledger** holds the payment records in memory. It keeps an index from
  the bank's reference for a payment to the payment's id.
- the **merchant** service holds the merchants and their password hashes.
- the **rate limiter** keeps one token bucket per merchant. A bucket is made
  on the merchant's first request, from the QPS limit that the merchant
  service reports.
- the **API gateway** authenticates a merchant's request and asks the rate
  limiter to admit it. It then records the payment in the ledger and relays
  it to the bank. It records the bank's answer, and later the bank's
  asynchronous callback.

How each part is modelled:

- **Entities.** The validation rules (card, payment, merchant, request
  bodies) are Dafny functions. Their guard order and error values are stated
  in lemmas.
- **Stores.** The two in-memory stores and the rate limiter's client table
  are classes. Their maps are fields, and each method states the whole new
  state: which entries are added, which are replaced, and that nothing else
  changes. Invariants are kept by every method, for example that each
  record's id is its key and that every bank reference points to a stored
  payment.
- **Ledger server.** Its handlers are methods over the store, proved against
  the same kind of state description.
- **Gateway.** Its handlers are sagas. Each is a function over the answers of
  its collaborators (merchant service, ledger, bank). It returns the HTTP
  response and the list of calls it made, with their arguments. Routes chain
  the middlewares in front of those functions.

Conventions:

- **Identifiers.** A uuid.UUID is a natural number, and 0 is uuid.Nil.
- **Instants.** An instant is an integer count of milliseconds since
  0000-01-01. Go's zero `time.Time` is `Calendar.ZeroTime`, the first
  millisecond of year 1.
- **The current time.** `time.Now()` becomes a parameter `now`, and one
  request sees a single `now`.
- **Parsers.** `uuid.Parse` and `time.Parse` with the long layout
  `2006-01-02T15:04:05.000` are oracle parameters. `uuid.New` is one too.
  The one fact assumed of the time parser is that it rejects the empty
  string (`Common.RejectsEmptyTime`).
- **The card expiry parse.** It is modelled exactly: `fmt.Sprintf("%d-%02d")`
  followed by `time.Parse("2006-01")`. It succeeds exactly for a four-digit
  year and a month from 1 to 12.
- **Hashing.** bcrypt's hash and compare are a function and a predicate
  given as parameters.
- **JWT.** jwt-go's parse is an oracle that returns the claims and the
  token's validity.
- **The token bucket.** golang.org/x/time/rate is modelled concretely, as far
  as `Limiter.Allow` reaches. `NewLimiter(r, b)` starts empty at the zero
  time. A call refills the bucket by the elapsed time times the rate, capped
  at the burst, and takes one token when a whole one is there. A limiter with
  rate 0 spends its burst. This concrete model lets the rate limiter's
  guarantee be stated and proved (`RateLimiterServer.RateLimitHolds`,
  `RateLimiterServer.FirstBurstGranted`), which an abstract limiter could not
  support.

Three behaviours of the code are modelled as they are:

- **Route order.** The routes check admission before the ledger is touched
  (api/main.go:71-73). A request the rate limiter refuses therefore reaches
  no service other than the rate limiter.
- **No terminal-state guard.** The ledger's status updates never check the
  current status, so a SUCCESS or FAIL record can be overwritten.
- **Stale bank references.** Nothing is removed from the bank-reference
  index. A payment's earlier reference stays in it after the payment gets a
  new one, and a reused reference is remapped to the later payment.

Two places follow the evident intent instead of the code. Each has a row
under "## Findings", with the code as written modelled beside it:

- **The bank relay.** The create saga (`ApiHandlers.CreateSaga`) calls the
  corrected relay `ApiBank.Relay`, which treats a bank status other than 201
  and 400 as an error. `ApiHandlers.CreateSagaAsWritten` is the same
  handler over the relay as written.
- **The callback route's IP gate.** api/main.go:72 passes the
  `restrictMiddleware` factory itself, of type
  `func(string) func(*gin.Context)`, where gin takes a request handler, so
  the route as written does not build (`ApiRoutes.PutMiddlewaresAsWritten`).
  `ApiRoutes.PutPayment` uses the intended `restrictMiddleware(ip)`, with
  the allowed IP as a parameter.

## Model

| member | source | states |
|---|---|---|
| Decimal.NatDigitsValue | ledger/entities/card.go:47 | Reading back the decimal digits of a natural number gives the number. |
| Decimal.NatDigitsLength | ledger/entities/card.go:47 | The digits of n fit in k characters exactly when n < 10^k, which is what decides whether `%d` yields four digits. |
| Decimal.FormatIntRoundTrip | api/entities/payment.go:30 | Parsing `%d` of any integer, negative included, gives it back. |
| Decimal.FormatIntInjective | api/entities/payment.go:30 | Distinct integers have distinct `%d` numerals. |
| Decimal.FormatIntFirst | api/entities/payment.go:30 | A numeral is non-empty and starts with a minus sign or a digit. |
| Calendar.ParseYearMonth | ledger/entities/card.go:47-50 | The "2006-01" layout only ever yields a month from 1 to 12. |
| Calendar.DaysBeforeYearIncreasing | ledger/entities/card.go:51 | Later years start later, which orders the first instants of months. |
| Calendar.MonthStartOrder | ledger/entities/card.go:51 | The first instant of a month is before another's exactly when the month comes earlier in the calendar; equal instants mean the same month. |
| LedgerEntities.ExpiryParse | ledger/entities/card.go:47-50 | Formatting year and month with `%d-%02d` and parsing with "2006-01" gives them back exactly when the year has four digits and the month is 1..12, and fails otherwise. |
| LedgerEntities.ValidateCardOutcome | ledger/entities/card.go:39-58 | Validate returns the first failing check in source order: empty name, empty number, unparsable expiry, expiry month begun before now, CVV outside 0..999. |
| LedgerEntities.ValidateCardAccepts | ledger/entities/card.go:39-58 | A card passes exactly when all five conditions hold. |
| LedgerEntities.ValidateCardEarlier | ledger/entities/card.go:51-53 | A card valid at some instant is valid at every earlier instant. |
| LedgerEntities.CardTestCases | ledger/entities/card.go:39-58 | For any now between 2020-01 and 2099-10: 2020-01 is expired and 2099-10 is not; the name is checked before the number; an expired card with a bad CVV reports CardExpired. |
| LedgerEntities.NewCreditCard | ledger/entities/card.go:28-37 | The card is built from its arguments unchanged and returned with Validate's verdict, even when it is invalid. |
| LedgerEntities.StatusOfCode | ledger/entities/payment.go:10-17 | Exactly the codes 0..3 are statuses, and decoding inverts the encoding. |
| LedgerEntities.StatusEncoding | ledger/entities/payment.go:10-17 | Created=0, Pending=1, Success=2, Fail=3, and every status survives encoding and decoding. |
| LedgerEntities.ValidatePaymentAccepts | ledger/entities/payment.go:79-90 | A payment passes exactly when the amount is not negative, currency and validation method are non-empty, and the card is valid. |
| LedgerEntities.ValidatePaymentOrder | ledger/entities/payment.go:80-89 | The first failure wins in the order amount, currency, validation method; after those three the verdict is exactly the card's. Zero is a valid amount. |
| LedgerEntities.ValidatePaymentFields | ledger/entities/payment.go:79-90 | The verdict depends only on amount, currency, validation method and card; metadata, ids, status and bank fields are never looked at. |
| LedgerEntities.Equal | ledger/entities/payment.go:92-106 | Equal holds exactly when the payments agree on every field except the id. |
| LedgerEntities.EqualIsEquivalence | ledger/entities/payment.go:92-106 | Equal is reflexive, symmetric and transitive, and insensitive to the id. |
| LedgerEntities.NewPayment | ledger/entities/payment.go:45-76 | A purchase time or merchant id that does not parse yields the empty payment with that error; otherwise a record with status Created, a Nil id and the given fields is returned with the verdict of Validate. |
| LedgerStore.Storage.constructor | ledger/storage/memory/memory.go:26-31 | The store starts empty and satisfies its invariants. |
| LedgerStore.Storage.Create | ledger/storage/memory/memory.go:34-60 | The retry loop stops at the first drawn id that is not a key. An invalid payment yields Nil and changes nothing. A valid one is stored under that fresh id, with the id set, and indexed by its bank reference when it has one. The invariants are kept. |
| LedgerStore.Storage.Read | ledger/storage/memory/memory.go:63-73 | Returns the stored record exactly when the id is a key, and UnknownPayment with the empty payment otherwise; no state change. |
| LedgerStore.Storage.ReadUsingBankReference | ledger/storage/memory/memory.go:76-91 | An unknown reference is UnknownBankReference; under the invariant the UnknownPayment branch cannot be taken and the record found has the indexed id. |
| LedgerStore.Storage.Update | ledger/storage/memory/memory.go:94-113 | Unknown id before validation, then the validation error, both without change; otherwise the whole record is replaced, the key set is unchanged and the reference is (re)mapped when non-Nil. |
| LedgerServer.Server.constructor | ledger/main.go:32-36 | The server starts with an empty store. |
| LedgerServer.Server.CreatePayment | ledger/main.go:38-61 | A bad card, an unparsable time or merchant id, or an invalid payment is refused before storage is touched. Otherwise the record is stored with status Created under a fresh, non-Nil id. The bank index is unchanged. |
| LedgerServer.Server.ReadPayment | ledger/main.go:63-99 | A malformed id, an unknown id, or the stored record. |
| LedgerServer.Server.ReadPaymentUsingBankReference | ledger/main.go:101-137 | A malformed reference, an unknown one, or the record the reference indexes. |
| LedgerServer.Server.UpdatePaymentToPending | ledger/main.go:139-173 | A malformed id, bank id or request time, or an unknown payment, writes nothing. Otherwise the record as read gets bank id, request time and status Pending, then goes through Update. A record that fails validation is refused with its validation error, and nothing is written. No check of the current status. |
| LedgerServer.Server.UpdatePaymentToSuccess | ledger/main.go:175-209 | As Pending, with response time, bank id, bank message and status Success. |
| LedgerServer.Server.UpdatePaymentToFail | ledger/main.go:211-258 | An absent bank id becomes Nil and an absent message "". An absent response time parses "" and so fails with nothing written. Otherwise as Success with status Fail. |
| MerchantEntities.Validate | merchant/entities/merchant.go:30-41 | A merchant passes exactly when its QPS is not negative (zero passes), username, password and name are non-empty; the QPS check comes first, the name check last. |
| MerchantEntities.NewMerchantAsWritten | merchant/entities/merchant.go:44-65 | The code as written: an invalid merchant comes back masked with the error; a hash failure gives the empty merchant and no error; otherwise the password is replaced by its hash. |
| MerchantEntities.NewMerchantAsWrittenDropsHashFailure | merchant/entities/merchant.go:58-61 | With a hash that fails, the factory reports success for a merchant that has lost its username and fails validation. |
| MerchantEntities.NewMerchantSound | merchant/entities/merchant.go:44-65 | The corrected factory succeeds exactly when the merchant is valid and the hash succeeds, then returns it with the hashed password; a failure never returns the plain password. |
| MerchantEntities.NewMerchantAgrees | merchant/entities/merchant.go:44-65 | The corrected and the written factory agree whenever the hash succeeds. |
| MerchantStore.Storage.constructor | merchant/storage/memory/memory.go:31-36 | The store starts empty. |
| MerchantStore.Storage.CreateMerchant | merchant/storage/memory/memory.go:39-62 | An invalid merchant or a taken username yields Nil and changes nothing. The supplied id is kept when non-Nil and unused, and replaced by the fresh one otherwise. Both maps gain exactly the new entry, and the username index stays a bijection. |
| MerchantStore.Storage.ReadMerchant | merchant/storage/memory/memory.go:65-76 | The stored merchant, or UnknownMerchantId with the empty merchant; no state change. |
| MerchantStore.Storage.FindMerchantID | merchant/storage/memory/memory.go:78-99 | Unknown username, then invalid password, else the id of the merchant with that username; the UnknownMerchantId branch cannot be taken under the invariant. |
| MerchantStore.Storage.UsernamesUnique | merchant/storage/memory/memory.go:48-61 | No two stored merchants share a username. |
| TokenBucket.Allow | ratelimiter/main.go:87 | Limiter.Allow: with a positive rate, grants exactly when the burst is at least one and a whole token has accrued by now, and then takes it at now; a refusal changes nothing; the rate never changes. |
| TokenBucket.AllowBounded | ratelimiter/main.go:87 | A refilling bucket's level stays between zero and the burst. |
| TokenBucket.ZeroLimiterNeverGrants | ratelimiter/main.go:81 | The zero limiter refuses every call and never changes. |
| TokenBucket.RunAccounting | ratelimiter/main.go:87 | Over calls at non-decreasing instants, grants plus tokens left never exceed the initial tokens plus those earned. |
| TokenBucket.RunRateBound | ratelimiter/main.go:79 | Over calls at non-decreasing instants, a refilling limiter grants at most its burst plus rate × elapsed seconds. |
| TokenBucket.RunBurst | ratelimiter/main.go:79 | n calls at one instant on a bucket holding k whole tokens grant min(n, k). |
| RateLimiterServer.LimiterFor | ratelimiter/main.go:78-82 | A positive QPS gives a bucket of that rate and burst 10; zero or negative gives the zero limiter. |
| RateLimiterServer.AllowClientOutcome | ratelimiter/main.go:68-88 | A failed lookup for an unseen merchant caches nothing and refuses with an error, and that is the only failure. Otherwise the table gains the merchant if it was new, removes no entry, sets the merchant's last-seen time to now, and keeps every other merchant's entry as it was. Every bucket stays well formed. |
| RateLimiterServer.AllowOutcome | ratelimiter/main.go:90-105 | An unparsable id is refused with an error and no change. |
| RateLimiterServer.Server.constructor | ratelimiter/main.go:43-48 | The server starts with no clients. |
| RateLimiterServer.Server.AllowClient | ratelimiter/main.go:68-88 | The new client table, verdict and error are those of AllowClientOutcome; the table stays well formed. |
| RateLimiterServer.Server.Allow | ratelimiter/main.go:90-105 | The new client table, verdict and error are those of AllowOutcome. |
| RateLimiterServer.CachedLimiterIgnoresLookup | ratelimiter/main.go:72-84 | Once a merchant has a bucket the lookup is never consulted again. |
| RateLimiterServer.OtherMerchantUnaffected | ratelimiter/main.go:68-88 | A request of one merchant leaves another merchant's entry as it was, and changes neither the verdict nor the error of that merchant's next request. |
| RateLimiterServer.NonPositiveQpsRefused | ratelimiter/main.go:80-82 | A merchant with QPS limit ≤ 0 is refused on every call, without error, and keeps the zero limiter. |
| RateLimiterServer.GrantsAreRun | ratelimiter/main.go:86-87 | A merchant's consecutive requests are exactly the consecutive calls of its cached bucket. |
| RateLimiterServer.FirstRequestBuildsBucket | ratelimiter/main.go:72-87 | An unseen merchant's requests behave as the bucket built from its QPS limit. |
| RateLimiterServer.RateLimitHolds | ratelimiter/main.go:68-88 | For QPS q > 0 the grants over any non-decreasing run of requests are at most 10 + q × elapsed seconds; for q ≤ 0 none is granted. |
| RateLimiterServer.FirstBurstGranted | ratelimiter/main.go:78-79 | A new merchant with q > 0 has up to 10 of its first requests at one instant granted. |
| ApiRateLimiter.Allow | api/ratelimiter/service.go:27-49 | Fail open: refuses exactly when the service answers false; an answer is returned as is. |
| ApiRateLimiter.AllowIgnoresConfiguration | api/ratelimiter/service.go:19-29 | The constructor's failOpen field plays no part in the decision. |
| ApiRateLimiter.Delivered | ratelimiter/main.go:98-104 | A server-side error reaches the client as a failed call, whatever the verdict. |
| ApiRateLimiter.MerchantServiceDownAdmits | api/ratelimiter/service.go:43-47 | When the merchant service cannot be reached for an unseen merchant, the rate limiter refuses with an error and caches nothing, and the gateway admits the request. |
| ApiRateLimiter.KnownMerchantGetsVerdict | api/ratelimiter/service.go:48 | A merchant with a bucket gets exactly the bucket's verdict. |
| ApiBank.RelayAsWritten | api/bank/service.go:83-88 | As written: a status other than 201 or 400 returns the payment with only the request time set, and no error. |
| ApiBank.RelayAsWrittenAcceptsServerError | api/bank/service.go:83-88 | A 500 from the bank is reported as success without a bank reference. |
| ApiBank.RelaySpec | api/bank/service.go:74-118 | The corrected relay succeeds exactly on a 201/400 whose body decodes with success and a UUID. The payment then gets the request time, message and reference. A send failure changes nothing. Other failures set only the request time and, once the body decoded, the message. A decline reports the bank's message, and any other status is an error. |
| ApiBank.RelayAgrees | api/bank/service.go:74-118 | The corrected and the written relay agree except on a status other than 201 and 400. |
| ApiEntities.StatusString | api/entities/payment.go:29-30 | Values outside 0..3 render as their decimal numeral. |
| ApiEntities.StatusNames | api/entities/payment.go:19-28 | The four statuses render CREATED, PENDING, SUCCESS, FAIL. |
| ApiEntities.StatusStringInjective | api/entities/payment.go:19-32 | No two values render alike. |
| ApiEntities.ConstantsMatchLedger | api/entities/payment.go:12-17 | The gateway's constants are the ledger's status codes, in the same order. |
| ApiMiddleware.Split | api/middleware.go:38 | strings.Split on " " gives at least one piece and no piece contains a space. |
| ApiMiddleware.SplitJoin | api/middleware.go:38 | Joining the pieces gives the header back; there is one piece more than there are spaces. |
| ApiMiddleware.JoinSplit | api/middleware.go:38 | Splitting a join of space-free pieces gives those pieces. |
| ApiMiddleware.TrimLeft | api/middleware.go:40-42 | Drops exactly the leading white space: a suffix, not starting with white space, and only white space dropped. |
| ApiMiddleware.TrimRight | api/middleware.go:40-42 | Drops exactly the trailing white space. |
| ApiMiddleware.TrimSpaceSpec | api/middleware.go:40-42 | strings.TrimSpace keeps a slice that neither starts nor ends with white space, and drops only white space around it. |
| ApiMiddleware.TrimSpaceEmpty | api/middleware.go:45-48 | The token is empty exactly when the text is all white space. |
| ApiMiddleware.TrimSpaceIdempotent | api/middleware.go:40-42 | Trimming twice is trimming once. |
| ApiMiddleware.ExtractTokenWithScheme | api/middleware.go:38-40 | "scheme token" with space-free parts yields the trimmed token. |
| ApiMiddleware.ExtractTokenWhole | api/middleware.go:41-43 | A header with no space or with several is taken whole, trimmed. |
| ApiMiddleware.AuthenticateSpec | api/middleware.go:23-67 | The request goes on, carrying the token's claims, exactly when the token is not blank, parses, is valid, and has a non-Nil id and an expiry not before now. A blank token is refused with "no token provided" and a parse error with "could not parse token". |
| ApiMiddleware.AuthenticateExpires | api/middleware.go:28-30 | An accepted token stays accepted up to its expiry instant and is refused after it. |
| ApiMiddleware.RateLimitGate | api/middleware.go:69-77 | An abort is always 429 "too many requests". |
| ApiMiddleware.RateLimitGateFailsOpen | api/middleware.go:69-77 | The gate aborts exactly when the rate limiter answers false. |
| ApiMiddleware.RestrictGateSpec | api/middleware.go:79-94 | The request goes on exactly when the remote host is the allowed IP; an address without a port is 500, another host 401. |
| ApiHandlers.ValidateCreateBodySpec | api/handlers.go:215-233 | A body passes exactly when the time parses, amount ≥ 0 and currency, validation method and metadata are non-empty; each error only when the earlier checks passed. |
| ApiHandlers.PurchaseTimeOfValidBody | api/handlers.go:207-213 | Once validated, the purchase time is the parsed one, never the fallback now. |
| ApiHandlers.ValidateBankMessageSpec | api/handlers.go:241-249 | A callback passes exactly when id and message are non-empty, id first; the success flag is not looked at. |
| ApiHandlers.CreateSagaValidatesFirst | api/handlers.go:54-65 | A body that does not bind or validate is answered 400 with no call made, and only then. |
| ApiHandlers.CreateSagaOrder | api/handlers.go:67-96 | The merchant is fetched first. The ledger create is called only for a fetched merchant, with the draft. The bank is asked only about the created payment, with the ledger's id, the merchant's id, status CREATED and the parsed purchase time. Nothing follows the recording. |
| ApiHandlers.CreateSagaRecordsRelay | api/handlers.go:95-112 | A failed relay records FAIL with the payment the relay returned; otherwise PENDING with the bank's reference; the ledger's id is kept. |
| ApiHandlers.CreateSagaAnswer | api/handlers.go:53-114 | 200 exactly when every step succeeded, with the ledger's id and the bank's message; its status is FAIL exactly when the relay failed and PENDING otherwise; other answers are 400 or 500. |
| ApiHandlers.CreateSagaAsWrittenPendsServerError | api/handlers.go:95-113 | With the relay as written (api/bank/service.go:83-88), a bank answer of 500 to a created payment records it PENDING under reference uuid.Nil and answers 200 "PENDING". |
| ApiHandlers.CreateSagaFailsServerError | api/handlers.go:95-113 | With the corrected relay, the same bank answer of 500 records the payment FAIL, without a bank reference, and answers 200 "FAIL". |
| ApiHandlers.CallbackSagaSpec | api/handlers.go:116-164 | Acknowledged (200) exactly when the message binds, is valid, carries a UUID the ledger knows and the update succeeds. The update is SUCCESS or FAIL as the bank says, with the response time and message on the record as read. An invalid message makes no call, and an unknown reference makes no update. |
| ApiHandlers.ReadSagaSpec | api/handlers.go:166-196 | 200 with the ledger's record exactly when the id parses, the ledger has it and the merchant owns it. Another merchant's payment is 401 and a missing one 400. The ledger is read once, and only for a parsed id. |
| ApiRoutes.Aborted | api/middleware.go:46-90 | An aborting middleware's response keeps its status and has a body exactly when it has an error text. |
| ApiRoutes.PostPaymentAdmission | api/main.go:71 | POST /payment: no valid token is 401 with no call. A refusal by the rate limiter is 429 after that one call. Otherwise it is the rate-limiter call followed by exactly the create saga. |
| ApiRoutes.PostPaymentLedgerOnlyAfterAdmission | api/main.go:71 | Any ledger call on POST /payment comes after the rate limiter was asked, for a token valid at now that the rate limiter did not refuse. |
| ApiRoutes.GetPaymentOnlyToOwner | api/main.go:73 | GET /payment/:id returns a record only to an admitted, validly authenticated merchant that owns it. |
| ApiRoutes.PutPaymentGated | api/main.go:72 | PUT /payment makes no call unless it comes from the allowed IP, and is the callback saga from there on. |
| ApiRoutes.PutRouteAsWrittenDoesNotBuild | api/main.go:72 | As written, PUT /payment is given the handler factory `restrictMiddleware` where a request handler is expected, so the route does not build. |
| ApiRoutes.PutRouteBuilds | api/middleware.go:79-94 | As intended, PUT /payment is given one request handler, `restrictMiddleware(ip)`, whose decision is the IP gate for the allowed IP. |

## Left out

- Floating point. Amounts are `real`. Validate tests their sign and Equal
  compares them. NaN and the infinities are not modelled. In Go a NaN amount
  passes Validate, because `NaN < 0.0` is false. The float64-to-float32
  narrowing on the way to the ledger is not modelled, nor are the int32
  widths of the card fields on the wire.
- LedgerEntities.EqualIsEquivalence: holds for real amounts and for instants
  as numbers. Go's Equal is not reflexive on a payment whose amount is NaN,
  and its `==` on `time.Time` also compares the location and the monotonic
  clock reading.
- Strings are sequences of Unicode characters. Go's strings are bytes, and
  `strings.TrimSpace` and `strings.Split` treat invalid UTF-8 their own way.
  So the header handling (`ApiMiddleware.Split`, `ApiMiddleware.TrimSpace`,
  `ApiMiddleware.ExtractToken`) does not model bytes that are not valid
  UTF-8.
- gRPC and HTTP plumbing: dialling, request building and the generated
  stubs. Each call is its outcome, success with a value or an error.
- JSON encoding and decoding, and the bank request payload
  (api/bank/service.go:46-67). A marshal or request-building failure is
  not a modelled outcome.
- The text of errors returned from Go errors, such as the message of a JSON
  binding error. The model names the cause instead.
- The string form of instants sent between the gateway and the ledger.
  `Format` and `time.Parse` are not connected. So the gateway's ledger calls
  are recorded with the payment they send, and are not tied to the ledger
  server model.
- Concurrency. The mutexes are taken to make each store and rate-limiter
  operation atomic, and everything is sequential.
- Time. Each request sees one `now`; successive `time.Now()` calls within a
  request are not distinguished.
- The `Set*FromStr` setters of ledger/entities/payment.go:108-145. They
  appear inline in the ledger handlers as a time parse followed by a field
  assignment.
- loginHandler (api/handlers.go:18-51) and the merchant service's RPC
  wrappers. They are token issuing and transport outside the modelled core.
- The main functions and their flag/environment configuration, the bank
  simulator, and the web UI.
- MerchantStore.Storage.CreateMerchant: requires its single `uuid.New()` id
  to be non-Nil and unused. The source draws once, without checking for a
  collision.
- A create request without a card. The ledger's CreatePayment reads
  `req.Card` without a nil check (ledger/main.go:39), so such a request
  panics there; the model's request always carries a card, as the gateway
  always sends one.
- LedgerStore.Storage.Create: requires that some draw of the id generator is
  fresh. The source's loop would run forever otherwise.
- TokenBucket.Allow: does not model the saturation of durations at about
  292 years, the infinite rate, or reservations. Instants are exact
  milliseconds, not nanoseconds.

## Findings

| source | as written | input that shows it | evidently intended | confidence | as-written member | corrected member |
|---|---|---|---|---|---|---|
| api/bank/service.go:83-88 | A status other than 201 or 400 returns `err`, which is the nil error of `client.Do` at that point. | The bank answers 500. The relay reports success with no bank reference, so the gateway marks the payment PENDING under reference uuid.Nil and answers 200. | Any unexpected status is an error, so the payment is marked FAIL. | not executed | ApiHandlers.CreateSagaAsWrittenPendsServerError | ApiHandlers.CreateSagaFailsServerError |
| merchant/entities/merchant.go:58-61 | A failure of `bcrypt.GenerateFromPassword` returns `Merchant{}` with a nil error. | A password bcrypt refuses, such as one of more than 72 bytes. The caller receives an empty merchant, with no username, no password and no name, together with a nil error. | The hash error is returned. | not executed | MerchantEntities.NewMerchantAsWrittenDropsHashFailure | MerchantEntities.NewMerchantSound |
| api/main.go:72 | PUT /payment is given `restrictMiddleware`, a `func(string) func(*gin.Context)`, where gin expects a request handler. | Any build of the gateway: the route's middleware is a handler factory, not a handler, so the program does not compile. | `restrictMiddleware(ip)` with the allowed IP, which gates the callback on the caller's host. | not executed | ApiRoutes.PutRouteAsWrittenDoesNotBuild | ApiRoutes.PutRouteBuilds |
