/** The gateway's HTTP handlers (api/handlers.go) as sagas over their
    collaborators. Each collaborator call (merchant service, ledger, bank)
    is replaced by its outcome, given as a parameter; a saga returns the HTTP
    response and the calls it made, in order, with their arguments. */
module ApiHandlers {
  import opened Common
  import opened Calendar
  import opened ApiEntities
  import ApiBank
  import ApiMiddleware

  // ---------------------------------------------------------------------
  // Request bodies and their validation
  // ---------------------------------------------------------------------

  /** createPaymentRequestBody; the purchase time is still text. */
  datatype CreateBody = CreateBody(
    amount: real,
    currency: string,
    purchaseTime: string,
    validationMethod: string,
    card: CreditCard,
    metadata: string)

  datatype BodyError =
    | PurchaseTimeUnparsable
    | InvalidAmount
    | InvalidCurrency
    | InvalidValidationMethod
    | InvalidMetadata

  /** createPaymentRequestBody.validate: the first failing check, in the
      order purchase time, amount, currency, validation method, metadata. */
  function ValidateCreateBody(b: CreateBody, parse: TimeParser): Option<BodyError>
  {
    if parse(b.purchaseTime).None? then Some(PurchaseTimeUnparsable)
    else if b.amount < 0.0 then Some(InvalidAmount)
    else if b.currency == "" then Some(InvalidCurrency)
    else if b.validationMethod == "" then Some(InvalidValidationMethod)
    else if b.metadata == "" then Some(InvalidMetadata)
    else None
  }

  /** A body passes exactly when its purchase time parses, its amount is not
      negative (zero passes) and currency, validation method and metadata
      are non-empty; and each check reports only when those before it
      passed. */
  lemma ValidateCreateBodySpec(b: CreateBody, parse: TimeParser)
    ensures var err := ValidateCreateBody(b, parse);
      var timed := parse(b.purchaseTime).Some?;
      && (err.None? <==>
            timed && b.amount >= 0.0 && b.currency != "" && b.validationMethod != "" && b.metadata != "")
      && (err == Some(PurchaseTimeUnparsable) <==> !timed)
      && (err == Some(InvalidAmount) <==> timed && b.amount < 0.0)
      && (err == Some(InvalidCurrency) <==> timed && b.amount >= 0.0 && b.currency == "")
      && (err == Some(InvalidValidationMethod) <==>
            timed && b.amount >= 0.0 && b.currency != "" && b.validationMethod == "")
      && (err == Some(InvalidMetadata) <==>
            timed && b.amount >= 0.0 && b.currency != "" && b.validationMethod != "" && b.metadata == "")
  {
  }

  /** getPurchaseTime: the parsed purchase time, or now when it does not
      parse. */
  function PurchaseTime(b: CreateBody, parse: TimeParser, now: Instant): Instant
  {
    match parse(b.purchaseTime)
    case None => now
    case Some(t) => t
  }

  /** After validation the fallback to now is never taken. */
  lemma PurchaseTimeOfValidBody(b: CreateBody, parse: TimeParser, now: Instant)
    requires ValidateCreateBody(b, parse).None?
    ensures PurchaseTime(b, parse, now) == parse(b.purchaseTime).value
  {
  }

  /** bankMessage: the bank's callback. */
  datatype BankMessage = BankMessage(id: string, success: bool, message: string)

  datatype MessageError = MissingId | MissingMessage

  /** bankMessage.validate. */
  function ValidateBankMessage(m: BankMessage): Option<MessageError>
  {
    if m.id == "" then Some(MissingId)
    else if m.message == "" then Some(MissingMessage)
    else None
  }

  /** A callback passes exactly when its id and message are non-empty; the
      success flag is not looked at, and an empty id is reported first. */
  lemma ValidateBankMessageSpec(m: BankMessage)
    ensures ValidateBankMessage(m).None? <==> m.id != "" && m.message != ""
    ensures ValidateBankMessage(m) == Some(MissingId) <==> m.id == ""
    ensures ValidateBankMessage(m) == Some(MissingMessage) <==> m.id != "" && m.message == ""
    ensures ValidateBankMessage(m) == ValidateBankMessage(m.(success := !m.success))
  {
  }

  // ---------------------------------------------------------------------
  // Calls and responses
  // ---------------------------------------------------------------------

  /** The calls the gateway makes to other services. */
  datatype Call =
    | AskRateLimiter(merchantId: Uuid)
    | GetMerchant(merchantId: Uuid)
    | CreateInLedger(draft: Payment)
    | RelayToBank(merchant: Merchant, payment: Payment)
    | SetPending(payment: Payment)
    | SetSuccess(payment: Payment)
    | SetFail(payment: Payment)
    | ReadByReference(bankPaymentId: Uuid)
    | ReadFromLedger(id: Uuid)

  predicate TouchesLedger(c: Call)
  {
    c.CreateInLedger? || c.SetPending? || c.SetSuccess? || c.SetFail? || c.ReadByReference? || c.ReadFromLedger?
  }

  /** Why a request body was refused: it does not bind as JSON, or fails
      its validation. */
  datatype RequestError = Unbound | BadBody(body: BodyError) | BadMessage(message: MessageError)

  /** The "error" of a JSON response: the text of a refused body's error,
      or a fixed text. */
  datatype Detail = Cause(cause: RequestError) | Text(text: string)

  datatype Reply =
    | NoBody
    | Error(error: Detail)
    | Summary(id: Uuid, status: string, bankMessage: string)
    | Acknowledge(acknowledge: bool, refusal: Option<Detail>)
    | Record(payment: Payment)

  datatype Response = Response(status: int, reply: Reply)

  // ---------------------------------------------------------------------
  // createPaymentHandler
  // ---------------------------------------------------------------------

  /** How the collaborators of createPaymentHandler answer: the merchant
      service (None on error), the ledger's CreatePayment (the new id), the
      bank, and whether the ledger recorded the outcome. */
  datatype CreateAnswers = CreateAnswers(
    merchant: Option<Merchant>,
    created: Option<Uuid>,
    bank: ApiBank.BankResponse,
    recorded: bool)

  /** The payment the handler builds from the merchant and the body: status
      "CREATED", and no id and no bank fields yet (zero values). */
  function Draft(m: Merchant, b: CreateBody, parse: TimeParser, now: Instant): Payment
  {
    Payment(Nil, m.id, b.amount, b.currency, PurchaseTime(b, parse, now), b.validationMethod,
            b.card, b.metadata, StatusString(Created), Nil, ZeroTime, ZeroTime, "")
  }

  /** The end of createPaymentHandler, once the relay to the bank is past:
      record FAIL when the relay failed and PENDING otherwise, and answer
      with the payment's id, status and bank message. */
  function Settle(relayed: Payment, relayError: bool, recorded: bool): (Response, seq<Call>)
  {
    var record := if relayError then SetFail(relayed) else SetPending(relayed);
    if !recorded then (Response(StatusInternalServerError, NoBody), [record])
    else
      var status := if relayError then StatusString(Fail) else StatusString(Pending);
      (Response(StatusOK, Summary(relayed.id, status, relayed.bankMessage)), [record])
  }

  /** createPaymentHandler, with the bank relay `relay` it calls. */
  function CreateSagaWith(relay: ApiBank.Relayer, bind: Option<CreateBody>, claims: ApiMiddleware.Claims,
                          parsers: Parsers, answers: CreateAnswers, now: Instant): (Response, seq<Call>)
  {
    match bind
    case None => (Response(StatusBadRequest, Error(Cause(Unbound))), [])
    case Some(b) =>
      match ValidateCreateBody(b, parsers.time)
      case Some(e) => (Response(StatusBadRequest, Error(Cause(BadBody(e)))), [])
      case None =>
        match answers.merchant
        case None => (Response(StatusInternalServerError, NoBody), [GetMerchant(claims.id)])
        case Some(m) =>
          var draft := Draft(m, b, parsers.time, now);
          match answers.created
          case None => (Response(StatusInternalServerError, NoBody), [GetMerchant(claims.id), CreateInLedger(draft)])
          case Some(id) =>
            var sent := draft.(id := id);
            var (relayed, err) := relay(sent, answers.bank, now, parsers.uuid);
            var (response, rest) := Settle(relayed, err.Some?, answers.recorded);
            (response, [GetMerchant(claims.id), CreateInLedger(draft), RelayToBank(m, sent)] + rest)
  }

  /** createPaymentHandler over the corrected relay; the rest of the model
      uses this one. */
  function CreateSaga(bind: Option<CreateBody>, claims: ApiMiddleware.Claims, parsers: Parsers,
                      answers: CreateAnswers, now: Instant): (Response, seq<Call>)
  {
    CreateSagaWith(ApiBank.Relay, bind, claims, parsers, answers, now)
  }

  /** createPaymentHandler as written, over the relay as written. */
  function CreateSagaAsWritten(bind: Option<CreateBody>, claims: ApiMiddleware.Claims, parsers: Parsers,
                               answers: CreateAnswers, now: Instant): (Response, seq<Call>)
  {
    CreateSagaWith(ApiBank.RelayAsWritten, bind, claims, parsers, answers, now)
  }

  /** The discrepancy at the level of the handler: when the bank answers 500
      to a payment the ledger created, the handler as written records it
      PENDING under reference uuid.Nil and answers 200 "PENDING". */
  lemma CreateSagaAsWrittenPendsServerError(b: CreateBody, claims: ApiMiddleware.Claims, parsers: Parsers,
                                            answers: CreateAnswers, now: Instant, m: Merchant, id: Uuid)
    requires ValidateCreateBody(b, parsers.time).None?
    requires answers.merchant == Some(m) && answers.created == Some(id) && answers.recorded
    requires answers.bank.Responded? && answers.bank.status == StatusInternalServerError
    ensures var (response, calls) := CreateSagaAsWritten(Some(b), claims, parsers, answers, now);
      && response == Response(StatusOK, Summary(id, "PENDING", ""))
      && |calls| == 4
      && calls[3].SetPending?
      && calls[3].payment.id == id
      && calls[3].payment.bankPaymentId == Nil
  {
    StatusNames();
  }

  /** The corrected handler records the same payment FAIL instead, and
      answers 200 "FAIL". */
  lemma CreateSagaFailsServerError(b: CreateBody, claims: ApiMiddleware.Claims, parsers: Parsers,
                                   answers: CreateAnswers, now: Instant, m: Merchant, id: Uuid)
    requires ValidateCreateBody(b, parsers.time).None?
    requires answers.merchant == Some(m) && answers.created == Some(id) && answers.recorded
    requires answers.bank.Responded? && answers.bank.status == StatusInternalServerError
    ensures var (response, calls) := CreateSaga(Some(b), claims, parsers, answers, now);
      && response == Response(StatusOK, Summary(id, "FAIL", ""))
      && |calls| == 4
      && calls[3].SetFail?
      && calls[3].payment.id == id
      && calls[3].payment.bankPaymentId == Nil
  {
    StatusNames();
  }

  /** A body that does not bind or does not validate is refused with 400
      before any service is called. */
  lemma CreateSagaValidatesFirst(bind: Option<CreateBody>, claims: ApiMiddleware.Claims, parsers: Parsers,
                                 answers: CreateAnswers, now: Instant)
    ensures var (response, calls) := CreateSaga(bind, claims, parsers, answers, now);
      && ((bind.None? || ValidateCreateBody(bind.value, parsers.time).Some?) <==> response.status == StatusBadRequest)
      && (response.status == StatusBadRequest ==> calls == [])
  {
  }

  /** The order of the saga: the merchant is fetched first; the ledger is
      asked to create the payment only for a fetched merchant; the bank is
      only asked about a payment the ledger created, under the merchant's
      id and the ledger's id, with status CREATED; and nothing follows the
      recording of the outcome. */
  lemma CreateSagaOrder(b: CreateBody, claims: ApiMiddleware.Claims, parsers: Parsers,
                        answers: CreateAnswers, now: Instant)
    requires ValidateCreateBody(b, parsers.time).None?
    ensures var (response, calls) := CreateSaga(Some(b), claims, parsers, answers, now);
      && 1 <= |calls| <= 4
      && calls[0] == GetMerchant(claims.id)
      && (|calls| >= 2 <==> answers.merchant.Some?)
      && (|calls| >= 2 ==> calls[1] == CreateInLedger(Draft(answers.merchant.value, b, parsers.time, now)))
      && (|calls| >= 3 <==> answers.merchant.Some? && answers.created.Some?)
      && (|calls| >= 3 ==>
            && calls[2].RelayToBank?
            && calls[2].merchant == answers.merchant.value
            && calls[2].payment.id == answers.created.value
            && calls[2].payment.merchantId == answers.merchant.value.id
            && calls[2].payment.status == "CREATED"
            && calls[2].payment.purchaseTime == parsers.time(b.purchaseTime).value
            && |calls| == 4)
  {
    StatusNames();
  }

  /** The outcome of the relay decides what is recorded: FAIL with the
      payment as the relay left it when the relay failed, PENDING with the
      bank's reference otherwise; either way the ledger's id is kept. */
  lemma CreateSagaRecordsRelay(b: CreateBody, claims: ApiMiddleware.Claims, parsers: Parsers,
                               answers: CreateAnswers, now: Instant, m: Merchant, id: Uuid)
    requires ValidateCreateBody(b, parsers.time).None?
    requires answers.merchant == Some(m) && answers.created == Some(id)
    ensures var (response, calls) := CreateSaga(Some(b), claims, parsers, answers, now);
      var sent := Draft(m, b, parsers.time, now).(id := id);
      var (relayed, err) := ApiBank.Relay(sent, answers.bank, now, parsers.uuid);
      && |calls| == 4
      && (err.Some? ==> calls[3] == SetFail(relayed))
      && (err.None? ==> calls[3] == SetPending(relayed) && relayed.bankPaymentId == parsers.uuid(answers.bank.body.id).value)
      && calls[3].payment.id == id
  {
    var sent := Draft(m, b, parsers.time, now).(id := id);
    ApiBank.RelaySpec(sent, answers.bank, now, parsers.uuid);
  }

  /** The answer: 200 exactly when every step succeeded, the ledger included,
      with the ledger's id; its status is FAIL when the bank refused or
      could not be reached, and PENDING otherwise, so a failed relay is
      still answered with 200. */
  lemma CreateSagaAnswer(bind: Option<CreateBody>, claims: ApiMiddleware.Claims, parsers: Parsers,
                         answers: CreateAnswers, now: Instant)
    ensures var (response, calls) := CreateSaga(bind, claims, parsers, answers, now);
      && response.status in {StatusOK, StatusBadRequest, StatusInternalServerError}
      && (response.status == StatusOK <==>
            && bind.Some? && ValidateCreateBody(bind.value, parsers.time).None?
            && answers.merchant.Some? && answers.created.Some? && answers.recorded)
      && (response.status == StatusOK ==>
            var sent := Draft(answers.merchant.value, bind.value, parsers.time, now).(id := answers.created.value);
            var (relayed, err) := ApiBank.Relay(sent, answers.bank, now, parsers.uuid);
            && response.reply.Summary?
            && response.reply.id == answers.created.value
            && response.reply.bankMessage == relayed.bankMessage
            && (response.reply.status == "FAIL" <==> err.Some?)
            && (response.reply.status == "PENDING" <==> err.None?))
  {
    StatusNames();
  }

  // ---------------------------------------------------------------------
  // updatePaymentHandler
  // ---------------------------------------------------------------------

  /** updatePaymentHandler, the bank's callback: `found` is the ledger's
      answer to the lookup by bank reference, `updated` whether the ledger
      accepted the new status. */
  function CallbackSaga(bind: Option<BankMessage>, parse: UuidParser, found: Option<Payment>,
                        updated: bool, now: Instant): (Response, seq<Call>)
  {
    match bind
    case None => (Response(StatusBadRequest, Acknowledge(false, Some(Cause(Unbound)))), [])
    case Some(msg) =>
      match ValidateBankMessage(msg)
      case Some(e) => (Response(StatusBadRequest, Acknowledge(false, Some(Cause(BadMessage(e))))), [])
      case None =>
        match parse(msg.id)
        case None => (Response(StatusInternalServerError, Acknowledge(false, Some(Text("invalid bank payment id")))), [])
        case Some(ref) =>
          match found
          case None =>
            (Response(StatusInternalServerError, Acknowledge(false, Some(Text("invalid bank payment id")))),
             [ReadByReference(ref)])
          case Some(p) =>
            var answered := p.(bankResponseTime := now, bankMessage := msg.message);
            var update := if msg.success then SetSuccess(answered) else SetFail(answered);
            if !updated then
              (Response(StatusInternalServerError, Acknowledge(false, Some(Text("internal error")))),
               [ReadByReference(ref), update])
            else (Response(StatusOK, Acknowledge(true, None)), [ReadByReference(ref), update])
  }

  /** The callback is acknowledged exactly when the message binds, is valid,
      carries a UUID the ledger knows as a bank reference, and the ledger
      accepts the update; the update is SUCCESS or FAIL as the bank says,
      with the bank's message and the response time, and the rest of the
      payment as the ledger holds it. Every other outcome answers
      acknowledge=false, and an unknown reference makes no update. */
  lemma CallbackSagaSpec(bind: Option<BankMessage>, parse: UuidParser, found: Option<Payment>,
                         updated: bool, now: Instant)
    ensures var (response, calls) := CallbackSaga(bind, parse, found, updated, now);
      var valid := bind.Some? && ValidateBankMessage(bind.value).None? && parse(bind.value.id).Some?;
      && response.reply.Acknowledge?
      && (response.reply.acknowledge <==> valid && found.Some? && updated)
      && (response.reply.acknowledge <==> response.status == StatusOK)
      && (!valid ==> calls == [])
      && (valid ==> |calls| >= 1 && calls[0] == ReadByReference(parse(bind.value.id).value))
      && (valid && found.None? ==> |calls| == 1)
      && (valid && found.Some? ==>
            var answered := found.value.(bankResponseTime := now, bankMessage := bind.value.message);
            |calls| == 2
            && calls[1] == (if bind.value.success then SetSuccess(answered) else SetFail(answered)))
  {
  }

  // ---------------------------------------------------------------------
  // readPaymentHandler
  // ---------------------------------------------------------------------

  /** readPaymentHandler for the merchant of `claims`: `read` is the
      ledger's answer. */
  function ReadSaga(idParam: string, parse: UuidParser, read: Option<Payment>, claims: ApiMiddleware.Claims)
    : (Response, seq<Call>)
  {
    match parse(idParam)
    case None => (Response(StatusBadRequest, Error(Text("invalid payment id"))), [])
    case Some(id) =>
      match read
      case None => (Response(StatusBadRequest, Error(Text("invalid payment id"))), [ReadFromLedger(id)])
      case Some(p) =>
        if p.merchantId != claims.id then (Response(StatusUnauthorized, Error(Text("invalid payment id"))), [ReadFromLedger(id)])
        else (Response(StatusOK, Record(p)), [ReadFromLedger(id)])
  }

  /** A payment is only ever shown to its own merchant: the read answers 200
      with the ledger's record exactly when the id parses, the ledger has it
      and it belongs to the merchant of the claims; a payment of another
      merchant is answered 401, and a missing one 400. */
  lemma ReadSagaSpec(idParam: string, parse: UuidParser, read: Option<Payment>, claims: ApiMiddleware.Claims)
    ensures var (response, calls) := ReadSaga(idParam, parse, read, claims);
      && (response.status == StatusOK <==>
            parse(idParam).Some? && read.Some? && read.value.merchantId == claims.id)
      && (response.status == StatusOK ==> response.reply == Record(read.value))
      && (response.reply.Record? ==> response.reply.payment.merchantId == claims.id)
      && (response.status == StatusUnauthorized <==>
            parse(idParam).Some? && read.Some? && read.value.merchantId != claims.id)
      && (calls == [] <==> parse(idParam).None?)
      && (parse(idParam).Some? ==> calls == [ReadFromLedger(parse(idParam).value)])
  {
  }
}
