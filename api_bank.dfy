/** The gateway's relay to the acquiring bank (api/bank/service.go), from
    the moment the request is sent: how the bank's response is classified and
    what it writes into the payment. */
module ApiBank {
  import opened Common
  import opened ApiEntities

  /** The bank's response body: unreadable, not the expected JSON, or the
      decoded {id, success, message}. */
  datatype Body = Unreadable | Undecodable | Decoded(id: string, success: bool, message: string)

  /** The outcome of client.Do: no response, or a status code and a body. */
  datatype BankResponse = SendFailed | Responded(status: int, body: Body)

  /** The errors of the relay. UnexpectedStatus is the one the source does
      not return (see RelayAsWritten). */
  datatype RelayError =
    | SendError
    | BodyReadError
    | BodyDecodeError
    | Declined(message: string)
    | MalformedReference
    | UnexpectedStatus(code: int)

  /** A relay of a created payment to the bank: the bank's response, the
      instant it was sent and the UUID parser give back the payment and the
      relay's error. */
  type Relayer = (Payment, BankResponse, Instant, UuidParser) -> (Payment, Option<RelayError>)

  /** The reading of a 201 or 400 response: the bank message is recorded
      whatever the success flag, and the bank's reference only when the bank
      accepted and the reference is a UUID. */
  function ReadBody(p: Payment, body: Body, parse: UuidParser): (Payment, Option<RelayError>)
  {
    match body
    case Unreadable => (p, Some(BodyReadError))
    case Undecodable => (p, Some(BodyDecodeError))
    case Decoded(id, success, message) =>
      var q := p.(bankMessage := message);
      if !success then (q, Some(Declined(message)))
      else match parse(id)
        case None => (q, Some(MalformedReference))
        case Some(ref) => (q.(bankPaymentId := ref), None)
  }

  /** RelayPaymentRequest as written: a status other than 201 or 400 returns
      the error of client.Do, which is nil at that point. */
  function RelayAsWritten(p: Payment, resp: BankResponse, now: Instant, parse: UuidParser): (r: (Payment, Option<RelayError>))
    ensures resp.Responded? && resp.status != StatusCreated && resp.status != StatusBadRequest
        ==> r == (p.(bankRequestTime := now), None)
  {
    match resp
    case SendFailed => (p, Some(SendError))
    case Responded(status, body) =>
      var sent := p.(bankRequestTime := now);
      if status != StatusCreated && status != StatusBadRequest then (sent, None)
      else ReadBody(sent, body, parse)
  }

  /** The discrepancy: a 500 from the bank comes back without an error and
      without a bank reference, so the gateway goes on to mark the payment
      pending under reference uuid.Nil. */
  lemma RelayAsWrittenAcceptsServerError(p: Payment, now: Instant, parse: UuidParser, body: Body)
    requires p.bankPaymentId == Nil
    ensures var r := RelayAsWritten(p, Responded(500, body), now, parse);
      r.1 == None && r.0.bankPaymentId == Nil
  {
  }

  /** RelayPaymentRequest as intended: any status other than 201 or 400 is
      an error. */
  function Relay(p: Payment, resp: BankResponse, now: Instant, parse: UuidParser): (Payment, Option<RelayError>)
  {
    match resp
    case SendFailed => (p, Some(SendError))
    case Responded(status, body) =>
      var sent := p.(bankRequestTime := now);
      if status != StatusCreated && status != StatusBadRequest then (sent, Some(UnexpectedStatus(status)))
      else ReadBody(sent, body, parse)
  }

  /** What the relay promises. It succeeds exactly when the bank answered 201
      or 400 with a body that decodes, reports success and carries a UUID;
      the payment then has the bank's request time, message and reference
      and is otherwise as sent. A failure to send changes nothing; any
      other failure keeps the reference, records the request time, and
      records the bank's message once a body was decoded. */
  lemma RelaySpec(p: Payment, resp: BankResponse, now: Instant, parse: UuidParser)
    ensures var (q, err) := Relay(p, resp, now, parse);
      var accepted := resp.Responded? && (resp.status == StatusCreated || resp.status == StatusBadRequest);
      && (err.None? <==>
            accepted && resp.body.Decoded? && resp.body.success && parse(resp.body.id).Some?)
      && (err.None? ==>
            q == p.(bankRequestTime := now, bankMessage := resp.body.message,
                    bankPaymentId := parse(resp.body.id).value))
      && (resp.SendFailed? ==>
            q == p && err == Some(SendError))
      && (resp.Responded? && err.Some? ==>
            q == p.(bankRequestTime := now, bankMessage := q.bankMessage))
      && (accepted && resp.body.Decoded? ==>
            q.bankMessage == resp.body.message)
      && (accepted && resp.body.Decoded? && !resp.body.success ==>
            err == Some(Declined(resp.body.message)))
      && (resp.Responded? && !accepted ==>
            err == Some(UnexpectedStatus(resp.status)))
  {
  }

  /** The two versions differ only on a status other than 201 and 400. */
  lemma RelayAgrees(p: Payment, resp: BankResponse, now: Instant, parse: UuidParser)
    requires resp.SendFailed? || resp.status == StatusCreated || resp.status == StatusBadRequest
    ensures Relay(p, resp, now, parse) == RelayAsWritten(p, resp, now, parse)
  {
  }
}
