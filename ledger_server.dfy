/** The ledger's gRPC service (ledger/main.go): each RPC parses its request,
    reads or writes the storage, and answers either a response or an error. */
module LedgerServer {
  import opened Common
  import opened LedgerEntities
  import opened LedgerStore

  /** The request messages. The card message has the entity's fields; the
      int32 and float32 fields of the wire format are widened to int and real
      as the handlers do. The fail request's optional fields are pointers in
      the source. */
  datatype CreatePaymentRequest = CreatePaymentRequest(
    merchantId: string, amount: real, currency: string, purchaseTimeUtc: string,
    validationMethod: string, card: CreditCard, metadata: string)

  datatype UpdatePaymentToPendingRequest = UpdatePaymentToPendingRequest(
    id: string, bankPaymentId: string, bankRequestTimeUtc: string)

  datatype UpdatePaymentToSuccessRequest = UpdatePaymentToSuccessRequest(
    id: string, bankPaymentId: string, bankResponseTimeUtc: string, bankMessage: string)

  datatype UpdatePaymentToFailRequest = UpdatePaymentToFailRequest(
    id: string, bankPaymentId: Option<string>, bankResponseTimeUtc: Option<string>, bankMessage: Option<string>)

  /** The error an RPC answers with: a request field that does not parse, or
      the error of the entity or storage layer, passed on unchanged. */
  datatype RpcError =
    | MalformedId
    | MalformedBankId
    | MalformedTime
    | Entity(cause: EntityError)
    | Store(failure: StoreError)

  /** The record NewPayment builds from a create request whose purchase time
      and merchant ID parsed. */
  function Record(req: CreatePaymentRequest, purchaseTime: Instant, merchant: Uuid): Payment
  {
    EmptyPayment.(merchantId := merchant, amount := req.amount, currency := req.currency,
                  purchaseTime := purchaseTime, validationMethod := req.validationMethod,
                  card := req.card, metadata := req.metadata)
  }

  /** The record an acknowledged bank request leaves behind. */
  function MarkedPending(p: Payment, bankId: Uuid, requestTime: Instant): Payment
  {
    p.(bankPaymentId := bankId, bankRequestTime := requestTime, status := Pending)
  }

  /** The record a bank's final answer leaves behind: reference, response
      time and message replaced, status Success or Fail. */
  function MarkedFinal(p: Payment, bankId: Uuid, responseTime: Instant, message: string, status: PaymentStatus): Payment
  {
    p.(bankPaymentId := bankId, bankResponseTime := responseTime, bankMessage := message, status := status)
  }

  /** The bank index after a record with bank reference `bankId` was written
      under `id`: uuid.Nil is never indexed. */
  function Indexed(refs: map<Uuid, Uuid>, bankId: Uuid, id: Uuid): map<Uuid, Uuid>
  {
    if bankId != Nil then refs[bankId := id] else refs
  }

  class Server {
    const storage: Storage

    ghost predicate Valid()
      reads this, storage
    {
      storage.Valid()
    }

    /** newServerWithMemoryStorage. */
    constructor ()
      ensures Valid() && fresh(storage)
      ensures storage.payments == map[] && storage.bankReferences == map[]
    {
      storage := new Storage();
    }

    /** CreatePayment: the card is built and validated first, then the
        payment (purchase time, merchant ID, record checks), then it is stored
        in status Created under a fresh ID, which is the answer. The first
        failure is the answer and nothing is stored. */
    method CreatePayment(req: CreatePaymentRequest, now: Instant, parsers: Parsers, draw: nat -> Uuid)
      returns (id: Uuid, err: Option<RpcError>)
      requires Valid()
      requires forall k :: draw(k) != Nil
      requires exists k :: draw(k) !in storage.payments
      modifies storage
      ensures Valid()
      ensures ValidateCard(req.card, now).Some? ==> err == Some(Entity(ValidateCard(req.card, now).value))
      ensures ValidateCard(req.card, now).None? && parsers.time(req.purchaseTimeUtc).None?
          ==> err == Some(Entity(PurchaseTimeUnparsable))
      ensures ValidateCard(req.card, now).None? && parsers.time(req.purchaseTimeUtc).Some?
              && parsers.uuid(req.merchantId).None?
          ==> err == Some(Entity(MerchantIdUnparsable))
      ensures parsers.time(req.purchaseTimeUtc).Some? && parsers.uuid(req.merchantId).Some? ==>
        var record := Record(req, parsers.time(req.purchaseTimeUtc).value, parsers.uuid(req.merchantId).value);
        && (err.None? <==> PaymentValid(record, now))
        && (ValidateCard(req.card, now).None? && ValidatePayment(record, now).Some?
            ==> err == Some(Entity(ValidatePayment(record, now).value)))
        && (err.None? ==> id != Nil && id !in old(storage.payments)
                          && storage.payments == old(storage.payments)[id := record.(id := id)])
      ensures err.Some? ==> id == Nil && storage.payments == old(storage.payments)
      ensures storage.bankReferences == old(storage.bankReferences)
    {
      id := Nil;
      var (card, cardErr) := NewCreditCard(req.card.number, req.card.name, req.card.expireMonth,
                                            req.card.expireYear, req.card.cvv, now);
      if cardErr.Some? {
        return Nil, Some(Entity(cardErr.value));
      }
      var (payment, paymentErr) := NewPayment(req.merchantId, req.amount, req.currency, req.purchaseTimeUtc,
                                               req.validationMethod, card, req.metadata, now, parsers);
      if paymentErr.Some? {
        return Nil, Some(Entity(paymentErr.value));
      }
      payment := payment.(status := Created);
      var createErr;
      ghost var attempts;
      id, createErr, attempts := storage.Create(payment, now, draw);
      if createErr.Some? {
        // Storage.Create validates the record NewPayment has just validated,
        // so its error branch is never taken.
        assert false;
      }
      err := None;
    }

    /** ReadPayment: the stored record of the given ID. */
    method ReadPayment(id: string, parse: UuidParser) returns (p: Payment, err: Option<RpcError>)
      ensures parse(id).None? ==> err == Some(MalformedId)
      ensures parse(id).Some? && parse(id).value !in storage.payments ==> err == Some(Store(UnknownPayment))
      ensures err.None? <==> parse(id).Some? && parse(id).value in storage.payments
      ensures err.None? ==> p == storage.payments[parse(id).value]
    {
      p := EmptyPayment;
      var key := parse(id);
      if key.None? {
        return p, Some(MalformedId);
      }
      var readErr;
      p, readErr := storage.Read(key.value);
      if readErr.Some? {
        return p, Some(Store(readErr.value));
      }
      err := None;
    }

    /** ReadPaymentUsingBankReference: the stored record a bank reference
        leads to. */
    method ReadPaymentUsingBankReference(ref: string, parse: UuidParser) returns (p: Payment, err: Option<RpcError>)
      requires Valid()
      ensures parse(ref).None? ==> err == Some(MalformedId)
      ensures parse(ref).Some? && parse(ref).value !in storage.bankReferences
          ==> err == Some(Store(UnknownBankReference))
      ensures err.None? <==> parse(ref).Some? && parse(ref).value in storage.bankReferences
      ensures err.None? ==> p == storage.payments[storage.bankReferences[parse(ref).value]]
                            && p.id == storage.bankReferences[parse(ref).value]
    {
      p := EmptyPayment;
      var key := parse(ref);
      if key.None? {
        return p, Some(MalformedId);
      }
      var readErr;
      p, readErr := storage.ReadUsingBankReference(key.value);
      if readErr.Some? {
        return p, Some(Store(readErr.value));
      }
      err := None;
    }

    /** UpdatePaymentToPending: parse the ID and the bank reference, read the
        record, parse the bank request time, then store the record with that
        reference and time in status Pending. There is no check of the status
        the record had. */
    method UpdatePaymentToPending(req: UpdatePaymentToPendingRequest, now: Instant, parsers: Parsers)
      returns (err: Option<RpcError>)
      requires Valid()
      modifies storage
      ensures Valid()
      ensures parsers.uuid(req.id).None? ==> err == Some(MalformedId)
      ensures parsers.uuid(req.id).Some? && parsers.uuid(req.bankPaymentId).None? ==> err == Some(MalformedBankId)
      ensures parsers.uuid(req.id).Some? && parsers.uuid(req.bankPaymentId).Some? ==>
        var id := parsers.uuid(req.id).value;
        && (id !in old(storage.payments) ==> err == Some(Store(UnknownPayment)))
        && (id in old(storage.payments) && parsers.time(req.bankRequestTimeUtc).None? ==> err == Some(MalformedTime))
        && (id in old(storage.payments) && parsers.time(req.bankRequestTimeUtc).Some? ==>
              var q := MarkedPending(old(storage.payments)[id], parsers.uuid(req.bankPaymentId).value,
                                     parsers.time(req.bankRequestTimeUtc).value);
              && (err.None? <==> PaymentValid(q, now))
              && (ValidatePayment(q, now).Some? ==> err == Some(Store(Rejected(ValidatePayment(q, now).value))))
              && (err.None? ==> storage.payments == old(storage.payments)[id := q]
                                && storage.bankReferences == Indexed(old(storage.bankReferences), q.bankPaymentId, id)))
      ensures err.Some? ==> storage.payments == old(storage.payments)
                            && storage.bankReferences == old(storage.bankReferences)
    {
      var id := parsers.uuid(req.id);
      if id.None? {
        return Some(MalformedId);
      }
      var bankId := parsers.uuid(req.bankPaymentId);
      if bankId.None? {
        return Some(MalformedBankId);
      }
      var payment, readErr := storage.Read(id.value);
      if readErr.Some? {
        return Some(Store(readErr.value));
      }
      var requestTime := parsers.time(req.bankRequestTimeUtc);
      if requestTime.None? {
        return Some(MalformedTime);
      }
      payment := MarkedPending(payment, bankId.value, requestTime.value);
      var updateErr := storage.Update(payment, now);
      if updateErr.Some? {
        return Some(Store(updateErr.value));
      }
      err := None;
    }

    /** UpdatePaymentToSuccess: as UpdatePaymentToPending, with the bank
        response time and the bank message, and status Success. */
    method UpdatePaymentToSuccess(req: UpdatePaymentToSuccessRequest, now: Instant, parsers: Parsers)
      returns (err: Option<RpcError>)
      requires Valid()
      modifies storage
      ensures Valid()
      ensures parsers.uuid(req.id).None? ==> err == Some(MalformedId)
      ensures parsers.uuid(req.id).Some? && parsers.uuid(req.bankPaymentId).None? ==> err == Some(MalformedBankId)
      ensures parsers.uuid(req.id).Some? && parsers.uuid(req.bankPaymentId).Some? ==>
        var id := parsers.uuid(req.id).value;
        && (id !in old(storage.payments) ==> err == Some(Store(UnknownPayment)))
        && (id in old(storage.payments) && parsers.time(req.bankResponseTimeUtc).None? ==> err == Some(MalformedTime))
        && (id in old(storage.payments) && parsers.time(req.bankResponseTimeUtc).Some? ==>
              var q := MarkedFinal(old(storage.payments)[id], parsers.uuid(req.bankPaymentId).value,
                                   parsers.time(req.bankResponseTimeUtc).value, req.bankMessage, Success);
              && (err.None? <==> PaymentValid(q, now))
              && (ValidatePayment(q, now).Some? ==> err == Some(Store(Rejected(ValidatePayment(q, now).value))))
              && (err.None? ==> storage.payments == old(storage.payments)[id := q]
                                && storage.bankReferences == Indexed(old(storage.bankReferences), q.bankPaymentId, id)))
      ensures err.Some? ==> storage.payments == old(storage.payments)
                            && storage.bankReferences == old(storage.bankReferences)
    {
      var id := parsers.uuid(req.id);
      if id.None? {
        return Some(MalformedId);
      }
      var bankId := parsers.uuid(req.bankPaymentId);
      if bankId.None? {
        return Some(MalformedBankId);
      }
      var payment, readErr := storage.Read(id.value);
      if readErr.Some? {
        return Some(Store(readErr.value));
      }
      var responseTime := parsers.time(req.bankResponseTimeUtc);
      if responseTime.None? {
        return Some(MalformedTime);
      }
      payment := MarkedFinal(payment, bankId.value, responseTime.value, req.bankMessage, Success);
      var updateErr := storage.Update(payment, now);
      if updateErr.Some? {
        return Some(Store(updateErr.value));
      }
      err := None;
    }

    /** UpdatePaymentToFail: the bank reference, response time and message
        are optional. A missing reference becomes uuid.Nil and a missing
        message the empty string; a missing response time becomes the empty
        string, which the time parser then rejects, so a fail request without
        a response time is refused once the record is found. */
    method UpdatePaymentToFail(req: UpdatePaymentToFailRequest, now: Instant, parsers: Parsers)
      returns (err: Option<RpcError>)
      requires Valid()
      modifies storage
      ensures Valid()
      ensures parsers.uuid(req.id).None? ==> err == Some(MalformedId)
      ensures parsers.uuid(req.id).Some? && req.bankPaymentId.Some? && parsers.uuid(req.bankPaymentId.value).None?
          ==> err == Some(MalformedBankId)
      ensures parsers.uuid(req.id).Some? && parsers.uuid(req.id).value in old(storage.payments)
              && req.bankResponseTimeUtc.None? && RejectsEmptyTime(parsers.time)
              && (req.bankPaymentId.None? || parsers.uuid(req.bankPaymentId.value).Some?)
          ==> err == Some(MalformedTime)
      ensures parsers.uuid(req.id).Some? && (req.bankPaymentId.None? || parsers.uuid(req.bankPaymentId.value).Some?) ==>
        var id := parsers.uuid(req.id).value;
        var bankId := if req.bankPaymentId.Some? then parsers.uuid(req.bankPaymentId.value).value else Nil;
        var message := if req.bankMessage.Some? then req.bankMessage.value else "";
        var timeText := if req.bankResponseTimeUtc.Some? then req.bankResponseTimeUtc.value else "";
        && (id !in old(storage.payments) ==> err == Some(Store(UnknownPayment)))
        && (id in old(storage.payments) && parsers.time(timeText).None? ==> err == Some(MalformedTime))
        && (id in old(storage.payments) && parsers.time(timeText).Some? ==>
              var q := MarkedFinal(old(storage.payments)[id], bankId, parsers.time(timeText).value, message, Fail);
              && (err.None? <==> PaymentValid(q, now))
              && (ValidatePayment(q, now).Some? ==> err == Some(Store(Rejected(ValidatePayment(q, now).value))))
              && (err.None? ==> storage.payments == old(storage.payments)[id := q]
                                && storage.bankReferences == Indexed(old(storage.bankReferences), bankId, id)))
      ensures err.Some? ==> storage.payments == old(storage.payments)
                            && storage.bankReferences == old(storage.bankReferences)
    {
      var id := parsers.uuid(req.id);
      if id.None? {
        return Some(MalformedId);
      }
      var bankId := Nil;
      if req.bankPaymentId.Some? {
        var parsed := parsers.uuid(req.bankPaymentId.value);
        if parsed.None? {
          return Some(MalformedBankId);
        }
        bankId := parsed.value;
      }
      var message := "";
      if req.bankMessage.Some? {
        message := req.bankMessage.value;
      }
      var payment, readErr := storage.Read(id.value);
      if readErr.Some? {
        return Some(Store(readErr.value));
      }
      var timeText := "";
      if req.bankResponseTimeUtc.Some? {
        timeText := req.bankResponseTimeUtc.value;
      }
      var responseTime := parsers.time(timeText);
      if responseTime.None? {
        return Some(MalformedTime);
      }
      payment := MarkedFinal(payment, bankId, responseTime.value, message, Fail);
      var updateErr := storage.Update(payment, now);
      if updateErr.Some? {
        return Some(Store(updateErr.value));
      }
      err := None;
    }
  }
}
