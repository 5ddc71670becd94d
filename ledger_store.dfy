/** The ledger's in-memory storage (ledger/storage/memory): payments by ID and
    an index from the bank's payment reference to the payment ID. */
module LedgerStore {
  import opened Common
  import opened LedgerEntities

  /** ErrUnknownPayment, ErrUnknownBankReference, and a validation error of
      the record being written. */
  datatype StoreError = UnknownPayment | UnknownBankReference | Rejected(cause: EntityError)

  class Storage {
    var payments: map<Uuid, Payment>
    var bankReferences: map<Uuid, Uuid>

    /** The storage invariant: every record is filed under its own ID, which
        is never uuid.Nil, and every bank reference is a real identifier
        leading to a stored payment. References are never removed, so one a
        later update replaced still leads to its payment. */
    ghost predicate Valid()
      reads this
    {
      && Nil !in payments
      && (forall id | id in payments :: payments[id].id == id)
      && (forall r | r in bankReferences :: r != Nil && bankReferences[r] in payments)
    }

    /** NewMemoryStorage: both maps empty. */
    constructor ()
      ensures Valid()
      ensures payments == map[] && bankReferences == map[]
    {
      payments := map[];
      bankReferences := map[];
    }

    /** Create. A fresh ID is drawn first, by retrying uuid.New() (here the
        draws draw(0), draw(1), ...) until one is not in use; then the record,
        with that ID, is validated, and only a valid record is stored and its
        bank reference indexed. `attempts` is the number of the draw used. */
    method Create(p: Payment, now: Instant, draw: nat -> Uuid) returns (id: Uuid, err: Option<EntityError>, ghost attempts: nat)
      requires Valid()
      requires forall k :: draw(k) != Nil
      requires exists k :: draw(k) !in payments
      modifies this
      ensures Valid()
      ensures err == ValidatePayment(p, now)
      ensures draw(attempts) !in old(payments)
      ensures forall j | 0 <= j < attempts :: draw(j) in old(payments)
      ensures err.Some? ==> id == Nil && payments == old(payments) && bankReferences == old(bankReferences)
      ensures err.None? ==>
        && id == draw(attempts)
        && payments == old(payments)[id := p.(id := id)]
        && bankReferences == if p.bankPaymentId != Nil then old(bankReferences)[p.bankPaymentId := id]
                             else old(bankReferences)
    {
      ghost var bound: nat :| draw(bound) !in payments;
      var k := 0;
      id := draw(0);
      while id in payments
        invariant k <= bound
        invariant id == draw(k)
        invariant forall j | 0 <= j < k :: draw(j) in payments
        decreases bound - k
      {
        k := k + 1;
        id := draw(k);
      }
      attempts := k;
      var record := p.(id := id);
      err := ValidatePayment(record, now);
      ValidatePaymentFields(record, p, now);
      if err.Some? {
        id := Nil;
        return;
      }
      payments := payments[id := record];
      if record.bankPaymentId != Nil {
        bankReferences := bankReferences[record.bankPaymentId := id];
      }
    }

    /** Read: the stored record, or the empty payment and ErrUnknownPayment. */
    method Read(id: Uuid) returns (p: Payment, err: Option<StoreError>)
      ensures err.None? <==> id in payments
      ensures err.None? ==> p == payments[id]
      ensures err.Some? ==> p == EmptyPayment && err == Some(UnknownPayment)
    {
      if id !in payments {
        return EmptyPayment, Some(UnknownPayment);
      }
      p, err := payments[id], None;
    }

    /** ReadUsingBankReference: follow the index to the payment ID and read
        that. Under the storage invariant the second lookup never fails, so
        every indexed reference yields the payment it names. */
    method ReadUsingBankReference(ref: Uuid) returns (p: Payment, err: Option<StoreError>)
      ensures ref !in bankReferences ==> p == EmptyPayment && err == Some(UnknownBankReference)
      ensures ref in bankReferences && bankReferences[ref] !in payments
          ==> p == EmptyPayment && err == Some(UnknownPayment)
      ensures ref in bankReferences && bankReferences[ref] in payments
          ==> p == payments[bankReferences[ref]] && err == None
      ensures Valid() ==> (err.None? <==> ref in bankReferences)
      ensures Valid() && err.None? ==> p.id == bankReferences[ref] && p in payments.Values
    {
      if ref !in bankReferences {
        return EmptyPayment, Some(UnknownBankReference);
      }
      var id := bankReferences[ref];
      if id !in payments {
        return EmptyPayment, Some(UnknownPayment);
      }
      p, err := payments[id], None;
    }

    /** Update: only a payment already stored can be replaced, and only by a
        valid record; the new record's bank reference is indexed, and any
        reference indexed before is kept. */
    method Update(p: Payment, now: Instant) returns (err: Option<StoreError>)
      requires Valid()
      modifies this
      ensures Valid()
      ensures p.id !in old(payments) ==> err == Some(UnknownPayment)
      ensures p.id in old(payments) && ValidatePayment(p, now).Some?
          ==> err == Some(Rejected(ValidatePayment(p, now).value))
      ensures err.None? <==> p.id in old(payments) && PaymentValid(p, now)
      ensures err.Some? ==> payments == old(payments) && bankReferences == old(bankReferences)
      ensures err.None? ==>
        && payments == old(payments)[p.id := p]
        && bankReferences == if p.bankPaymentId != Nil then old(bankReferences)[p.bankPaymentId := p.id]
                             else old(bankReferences)
    {
      ValidatePaymentAccepts(p, now);
      if p.id !in payments {
        return Some(UnknownPayment);
      }
      var verdict := ValidatePayment(p, now);
      if verdict.Some? {
        return Some(Rejected(verdict.value));
      }
      payments := payments[p.id := p];
      if p.bankPaymentId != Nil {
        bankReferences := bankReferences[p.bankPaymentId := p.id];
      }
      err := None;
    }
  }
}
