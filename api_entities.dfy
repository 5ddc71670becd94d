/** The gateway's own entities (api/entities): the payment as the gateway
    holds it, with its status as a name, the card, and the merchant. */
module ApiEntities {
  import opened Common
  import opened Decimal
  import LedgerEntities

  /** The PaymentStatus constants, in the same order as the ledger's. */
  const Created: int := 0
  const Pending: int := 1
  const Success: int := 2
  const Fail: int := 3

  /** PaymentStatus.String: the four names, and the %d numeral of any other value. */
  function StatusString(ps: int): (s: string)
    ensures !(0 <= ps <= 3) ==> s == FormatInt(ps)
  {
    if ps == 0 then "CREATED"
    else if ps == 1 then "PENDING"
    else if ps == 2 then "SUCCESS"
    else if ps == 3 then "FAIL"
    else FormatInt(ps)
  }

  /** The names of the four statuses. */
  lemma StatusNames()
    ensures StatusString(Created) == "CREATED" && StatusString(Pending) == "PENDING"
    ensures StatusString(Success) == "SUCCESS" && StatusString(Fail) == "FAIL"
  {
  }

  /** No two values render alike: the four names are distinct, and none of
      them is a numeral, whose first character is a minus sign or a digit. */
  lemma StatusStringInjective(a: int, b: int)
    ensures StatusString(a) == StatusString(b) ==> a == b
  {
    if StatusString(a) == StatusString(b) {
      FormatIntFirst(a);
      FormatIntFirst(b);
      if !(0 <= a <= 3) && !(0 <= b <= 3) {
        FormatIntInjective(a, b);
      }
    }
  }

  /** The gateway's constants are the ledger's status encoding. */
  lemma ConstantsMatchLedger()
    ensures Created == LedgerEntities.StatusCode(LedgerEntities.Created)
    ensures Pending == LedgerEntities.StatusCode(LedgerEntities.Pending)
    ensures Success == LedgerEntities.StatusCode(LedgerEntities.Success)
    ensures Fail == LedgerEntities.StatusCode(LedgerEntities.Fail)
  {
  }

  /** The net/http status codes the gateway sends and reads. */
  const StatusOK: int := 200
  const StatusCreated: int := 201
  const StatusBadRequest: int := 400
  const StatusUnauthorized: int := 401
  const StatusTooManyRequests: int := 429
  const StatusInternalServerError: int := 500

  datatype CreditCard = CreditCard(number: string, name: string, expireMonth: int, expireYear: int, cvv: int)

  datatype Merchant = Merchant(id: Uuid, username: string, password: string, name: string, active: bool, maxQps: int)

  /** The gateway's payment; its status is a name such as "PENDING". */
  datatype Payment = Payment(
    id: Uuid,
    merchantId: Uuid,
    amount: real,
    currency: string,
    purchaseTime: Instant,
    validationMethod: string,
    card: CreditCard,
    metadata: string,
    status: string,
    bankPaymentId: Uuid,
    bankRequestTime: Instant,
    bankResponseTime: Instant,
    bankMessage: string)
}
