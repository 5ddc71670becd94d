/** The ledger's entities (package entity under ledger/entities): the card
    snapshot, the payment record, their validation and the payment status. */
module LedgerEntities {
  import opened Common
  import opened Calendar
  import opened Decimal

  // ---------------------------------------------------------------------------
  // Credit card (ledger/entities/card.go)

  datatype CreditCard = CreditCard(number: string, name: string, expireMonth: int, expireYear: int, cvv: int)

  /** The errors the entity package returns. ExpiryUnparsable stands for the
      error time.Parse returns for the expiry text; PurchaseTimeUnparsable and
      MerchantIdUnparsable for the errors of the parsers NewPayment calls. */
  datatype EntityError =
    | InvalidNumber
    | InvalidName
    | CardExpired
    | InvalidCvv
    | ExpiryUnparsable
    | NegativeAmount
    | MissingCurrency
    | MissingValidationMethod
    | PurchaseTimeUnparsable
    | MerchantIdUnparsable

  /** The text Validate hands to time.Parse: fmt.Sprintf("%d-%02d", year, month). */
  function ExpiryText(c: CreditCard): string
  {
    FormatInt(c.expireYear) + "-" + FormatInt02(c.expireMonth)
  }

  /** CreditCard.Validate, with the current time passed in: the first failing
      check wins, in the order name, number, expiry parse, expiry, CVV. */
  function ValidateCard(c: CreditCard, now: Instant): Option<EntityError>
  {
    if c.name == "" then Some(InvalidName)
    else if c.number == "" then Some(InvalidNumber)
    else match ParseYearMonth(ExpiryText(c))
      case None => Some(ExpiryUnparsable)
      case Some((year, month)) =>
        if MonthStart(year, month) < now then Some(CardExpired)
        else if c.cvv < 0 || c.cvv > 999 then Some(InvalidCvv)
        else None
  }

  /** The card invariant: a name, a number, an expiry in a four-digit year and
      a month 1..12 whose first instant is not before `now`, and a CVV in 0..999. */
  predicate CardValid(c: CreditCard, now: Instant)
  {
    && c.name != ""
    && c.number != ""
    && 1000 <= c.expireYear <= 9999
    && 1 <= c.expireMonth <= 12
    && now <= MonthStart(c.expireYear, c.expireMonth)
    && 0 <= c.cvv <= 999
  }

  /** NewCreditCard: the card is built from the arguments as given and is
      returned together with Validate's verdict, even when that is an error. */
  function NewCreditCard(number: string, name: string, expireMonth: int, expireYear: int, cvv: int, now: Instant)
    : (r: (CreditCard, Option<EntityError>))
    ensures r.0.number == number && r.0.name == name && r.0.cvv == cvv
    ensures r.0.expireMonth == expireMonth && r.0.expireYear == expireYear
    ensures r.1 == None <==> CardValid(r.0, now)
  {
    var c := CreditCard(number, name, expireMonth, expireYear, cvv);
    ValidateCardAccepts(c, now);
    (c, ValidateCard(c, now))
  }

  /** Sprintf("%d-%02d") followed by time.Parse("2006-01") succeeds exactly
      for a four-digit year and a month in 1..12, and then gives them back.
      A year below 1000 is written with fewer than four digits, one of 10000
      or more with too many, and a month of 100 or more leaves extra text. */
  lemma ExpiryParse(year: int, month: int)
    ensures ParseYearMonth(FormatInt(year) + "-" + FormatInt02(month))
         == if 1000 <= year <= 9999 && 1 <= month <= 12 then Some((year, month)) else None
  {
    var d := FormatInt(year);
    var p := FormatInt02(month);
    var s := d + "-" + p;
    if year < 0 {
      assert s[0] == '-';
      if |s| >= 4 { assert s[..4][0] == '-'; }
    } else if year < 1000 {
      NatDigitsLength(year, 3);
      assert s[|d|] == '-';
      assert s[..4][|d|] == '-';
    } else if year >= 10000 {
      NatDigitsLength(year, 4);
      assert s[4] == d[4];
    } else {
      NatDigitsLength(year, 3);
      NatDigitsLength(year, 4);
      assert s[..4] == d;
      NatDigitsValue(year);
      assert s[4] == '-';
      assert s[5..] == p;
      if month < 0 {
        assert s[5] == '-';
      } else if month < 10 {
        NatDigitsLength(month, 1);
        assert s[5..7] == p;
        assert p == ['0', DigitChar(month)];
        assert p[..|p| - 1] == "0";
        assert DigitsValue("0") == 0;
      } else if month < 100 {
        NatDigitsLength(month, 1);
        NatDigitsLength(month, 2);
        NatDigitsValue(month);
        assert s[5..7] == p;
      } else {
        NatDigitsLength(month, 2);
        assert IsDigit(p[0]) && IsDigit(p[1]);
      }
    }
  }

  /** Validate, in closed form: the expiry parse is the four-digit-year and
      month-range test, and the checks are made in order with the first
      failure reported. */
  lemma ValidateCardOutcome(c: CreditCard, now: Instant)
    ensures ValidateCard(c, now) ==
      if c.name == "" then Some(InvalidName)
      else if c.number == "" then Some(InvalidNumber)
      else if !(1000 <= c.expireYear <= 9999 && 1 <= c.expireMonth <= 12) then Some(ExpiryUnparsable)
      else if MonthStart(c.expireYear, c.expireMonth) < now then Some(CardExpired)
      else if c.cvv < 0 || c.cvv > 999 then Some(InvalidCvv)
      else None
  {
    ExpiryParse(c.expireYear, c.expireMonth);
  }

  /** Validate returns nil exactly for the cards that meet the card invariant. */
  lemma ValidateCardAccepts(c: CreditCard, now: Instant)
    ensures ValidateCard(c, now) == None <==> CardValid(c, now)
  {
    ValidateCardOutcome(c, now);
  }

  /** A card that passes at some time passes at every earlier time: a verdict
      can only turn from nil to an error as time advances. */
  lemma ValidateCardEarlier(c: CreditCard, earlier: Instant, later: Instant)
    requires earlier <= later
    requires ValidateCard(c, later) == None
    ensures ValidateCard(c, earlier) == None
  {
    ValidateCardAccepts(c, earlier);
    ValidateCardAccepts(c, later);
  }

  /** The cases of the card tests, at any time between January 2020 and
      October 2099: 2099-10 with CVV 123 passes, a missing name or number is
      reported first, 2020-01 is expired, a CVV of -1 or 1024 is rejected, and
      an expired card with a bad CVV reports the expiry. */
  lemma CardTestCases(now: Instant)
    requires MonthStart(2020, 1) < now <= MonthStart(2099, 10)
    ensures ValidateCard(CreditCard("1111-2222-3333-4444", "name surname", 10, 2099, 123), now) == None
    ensures ValidateCard(CreditCard("1111-2222-3333-4444", "", 10, 2099, 123), now) == Some(InvalidName)
    ensures ValidateCard(CreditCard("", "name surname", 10, 2099, 123), now) == Some(InvalidNumber)
    ensures ValidateCard(CreditCard("1111-2222-3333-4444", "name surname", 1, 2020, 123), now) == Some(CardExpired)
    ensures ValidateCard(CreditCard("1111-2222-3333-4444", "name surname", 10, 2099, -1), now) == Some(InvalidCvv)
    ensures ValidateCard(CreditCard("1111-2222-3333-4444", "name surname", 10, 2099, 1024), now) == Some(InvalidCvv)
    ensures ValidateCard(CreditCard("1111-2222-3333-4444", "name surname", 1, 2020, 1024), now) == Some(CardExpired)
  {
    ValidateCardOutcome(CreditCard("1111-2222-3333-4444", "name surname", 10, 2099, 123), now);
    ValidateCardOutcome(CreditCard("1111-2222-3333-4444", "name surname", 1, 2020, 123), now);
    ValidateCardOutcome(CreditCard("1111-2222-3333-4444", "name surname", 10, 2099, -1), now);
    ValidateCardOutcome(CreditCard("1111-2222-3333-4444", "name surname", 10, 2099, 1024), now);
    ValidateCardOutcome(CreditCard("1111-2222-3333-4444", "name surname", 1, 2020, 1024), now);
  }

  // ---------------------------------------------------------------------------
  // Payment (ledger/entities/payment.go)

  /** PaymentStatus, a closed enumeration here; StatusCode is its Go encoding. */
  datatype PaymentStatus = Created | Pending | Success | Fail

  function StatusCode(s: PaymentStatus): (code: int)
    ensures 0 <= code <= 3
  {
    match s
    case Created => 0
    case Pending => 1
    case Success => 2
    case Fail => 3
  }

  /** The status with a given integer encoding, if there is one. */
  function StatusOfCode(code: int): (s: Option<PaymentStatus>)
    ensures s.Some? <==> 0 <= code <= 3
    ensures s.Some? ==> StatusCode(s.value) == code
  {
    if code == 0 then Some(Created)
    else if code == 1 then Some(Pending)
    else if code == 2 then Some(Success)
    else if code == 3 then Some(Fail)
    else None
  }

  /** The encoding is the iota order Created=0, Pending=1, Success=2, Fail=3,
      and decoding inverts it. */
  lemma StatusEncoding(s: PaymentStatus)
    ensures StatusOfCode(StatusCode(s)) == Some(s)
    ensures StatusCode(Created) == 0 && StatusCode(Pending) == 1
    ensures StatusCode(Success) == 2 && StatusCode(Fail) == 3
  {
  }

  /** A payment record. The amount is a float64 in the source and a real
      here: Validate tests its sign and Equal compares it; NaN and the
      infinities are not modelled. */
  datatype Payment = Payment(
    id: Uuid,
    merchantId: Uuid,
    amount: real,
    currency: string,
    purchaseTime: Instant,
    validationMethod: string,
    card: CreditCard,
    metadata: string,
    status: PaymentStatus,
    bankPaymentId: Uuid,
    bankRequestTime: Instant,
    bankResponseTime: Instant,
    bankMessage: string)

  /** Go's zero value Payment{}. */
  const EmptyPayment: Payment :=
    Payment(Nil, Nil, 0.0, "", ZeroTime, "", CreditCard("", "", 0, 0, 0), "", Created, Nil, ZeroTime, ZeroTime, "")

  /** Payment.Validate: amount, then currency, then validation method, and
      then whatever the card's own validation says. */
  function ValidatePayment(p: Payment, now: Instant): Option<EntityError>
  {
    if p.amount < 0.0 then Some(NegativeAmount)
    else if p.currency == "" then Some(MissingCurrency)
    else if p.validationMethod == "" then Some(MissingValidationMethod)
    else ValidateCard(p.card, now)
  }

  /** The record invariant the ledger enforces on every write. Metadata is
      not part of it. */
  predicate PaymentValid(p: Payment, now: Instant)
  {
    p.amount >= 0.0 && p.currency != "" && p.validationMethod != "" && CardValid(p.card, now)
  }

  lemma ValidatePaymentAccepts(p: Payment, now: Instant)
    ensures ValidatePayment(p, now) == None <==> PaymentValid(p, now)
  {
    ValidateCardAccepts(p.card, now);
  }

  /** The first failing check wins: a negative amount is reported whatever
      else is wrong, a missing currency before a missing validation method,
      and once the three payment checks pass the card's verdict is returned
      unchanged. A zero amount passes. */
  lemma ValidatePaymentOrder(p: Payment, now: Instant)
    ensures p.amount < 0.0 ==> ValidatePayment(p, now) == Some(NegativeAmount)
    ensures p.amount >= 0.0 && p.currency == "" ==> ValidatePayment(p, now) == Some(MissingCurrency)
    ensures p.amount >= 0.0 && p.currency != "" && p.validationMethod == ""
        ==> ValidatePayment(p, now) == Some(MissingValidationMethod)
    ensures p.amount >= 0.0 && p.currency != "" && p.validationMethod != ""
        ==> ValidatePayment(p, now) == ValidateCard(p.card, now)
  {
  }

  /** Validate looks only at amount, currency, validation method and card: the
      identifiers, metadata, status and bank fields never change its verdict. */
  lemma ValidatePaymentFields(p: Payment, q: Payment, now: Instant)
    requires p.amount == q.amount && p.currency == q.currency
    requires p.validationMethod == q.validationMethod && p.card == q.card
    ensures ValidatePayment(p, now) == ValidatePayment(q, now)
  {
  }

  /** Payment.Equal: every field but ID is compared. */
  function Equal(p: Payment, q: Payment): (r: bool)
    ensures r <==> p.(id := q.id) == q
  {
    && p.merchantId == q.merchantId
    && p.amount == q.amount
    && p.currency == q.currency
    && p.purchaseTime == q.purchaseTime
    && p.validationMethod == q.validationMethod
    && p.card == q.card
    && p.metadata == q.metadata
    && p.status == q.status
    && p.bankPaymentId == q.bankPaymentId
    && p.bankRequestTime == q.bankRequestTime
    && p.bankResponseTime == q.bankResponseTime
    && p.bankMessage == q.bankMessage
  }

  /** Equal is an equivalence that does not see the ID. */
  lemma EqualIsEquivalence(p: Payment, q: Payment, r: Payment, id: Uuid)
    ensures Equal(p, p)
    ensures Equal(p, q) ==> Equal(q, p)
    ensures Equal(p, q) && Equal(q, r) ==> Equal(p, r)
    ensures Equal(p, p.(id := id))
  {
  }

  /** NewPayment: parse the purchase time, then the merchant id (either
      failure gives the empty payment and the parse error); otherwise a record
      in status Created with no ID and no bank data, paired with Validate's
      verdict on it. The now-argument is the instant time.Now() reads. */
  function NewPayment(merchantId: string, amount: real, currency: string, purchaseTimeUtc: string,
                      validationMethod: string, card: CreditCard, metadata: string,
                      now: Instant, parsers: Parsers): (r: (Payment, Option<EntityError>))
    ensures parsers.time(purchaseTimeUtc).None? ==> r == (EmptyPayment, Some(PurchaseTimeUnparsable))
    ensures parsers.time(purchaseTimeUtc).Some? && parsers.uuid(merchantId).None?
        ==> r == (EmptyPayment, Some(MerchantIdUnparsable))
    ensures parsers.time(purchaseTimeUtc).Some? && parsers.uuid(merchantId).Some? ==>
      && r.0 == EmptyPayment.(merchantId := parsers.uuid(merchantId).value, amount := amount,
                              currency := currency, purchaseTime := parsers.time(purchaseTimeUtc).value,
                              validationMethod := validationMethod, card := card, metadata := metadata)
      && r.0.status == Created && r.0.id == Nil && r.0.bankPaymentId == Nil
      && (r.1 == None <==> PaymentValid(r.0, now))
  {
    match parsers.time(purchaseTimeUtc)
    case None => (EmptyPayment, Some(PurchaseTimeUnparsable))
    case Some(purchaseTime) =>
      match parsers.uuid(merchantId)
      case None => (EmptyPayment, Some(MerchantIdUnparsable))
      case Some(merchantUuid) =>
        var p := Payment(Nil, merchantUuid, amount, currency, purchaseTime, validationMethod, card,
                         metadata, Created, Nil, ZeroTime, ZeroTime, "");
        ValidatePaymentAccepts(p, now);
        (p, ValidatePayment(p, now))
  }
}
