/** The merchant entity (merchant/entities/merchant.go): the account the
    gateway authenticates and rate-limits. */
module MerchantEntities {
  import opened Common

  datatype Merchant = Merchant(id: Uuid, username: string, password: string, name: string, active: bool, maxQps: int)

  /** ErrMaxQPSCannotBeNegative, ErrUsernameOrPasswordEmpty, ErrNameEmpty, and
      the failure of the password hash, which the source drops (see NewMerchantAsWritten). */
  datatype MerchantError = MaxQpsNegative | UsernameOrPasswordEmpty | NameEmpty | HashFailed

  /** bcrypt.GenerateFromPassword at the default cost: None when it fails. */
  type Hasher = string -> Option<string>

  /** Go's zero value Merchant{}. */
  const EmptyMerchant: Merchant := Merchant(Nil, "", "", "", false, 0)

  /** What replaces the password of a merchant that failed validation. */
  const Mask: string := "******"

  /** The merchant invariant: a non-negative QPS limit, a username and a
      password, and a name. The active flag and the ID are free. */
  predicate MerchantValid(m: Merchant)
  {
    m.maxQps >= 0 && m.username != "" && m.password != "" && m.name != ""
  }

  /** Merchant.Validate: QPS first, then username or password, then name. */
  function Validate(m: Merchant): (r: Option<MerchantError>)
    ensures r.None? <==> MerchantValid(m)
    ensures m.maxQps < 0 ==> r == Some(MaxQpsNegative)
    ensures m.maxQps >= 0 && (m.username == "" || m.password == "") ==> r == Some(UsernameOrPasswordEmpty)
    ensures r != Some(HashFailed)
  {
    if m.maxQps < 0 then Some(MaxQpsNegative)
    else if m.username == "" || m.password == "" then Some(UsernameOrPasswordEmpty)
    else if m.name == "" then Some(NameEmpty)
    else None
  }

  /** NewMerchant as written: an invalid merchant comes back with its password
      masked and the validation error; a valid one with its password replaced
      by the hash. When hashing fails it answers the empty merchant and a nil
      error. The contract spells out these three outcomes case by case on
      purpose: it is the written half of the finding that NewMerchantSound
      corrects. */
  function NewMerchantAsWritten(username: string, password: string, name: string, active: bool, maxQps: int, hash: Hasher)
    : (r: (Merchant, Option<MerchantError>))
    ensures var m := Merchant(Nil, username, password, name, active, maxQps);
      && (!MerchantValid(m) ==> r == (m.(password := Mask), Validate(m)))
      && (MerchantValid(m) && hash(password).None? ==> r == (EmptyMerchant, None))
      && (MerchantValid(m) && hash(password).Some? ==> r == (m.(password := hash(password).value), None))
  {
    var m := Merchant(Nil, username, password, name, active, maxQps);
    var err := Validate(m);
    if err.Some? then (m.(password := Mask), err)
    else match hash(password)
      case None => (EmptyMerchant, None)
      case Some(h) => (m.(password := h), None)
  }

  /** The discrepancy: with a valid username, password and name whose password
      the hasher refuses (bcrypt refuses passwords over 72 bytes), the nil
      error comes with a merchant that has none of the given fields. */
  lemma NewMerchantAsWrittenDropsHashFailure(hash: Hasher)
    requires hash("secret") == None
    ensures var r := NewMerchantAsWritten("merchant", "secret", "Merchant", true, 10, hash);
      r.1 == None && r.0.username != "merchant" && !MerchantValid(r.0)
  {
  }

  /** NewMerchant as intended: the hash failure is reported. */
  function NewMerchant(username: string, password: string, name: string, active: bool, maxQps: int, hash: Hasher)
    : (r: (Merchant, Option<MerchantError>))
    ensures var m := Merchant(Nil, username, password, name, active, maxQps);
      && (!MerchantValid(m) ==> r == (m.(password := Mask), Validate(m)))
      && (MerchantValid(m) && hash(password).None? ==> r.1 == Some(HashFailed))
  {
    var m := Merchant(Nil, username, password, name, active, maxQps);
    var err := Validate(m);
    if err.Some? then (m.(password := Mask), err)
    else match hash(password)
      case None => (EmptyMerchant, Some(HashFailed))
      case Some(h) => (m.(password := h), None)
  }

  /** A nil error from NewMerchant means the merchant carries exactly the
      given username, name, flag and limit, no ID, and the hash of the given
      password; an error means something failed, and the cleartext password
      is never handed back. */
  lemma NewMerchantSound(username: string, password: string, name: string, active: bool, maxQps: int, hash: Hasher)
    ensures var r := NewMerchant(username, password, name, active, maxQps, hash);
      && (r.1.None? <==> MerchantValid(Merchant(Nil, username, password, name, active, maxQps)) && hash(password).Some?)
      && (r.1.None? ==> r.0 == Merchant(Nil, username, hash(password).value, name, active, maxQps))
      && (r.1.Some? && password != Mask ==> r.0.password != password)
  {
  }

  /** The two versions differ only where hashing fails. */
  lemma NewMerchantAgrees(username: string, password: string, name: string, active: bool, maxQps: int, hash: Hasher)
    requires hash(password).Some?
    ensures NewMerchant(username, password, name, active, maxQps, hash)
         == NewMerchantAsWritten(username, password, name, active, maxQps, hash)
  {
  }
}
