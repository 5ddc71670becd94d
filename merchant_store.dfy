/** The merchant service's in-memory storage (merchant/storage/memory):
    merchants by ID and an index from username to ID. */
module MerchantStore {
  import opened Common
  import opened MerchantEntities

  /** ErrUsernameAlreadyExists, ErrUnknownMerchantID,
      ErrUnknownMerchantUsername, ErrInvalidPassword, and a validation error. */
  datatype StoreError =
    | UsernameAlreadyExists
    | UnknownMerchantId
    | UnknownMerchantUsername
    | InvalidPassword
    | Rejected(cause: MerchantError)

  /** bcrypt.CompareHashAndPassword(hash, password) == nil. */
  type Matcher = (string, string) -> bool

  class Storage {
    var merchants: map<Uuid, Merchant>
    var usernames: map<string, Uuid>

    /** The storage invariant: every merchant is filed under its own ID,
        which is never uuid.Nil, and the username index is a bijection
        between the stored usernames and the stored IDs. */
    ghost predicate Valid()
      reads this
    {
      && Nil !in merchants
      && (forall id | id in merchants ::
            merchants[id].id == id && merchants[id].username in usernames && usernames[merchants[id].username] == id)
      && (forall u | u in usernames :: usernames[u] in merchants && merchants[usernames[u]].username == u)
    }

    /** NewMemoryStorage: both maps empty. */
    constructor ()
      ensures Valid()
      ensures merchants == map[] && usernames == map[]
    {
      merchants := map[];
      usernames := map[];
    }

    /** CreateMerchant: validate, refuse a username already registered, keep
        the merchant's own ID when it is set and free and otherwise use the
        one uuid.New() call (`newId`), then store and index. */
    method CreateMerchant(m: Merchant, newId: Uuid) returns (id: Uuid, err: Option<StoreError>)
      requires Valid()
      requires newId != Nil && newId !in merchants
      modifies this
      ensures Valid()
      ensures Validate(m).Some? ==> err == Some(Rejected(Validate(m).value))
      ensures Validate(m).None? && m.username in old(usernames) ==> err == Some(UsernameAlreadyExists)
      ensures err.None? <==> MerchantValid(m) && m.username !in old(usernames)
      ensures err.Some? ==> id == Nil && merchants == old(merchants) && usernames == old(usernames)
      ensures err.None? ==>
        && id == (if m.id == Nil || m.id in old(merchants) then newId else m.id)
        && id !in old(merchants)
        && merchants == old(merchants)[id := m.(id := id)]
        && usernames == old(usernames)[m.username := id]
    {
      var verdict := Validate(m);
      if verdict.Some? {
        return Nil, Some(Rejected(verdict.value));
      }
      if m.username in usernames {
        return Nil, Some(UsernameAlreadyExists);
      }
      id := m.id;
      if id in merchants || id == Nil {
        id := newId;
      }
      merchants := merchants[id := m.(id := id)];
      usernames := usernames[m.username := id];
      err := None;
    }

    /** ReadMerchant: the stored merchant, or the empty one and ErrUnknownMerchantID. */
    method ReadMerchant(id: Uuid) returns (m: Merchant, err: Option<StoreError>)
      ensures err.None? <==> id in merchants
      ensures err.None? ==> m == merchants[id]
      ensures err.Some? ==> m == EmptyMerchant && err == Some(UnknownMerchantId)
    {
      if id !in merchants {
        return EmptyMerchant, Some(UnknownMerchantId);
      }
      m, err := merchants[id], None;
    }

    /** FindMerchantID: look the username up, then check the password against
        the stored hash. Under the storage invariant the middle lookup never
        fails, so the answer is the ID of the merchant with that username
        exactly when the password matches its hash. */
    method FindMerchantID(username: string, password: string, matches: Matcher) returns (id: Uuid, err: Option<StoreError>)
      ensures username !in usernames ==> id == Nil && err == Some(UnknownMerchantUsername)
      ensures username in usernames && usernames[username] !in merchants
          ==> id == Nil && err == Some(UnknownMerchantId)
      ensures username in usernames && usernames[username] in merchants
              && !matches(merchants[usernames[username]].password, password)
          ==> id == Nil && err == Some(InvalidPassword)
      ensures err.Some? ==> id == Nil
      ensures Valid() ==>
        (err.None? <==> username in usernames && matches(merchants[usernames[username]].password, password))
      ensures Valid() && err.None? ==> id in merchants && merchants[id].username == username && id != Nil
    {
      if username !in usernames {
        return Nil, Some(UnknownMerchantUsername);
      }
      id := usernames[username];
      if id !in merchants {
        return Nil, Some(UnknownMerchantId);
      }
      if !matches(merchants[id].password, password) {
        return Nil, Some(InvalidPassword);
      }
      err := None;
    }

    /** Usernames are unique among stored merchants. */
    lemma UsernamesUnique(a: Uuid, b: Uuid)
      requires Valid()
      requires a in merchants && b in merchants
      requires merchants[a].username == merchants[b].username
      ensures a == b
    {
      assert usernames[merchants[a].username] == a;
    }
  }
}
