/**
 * The `/users` (register) and `/auth` (login) handlers of index.js as
 * operations on the user collection, keyed by email. Salted hashing,
 * comparison and token signing are opaque functions supplied by the caller.
 */
module Accounts {

  /** A stored user: id assigned by the store, email, password hash. */
  datatype Account = Account(id: nat, email: string, password: string)

  /**
   * The external primitives: `bcrypt.hash(password, salt)`,
   * `bcrypt.compare(password, hash)` and `jwt.sign({_id}, key)` under the
   * configured key.
   */
  datatype Crypto = Crypto(hash: (string, string) -> string,
                           compare: (string, string) -> bool,
                           sign: nat -> string)

  /** A handler's reply: the body sent, or a status with a plain-text message. */
  datatype Reply<+T> = Sent(body: T) | Status(code: int, message: string)

  /** `{token, _id, email}`: what a successful registration sends. */
  datatype Registration = Registration(token: string, id: nat, email: string)

  const AlreadyRegistered: string := "User already registered."
  const InvalidCredentials: string := "Invalid email or password."

  /** The users table is consistent: keyed by email, ids below the next one and distinct. */
  ghost predicate TableValid(users: map<string, Account>, nextId: nat) {
    && (forall e | e in users :: users[e].email == e && users[e].id < nextId)
    && (forall e1, e2 | e1 in users && e2 in users && e1 != e2 :: users[e1].id != users[e2].id)
  }

  /**
   * The login decision: an unknown email and a wrong password get the same
   * 400 reply; otherwise the reply is a token for the account's id.
   */
  function LoginReply(users: map<string, Account>, email: string, password: string, crypto: Crypto): (r: Reply<string>)
    ensures r.Sent? <==> email in users && crypto.compare(password, users[email].password)
    ensures r.Sent? ==> r.body == crypto.sign(users[email].id)
    ensures r.Status? ==> r == Status(400, InvalidCredentials)
  {
    if email !in users then Status(400, InvalidCredentials)
    else if !crypto.compare(password, users[email].password) then Status(400, InvalidCredentials)
    else Sent(crypto.sign(users[email].id))
  }

  /** The user collection. */
  class UserStore {
    var users: map<string, Account>
    var nextId: nat

    ghost predicate Valid()
      reads this
    {
      TableValid(users, nextId)
    }

    constructor ()
      ensures Valid() && users == map[] && nextId == 0
    {
      users := map[];
      nextId := 0;
    }

    /**
     * Register: a known email is refused and nothing changes; otherwise one
     * account is added holding the salted hash, and the reply carries the
     * token, id and email only.
     */
    method Register(email: string, password: string, salt: string, crypto: Crypto) returns (r: Reply<Registration>)
      requires Valid()
      modifies this
      ensures Valid()
      ensures email in old(users) ==> r == Status(400, AlreadyRegistered) && users == old(users) && nextId == old(nextId)
      ensures email !in old(users) ==>
                && users == old(users)[email := Account(old(nextId), email, crypto.hash(password, salt))]
                && nextId == old(nextId) + 1
                && r == Sent(Registration(crypto.sign(old(nextId)), old(nextId), email))
    ensures r.Sent? ==> forall e | e in users && e != email :: users[e].id != r.body.id
    {
      if email in users {
        return Status(400, AlreadyRegistered);
      }
      var id := nextId;
      var hashed := crypto.hash(password, salt);
      users := users[email := Account(id, email, hashed)];
      nextId := nextId + 1;
      var token := crypto.sign(id);
      r := Sent(Registration(token, id, email));
    }

    /** Login: the login decision over the users the store holds now. */
    method Login(email: string, password: string, crypto: Crypto) returns (r: Reply<string>)
      ensures r == LoginReply(users, email, password, crypto)
    {
      r := LoginReply(users, email, password, crypto);
    }
  }

  /** An unknown email and a wrong password are indistinguishable to the caller. */
  lemma NoAccountEnumeration(users: map<string, Account>, unknown: string, known: string,
                             pw1: string, pw2: string, crypto: Crypto)
    requires unknown !in users && known in users && !crypto.compare(pw2, users[known].password)
    ensures LoginReply(users, unknown, pw1, crypto) == LoginReply(users, known, pw2, crypto) == Status(400, InvalidCredentials)
  {
  }

  /**
   * After a registration, logging in with the same password (which the
   * hash comparison accepts for its own hash) returns the new id's token.
   */
  lemma RegisterThenLogin(users: map<string, Account>, nextId: nat, email: string, password: string,
                          salt: string, crypto: Crypto)
    requires email !in users
    requires crypto.compare(password, crypto.hash(password, salt))
    ensures LoginReply(users[email := Account(nextId, email, crypto.hash(password, salt))], email, password, crypto)
            == Sent(crypto.sign(nextId))
  {
  }

  /** Registering an email twice: the second attempt is refused with 400. */
  method RegisterTwice(store: UserStore, email: string, pw1: string, pw2: string, salt: string, crypto: Crypto)
    returns (first: Reply<Registration>, second: Reply<Registration>)
    requires store.Valid()
    modifies store
    ensures store.Valid()
    ensures second == Status(400, AlreadyRegistered)
    ensures email in store.users
  {
    first := store.Register(email, pw1, salt, crypto);
    second := store.Register(email, pw2, salt, crypto);
  }
}
