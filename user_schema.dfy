/**
 * The `UserData` collection of server/userSchema.js: the record shape of an
 * account, its `required` / `unique` / `default` annotations, and the
 * `findOne({ email })` query the login resolver runs against it.
 */
module UserSchema {
  import opened Wrappers

  /** `loginAttempts` defaults to 0 when a record is created without it. */
  const DefaultLoginAttempts: int := 0

  /**
   * One stored account. `id` stands for the document's generated object id;
   * the `password` path of the schema holds the password HASH, named
   * `passwordHash` here. A record built without `loginAttempts` gets the
   * schema default.
   */
  datatype Account = Account(
    id: nat,
    email: string,
    passwordHash: string,
    loginAttempts: int := DefaultLoginAttempts)

  /** The two `required: true` paths of the schema. */
  datatype ValidationError = EmailRequired | PasswordRequired

  /**
   * Document validation: a required String path is violated by an empty
   * string. All violations are collected, as the document validator does.
   */
  function ValidationErrors(a: Account): (r: set<ValidationError>)
    ensures r == {} <==> a.email != "" && a.passwordHash != ""
    ensures EmailRequired in r <==> a.email == ""
    ensures PasswordRequired in r <==> a.passwordHash == ""
  {
    (if a.email == "" then {EmailRequired} else {})
    + (if a.passwordHash == "" then {PasswordRequired} else {})
  }

  /**
   * The collection is kept as a map from email to record: the unique index
   * on `email` means the email is a key, so each record sits under its own
   * email.
   */
  predicate KeyedByEmail(accounts: map<string, Account>)
  {
    forall e :: e in accounts ==> accounts[e].email == e
  }

  /** Generated object ids never repeat. */
  predicate DistinctIds(accounts: map<string, Account>)
  {
    forall e1, e2 :: e1 in accounts && e2 in accounts && e1 != e2 ==> accounts[e1].id != accounts[e2].id
  }

  /**
   * What the schema guarantees of every stored collection: unique emails,
   * every record passes validation (non-empty email and hash), counters
   * never negative, and distinct ids all drawn below `nextId`.
   */
  predicate StoreInvariant(accounts: map<string, Account>, nextId: nat)
  {
    && KeyedByEmail(accounts)
    && DistinctIds(accounts)
    && forall e :: e in accounts ==>
         && ValidationErrors(accounts[e]) == {}
         && accounts[e].loginAttempts >= 0
         && accounts[e].id < nextId
  }

  /**
   * `findOne({ email })`: the record whose email FIELD equals the query, or
   * nothing. On a store keyed by email this is a single lookup, and there is
   * never more than one such record.
   */
  function FindOne(accounts: map<string, Account>, email: string): (r: Option<Account>)
    requires KeyedByEmail(accounts)
    ensures r.Some? <==> exists e :: e in accounts && accounts[e].email == email
    ensures r.Some? ==> r.value.email == email && r.value in accounts.Values
    ensures forall e :: e in accounts && accounts[e].email == email ==> r == Some(accounts[e])
  {
    if email in accounts then Some(accounts[email]) else None
  }
}
