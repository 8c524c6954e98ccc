/**
 * The account service behind the `registerUser` and `loginUser` mutations of
 * server/server.js. Each resolver call is one atomic step over the account
 * collection. The password hasher is a parameter `hash` (bcrypt with 10 salt
 * rounds); checking a password against a stored hash is `hash(pw) == stored`.
 * A signed token is a value holding its claims, key and lifetime.
 */
module Server {
  import opened Wrappers
  import opened UserSchema

  /** A failed attempt that brings the counter to this value is reported as a lockout. */
  const MaxLoginAttempts: int := 5
  /** The signing key passed to the token signer. */
  const TokenSecret: string := "secret"
  /** `expiresIn: '1h'`, in seconds. */
  const TokenLifetimeSeconds: nat := 3600

  /** The claim set `{ userId, email }` of an issued token. */
  datatype Claims = Claims(userId: nat, email: string)

  /** A signed bearer token. The issue time is not modelled. */
  datatype Token = Token(claims: Claims, secret: string, expiresIn: nat)

  /** `jwt.sign(claims, 'secret', { expiresIn: '1h' })`. */
  function Sign(claims: Claims): Token
  {
    Token(claims, TokenSecret, TokenLifetimeSeconds)
  }

  /** The GraphQL `User` type: the only fields of an account a client ever sees. */
  datatype PublicUser = PublicUser(id: nat, email: string)

  /** Why registration failed: a required path was empty, or the email is taken. */
  datatype RegisterError = Invalid(errors: set<ValidationError>) | DuplicateEmail

  datatype LoginError = UserNotFound | InvalidPassword | AccountLocked

  /** The message each login failure is thrown with. */
  function Message(e: LoginError): string
  {
    match e
    case UserNotFound => "User not found"
    case InvalidPassword => "Invalid password"
    case AccountLocked => "Account locked due to multiple failed login attempts"
  }

  /**
   * The thrown text is the only thing that reaches the client, so it must
   * tell the three failures apart.
   */
  lemma MessageIdentifiesError(e1: LoginError, e2: LoginError)
    ensures Message(e1) == Message(e2) <==> e1 == e2
  {
  }

  /**
   * The catch block re-throws `new Error(error)`, whose message is the caught
   * error converted to a string.
   */
  function ClientMessage(e: LoginError): string
  {
    "Error: " + Message(e)
  }

  /** The re-wrapped text the client displays still tells the failures apart. */
  lemma ClientMessageIdentifiesError(e1: LoginError, e2: LoginError)
    ensures ClientMessage(e1) == ClientMessage(e2) <==> e1 == e2
  {
  }

  /** The persisted collection and the source of fresh object ids. */
  datatype State = State(accounts: map<string, Account>, nextId: nat)

  predicate WellFormed(s: State)
  {
    StoreInvariant(s.accounts, s.nextId)
  }

  /** `bcrypt.compare(password, stored)`. */
  predicate Verify(hash: string -> string, password: string, passwordHash: string)
  {
    hash(password) == passwordHash
  }

  /**
   * `registerUser(email, password)`: hash the password, build the record
   * (counter at its default) and save it. Saving fails when a required path
   * is empty or the email is already taken, and then nothing is stored.
   */
  function RegisterStep(s: State, hash: string -> string, email: string, password: string)
    : (r: (Result<PublicUser, RegisterError>, State))
    ensures r.0.Success? <==> email != "" && hash(password) != "" && email !in s.accounts
    ensures r.0.Failure? ==> r.1 == s
    ensures email in s.accounts ==> r.0.Failure?
    ensures r.0.Success? ==>
      && r.0.value == PublicUser(s.nextId, email)
      && r.1.nextId > s.nextId
      && r.1.accounts.Keys == s.accounts.Keys + {email}
      && (forall e :: e in s.accounts ==> r.1.accounts[e] == s.accounts[e])
      && r.1.accounts[email].id == s.nextId
      && r.1.accounts[email].email == email
      && r.1.accounts[email].passwordHash == hash(password)
      && r.1.accounts[email].loginAttempts == 0
  {
    var user := Account(s.nextId, email, hash(password));
    var errors := ValidationErrors(user);
    if errors != {} then
      (Failure(Invalid(errors)), s)
    else if email in s.accounts then
      (Failure(DuplicateEmail), s)
    else
      (Success(PublicUser(user.id, user.email)), State(s.accounts[email := user], s.nextId + 1))
  }

  /**
   * `loginUser(email, password)`. A wrong password increments the counter;
   * if it reaches `MaxLoginAttempts` the lockout error is thrown BEFORE the
   * record is saved, so the store keeps the old count. A right password is
   * checked first, whatever the count, and resets it to 0.
   */
  function LoginStep(s: State, hash: string -> string, email: string, password: string)
    : (r: (Result<Token, LoginError>, State))
    // unknown email: nothing changes
    ensures email !in s.accounts ==> r == (Failure(UserNotFound), s)
    // nothing is added or removed, and only the matched account's counter can change
    ensures r.1.nextId == s.nextId
    ensures email in s.accounts ==>
      && email in r.1.accounts
      && r.1.accounts == s.accounts[email := s.accounts[email].(loginAttempts := r.1.accounts[email].loginAttempts)]
    // a token is issued exactly when the password matches
    ensures r.0.Success? <==> email in s.accounts && Verify(hash, password, s.accounts[email].passwordHash)
    ensures r.0.Success? ==>
      && r.0.value == Sign(Claims(s.accounts[email].id, s.accounts[email].email))
      && r.0.value.secret == TokenSecret
      && r.0.value.expiresIn == TokenLifetimeSeconds
      && r.1.accounts[email].loginAttempts == 0
    // wrong password below the limit: counted and persisted
    ensures email in s.accounts && !Verify(hash, password, s.accounts[email].passwordHash)
            && s.accounts[email].loginAttempts + 1 < MaxLoginAttempts ==>
      && r.0 == Failure(InvalidPassword)
      && r.1.accounts[email].loginAttempts == s.accounts[email].loginAttempts + 1
    // wrong password reaching the limit: locked, nothing persisted
    ensures email in s.accounts && !Verify(hash, password, s.accounts[email].passwordHash)
            && s.accounts[email].loginAttempts + 1 >= MaxLoginAttempts ==>
      r == (Failure(AccountLocked), s)
  {
    if email !in s.accounts then
      (Failure(UserNotFound), s)
    else
      var user := s.accounts[email];
      if !Verify(hash, password, user.passwordHash) then
        var counted := user.(loginAttempts := user.loginAttempts + 1);
        if counted.loginAttempts >= MaxLoginAttempts then
          (Failure(AccountLocked), s)
        else
          (Failure(InvalidPassword), s.(accounts := s.accounts[email := counted]))
      else
        var reset := user.(loginAttempts := 0);
        (Success(Sign(Claims(reset.id, reset.email))), s.(accounts := s.accounts[email := reset]))
  }

  lemma RegisterPreservesWellFormed(s: State, hash: string -> string, email: string, password: string)
    requires WellFormed(s)
    ensures WellFormed(RegisterStep(s, hash, email, password).1)
  {
  }

  lemma LoginPreservesWellFormed(s: State, hash: string -> string, email: string, password: string)
    requires WellFormed(s)
    ensures WellFormed(LoginStep(s, hash, email, password).1)
  {
  }

  /** Every stored counter lies in [0, MaxLoginAttempts - 1]. */
  predicate AttemptsBounded(s: State)
  {
    forall e :: e in s.accounts ==> 0 <= s.accounts[e].loginAttempts < MaxLoginAttempts
  }

  /** What holds of every store the service can produce from an empty one. */
  predicate Invariant(s: State)
  {
    WellFormed(s) && AttemptsBounded(s)
  }

  /** A new account starts at the default count of 0, inside the bound. */
  lemma RegisterKeepsAttemptsBounded(s: State, hash: string -> string, email: string, password: string)
    requires AttemptsBounded(s)
    ensures AttemptsBounded(RegisterStep(s, hash, email, password).1)
  {
  }

  /**
   * The only counter login stores is a reset to 0 or an increment that stays
   * below the limit; the increment that would reach it is never saved.
   */
  lemma LoginKeepsAttemptsBounded(s: State, hash: string -> string, email: string, password: string)
    requires AttemptsBounded(s)
    ensures AttemptsBounded(LoginStep(s, hash, email, password).1)
  {
  }

  /**
   * The account collection behind the resolvers, updated in place. The
   * hasher is fixed when the store is created.
   */
  class AccountStore {
    var accounts: map<string, Account>
    var nextId: nat
    const hash: string -> string

    function Snapshot(): State
      reads this
    {
      State(accounts, nextId)
    }

    ghost predicate Valid()
      reads this
    {
      Invariant(Snapshot())
    }

    constructor (hash: string -> string)
      ensures Valid() && this.hash == hash
      ensures accounts == map[] && nextId == 0
    {
      this.hash := hash;
      accounts := map[];
      nextId := 0;
    }

    /** `User.findOne({ email })`. */
    method Find(email: string) returns (user: Option<Account>)
      requires Valid()
      ensures user.Some? <==> email in accounts
      ensures user.Some? ==> user.value == accounts[email] && user.value.email == email
    {
      user := FindOne(accounts, email);
    }

    /** The `registerUser` resolver. */
    method Register(email: string, password: string) returns (r: Result<PublicUser, RegisterError>)
      requires Valid()
      modifies this
      ensures Valid()
      ensures (r, Snapshot()) == RegisterStep(old(Snapshot()), hash, email, password)
    {
      var hashedPassword := hash(password);
      var user := Account(nextId, email, hashedPassword);
      var errors := ValidationErrors(user);
      if errors != {} {
        return Failure(Invalid(errors));
      }
      if email in accounts {
        return Failure(DuplicateEmail);
      }
      accounts := accounts[email := user];
      nextId := nextId + 1;
      r := Success(PublicUser(user.id, user.email));
      RegisterPreservesWellFormed(old(Snapshot()), hash, email, password);
      RegisterKeepsAttemptsBounded(old(Snapshot()), hash, email, password);
    }

    /** The `loginUser` resolver. */
    method Login(email: string, password: string) returns (r: Result<Token, LoginError>)
      requires Valid()
      modifies this
      ensures Valid()
      ensures (r, Snapshot()) == LoginStep(old(Snapshot()), hash, email, password)
    {
      ghost var expected := LoginStep(Snapshot(), hash, email, password);
      LoginPreservesWellFormed(Snapshot(), hash, email, password);
      LoginKeepsAttemptsBounded(Snapshot(), hash, email, password);
      var found := Find(email);
      if found.None? {
        return Failure(UserNotFound);
      }
      var user := found.value;
      var passwordMatch := Verify(hash, password, user.passwordHash);
      if !passwordMatch {
        user := user.(loginAttempts := user.loginAttempts + 1);
        if user.loginAttempts >= MaxLoginAttempts {
          return Failure(AccountLocked);
        }
        accounts := accounts[email := user];
        assert expected.1.accounts == accounts;
        return Failure(InvalidPassword);
      }
      user := user.(loginAttempts := 0);
      accounts := accounts[email := user];
      assert expected.1.accounts == accounts;
      r := Success(Sign(Claims(user.id, user.email)));
    }
  }
}
