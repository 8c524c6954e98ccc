/**
 * Properties of the account service over whole sequences of resolver calls:
 * what the store keeps across any run, how the attempt counter behaves, and
 * the lockout sequence as the login resolver actually plays it out.
 */
module ServerProperties {
  import opened Wrappers
  import opened UserSchema
  import opened Server

  /** One mutation received by the API. */
  datatype Request =
    | RegisterUser(email: string, password: string)
    | LoginUser(email: string, password: string)

  datatype Response =
    | Registered(registration: Result<PublicUser, RegisterError>)
    | LoggedIn(login: Result<Token, LoginError>)

  /** Dispatch one request to its resolver. */
  function Serve(s: State, hash: string -> string, req: Request): (State, Response)
  {
    match req
    case RegisterUser(email, password) =>
      var (r, s') := RegisterStep(s, hash, email, password);
      (s', Registered(r))
    case LoginUser(email, password) =>
      var (r, s') := LoginStep(s, hash, email, password);
      (s', LoggedIn(r))
  }

  /** Serve the requests one after another, one response per request. */
  function Run(s: State, hash: string -> string, reqs: seq<Request>): (r: (State, seq<Response>))
    ensures |r.1| == |reqs|
    decreases |reqs|
  {
    if reqs == [] then
      (s, [])
    else
      var (s', resp) := Serve(s, hash, reqs[0]);
      var (s'', rest) := Run(s', hash, reqs[1..]);
      (s'', [resp] + rest)
  }

  lemma RunCons(s: State, hash: string -> string, reqs: seq<Request>)
    requires reqs != []
    ensures var (s', resp) := Serve(s, hash, reqs[0]);
      Run(s, hash, reqs) == (Run(s', hash, reqs[1..]).0, [resp] + Run(s', hash, reqs[1..]).1)
  {
  }

  /**
   * No run removes an account, and an existing account keeps its id, email
   * and hash: only its attempt counter can change.
   */
  lemma {:induction false} RunKeepsAccounts(s: State, hash: string -> string, reqs: seq<Request>)
    ensures var s' := Run(s, hash, reqs).0;
      && s.accounts.Keys <= s'.accounts.Keys
      && forall e :: e in s.accounts ==>
           s'.accounts[e] == s.accounts[e].(loginAttempts := s'.accounts[e].loginAttempts)
    decreases |reqs|
  {
    if reqs != [] {
      RunKeepsAccounts(Serve(s, hash, reqs[0]).0, hash, reqs[1..]);
    }
  }

  lemma EmptyStoreInvariant()
    ensures Invariant(State(map[], 0))
  {
  }

  lemma ServePreservesInvariant(s: State, hash: string -> string, req: Request)
    requires Invariant(s)
    ensures Invariant(Serve(s, hash, req).0)
  {
    match req
    case RegisterUser(email, password) =>
      RegisterPreservesWellFormed(s, hash, email, password);
      RegisterKeepsAttemptsBounded(s, hash, email, password);
    case LoginUser(email, password) =>
      LoginPreservesWellFormed(s, hash, email, password);
      LoginKeepsAttemptsBounded(s, hash, email, password);
  }

  /**
   * Starting from counters at their default, the persisted counter never
   * leaves [0, 4] whatever requests arrive: the attempt that would store 5
   * throws before saving.
   */
  lemma {:induction false} RunPreservesInvariant(s: State, hash: string -> string, reqs: seq<Request>)
    requires Invariant(s)
    ensures Invariant(Run(s, hash, reqs).0)
    decreases |reqs|
  {
    if reqs != [] {
      ServePreservesInvariant(s, hash, reqs[0]);
      RunPreservesInvariant(Serve(s, hash, reqs[0]).0, hash, reqs[1..]);
    }
  }

  /**
   * On a bounded store the lockout error is reported exactly when the
   * password is wrong and the stored counter is already at 4.
   */
  lemma LockedExactlyAtLastAttempt(s: State, hash: string -> string, email: string, password: string)
    requires AttemptsBounded(s)
    ensures LoginStep(s, hash, email, password).0 == Failure(AccountLocked) <==>
      && email in s.accounts
      && !Verify(hash, password, s.accounts[email].passwordHash)
      && s.accounts[email].loginAttempts == MaxLoginAttempts - 1
  {
  }

  /**
   * Registering an email twice: the second call fails and the one record for
   * the email is the first registration's.
   */
  lemma SecondRegistrationRejected(s: State, hash: string -> string, email: string, first: string, second: string)
    requires RegisterStep(s, hash, email, first).0.Success?
    ensures var (s', resps) := Run(s, hash, [RegisterUser(email, first), RegisterUser(email, second)]);
      && resps[1].Registered? && resps[1].registration.Failure?
      && s' == RegisterStep(s, hash, email, first).1
      && s'.accounts[email].passwordHash == hash(first)
  {
    var reqs := [RegisterUser(email, first), RegisterUser(email, second)];
    RunCons(s, hash, reqs);
    RunCons(RegisterStep(s, hash, email, first).1, hash, reqs[1..]);
  }

  /** `s` with the counter of the account under `email` set to `n`. */
  function WithAttempts(s: State, email: string, n: int): (r: State)
    requires email in s.accounts
    ensures r.accounts.Keys == s.accounts.Keys && r.accounts[email].loginAttempts == n
  {
    s.(accounts := s.accounts[email := s.accounts[email].(loginAttempts := n)])
  }

  /** Serving `a + b` is serving `a`, then `b` from where `a` left the store. */
  lemma {:induction false} RunAppend(s: State, hash: string -> string, a: seq<Request>, b: seq<Request>)
    ensures Run(s, hash, a + b).0 == Run(Run(s, hash, a).0, hash, b).0
    ensures Run(s, hash, a + b).1 == Run(s, hash, a).1 + Run(Run(s, hash, a).0, hash, b).1
    decreases |a|
  {
    if a == [] {
      assert a + b == b;
      assert Run(s, hash, a) == (s, []);
      assert [] + Run(s, hash, b).1 == Run(s, hash, b).1;
    } else {
      var (s1, r0) := Serve(s, hash, a[0]);
      var (s2, r1) := Run(s1, hash, a[1..]);
      var rb := Run(s2, hash, b).1;
      assert Run(s, hash, a) == (s2, [r0] + r1) by {
        RunCons(s, hash, a);
      }
      assert Run(s, hash, a + b) == (Run(s2, hash, b).0, [r0] + (r1 + rb)) by {
        assert (a + b)[0] == a[0] && (a + b)[1..] == a[1..] + b;
        RunCons(s, hash, a + b);
        RunAppend(s1, hash, a[1..], b);
      }
      assert [r0] + (r1 + rb) == ([r0] + r1) + rb;
    }
  }

  lemma WrongPasswordFrom(s: State, hash: string -> string, email: string, bad: string, n: int)
    requires email in s.accounts && !Verify(hash, bad, s.accounts[email].passwordHash)
    requires n + 1 < MaxLoginAttempts
    ensures Serve(WithAttempts(s, email, n), hash, LoginUser(email, bad))
            == (WithAttempts(s, email, n + 1), LoggedIn(Failure(InvalidPassword)))
  {
    var user := s.accounts[email].(loginAttempts := n + 1);
    assert WithAttempts(s, email, n).accounts[email := user] == WithAttempts(s, email, n + 1).accounts;
  }

  /**
   * `k` wrong passwords in a row from a stored count of `n`, staying below the
   * limit: each is reported as "Invalid password" and each is counted, so the
   * stored count ends at `n + k`.
   */
  lemma {:induction false} WrongPasswordsCounted(s: State, hash: string -> string, email: string, bad: string, n: int, k: nat)
    requires email in s.accounts && !Verify(hash, bad, s.accounts[email].passwordHash)
    requires n + k < MaxLoginAttempts
    ensures Run(WithAttempts(s, email, n), hash, seq(k, _ => LoginUser(email, bad)))
            == (WithAttempts(s, email, n + k), seq(k, _ => LoggedIn(Failure(InvalidPassword))))
    decreases k
  {
    var w, resp := LoginUser(email, bad), LoggedIn(Failure(InvalidPassword));
    var reqs, resps := seq(k, _ => w), seq(k, _ => resp);
    if k == 0 {
      assert WithAttempts(s, email, n).accounts == WithAttempts(s, email, n + k).accounts;
    } else {
      var tail, tailResps := seq(k - 1, _ => w), seq(k - 1, _ => resp);
      var s1 := WithAttempts(s, email, n + 1);
      assert Run(WithAttempts(s, email, n), hash, reqs) == (Run(s1, hash, tail).0, [resp] + Run(s1, hash, tail).1) by {
        assert reqs[0] == w && reqs[1..] == tail;
        RunCons(WithAttempts(s, email, n), hash, reqs);
        WrongPasswordFrom(s, hash, email, bad, n);
      }
      assert resps == [resp] + tailResps;
      WrongPasswordsCounted(s, hash, email, bad, n + 1, k - 1);
    }
  }

  /**
   * Once the stored count is one short of the limit, every further wrong
   * password is reported as a lockout and changes nothing in the store.
   */
  lemma {:induction false} WrongPasswordsLocked(s: State, hash: string -> string, email: string, bad: string, k: nat)
    requires email in s.accounts && !Verify(hash, bad, s.accounts[email].passwordHash)
    requires s.accounts[email].loginAttempts + 1 >= MaxLoginAttempts
    ensures Run(s, hash, seq(k, _ => LoginUser(email, bad))) == (s, seq(k, _ => LoggedIn(Failure(AccountLocked))))
    decreases k
  {
    var reqs := seq(k, _ => LoginUser(email, bad));
    if k > 0 {
      RunCons(s, hash, reqs);
      assert reqs[1..] == seq(k - 1, _ => LoginUser(email, bad));
      WrongPasswordsLocked(s, hash, email, bad, k - 1);
      assert seq(k, _ => LoggedIn(Failure(AccountLocked)))
          == [LoggedIn(Failure(AccountLocked))] + seq(k - 1, _ => LoggedIn(Failure(AccountLocked)));
    }
  }

  /**
   * Five wrong passwords in a row on a fresh account, a sixth, then the right
   * one: four "Invalid password" errors, two lockout errors, then a token. The
   * stored counter never goes past 4 and ends at 0, so the store ends as it
   * began: the lockout does not outlast a correct password.
   */
  lemma {:induction false} LockoutSequence(s: State, hash: string -> string, email: string, good: string, bad: string)
    requires email in s.accounts && s.accounts[email].loginAttempts == 0
    requires Verify(hash, good, s.accounts[email].passwordHash)
    requires !Verify(hash, bad, s.accounts[email].passwordHash)
    ensures var w, user := LoginUser(email, bad), s.accounts[email];
      var (s', resps) := Run(s, hash, [w, w, w, w, w, w, LoginUser(email, good)]);
      && resps == [LoggedIn(Failure(InvalidPassword)), LoggedIn(Failure(InvalidPassword)),
                   LoggedIn(Failure(InvalidPassword)), LoggedIn(Failure(InvalidPassword)),
                   LoggedIn(Failure(AccountLocked)), LoggedIn(Failure(AccountLocked)),
                   LoggedIn(Success(Sign(Claims(user.id, user.email))))]
      && s' == s
  {
    var w, user := LoginUser(email, bad), s.accounts[email];
    var good1 := [LoginUser(email, good)];
    var wrong4, wrong2 := seq(4, _ => w), seq(2, _ => w);
    var s4 := WithAttempts(s, email, 4);
    var token := LoggedIn(Success(Sign(Claims(user.id, user.email))));
    var locked := seq(2, _ => LoggedIn(Failure(AccountLocked)));
    assert Run(s, hash, wrong4) == (s4, seq(4, _ => LoggedIn(Failure(InvalidPassword)))) by {
      assert WithAttempts(s, email, 0) == s;
      WrongPasswordsCounted(s, hash, email, bad, 0, 4);
    }
    assert Run(s4, hash, good1) == (s, [token]) by {
      assert Serve(s4, hash, good1[0]) == (s, token) by {
        assert s4.accounts[email := user.(loginAttempts := 0)] == s.accounts;
      }
      RunCons(s4, hash, good1);
      assert Run(s, hash, good1[1..]) == (s, []);
      assert [token] + [] == [token];
    }
    assert Run(s4, hash, wrong2 + good1) == (s, locked + [token]) by {
      WrongPasswordsLocked(s4, hash, email, bad, 2);
      RunAppend(s4, hash, wrong2, good1);
    }
    RunAppend(s, hash, wrong4, wrong2 + good1);
    assert [w, w, w, w, w, w, LoginUser(email, good)] == wrong4 + (wrong2 + good1);
  }
}
