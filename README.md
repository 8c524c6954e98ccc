# Account service of the auth server, modelled in Dafny

The server of this repository exposes two GraphQL mutations over one MongoDB
collection of accounts: `registerUser` hashes a password and stores a new
account; `loginUser` checks a password against the stored hash, keeps a
per-account counter of failed attempts, reports a lockout once that counter
would reach 5, and otherwise signs a one-hour token with the claims
`{ userId, email }`.

The model has three modules:

- `UserSchema` (`user_schema.dfy`): the `Account` record of
  `server/userSchema.js`, its `required` paths as document validation, the
  unique email as the key of the collection, the default counter of 0 (a
  constructor default of the datatype), the store invariant, and the
  `findOne({ email })` query.
- `Server` (`server.dfy`): the two resolvers as pure step functions over a
  `State` (the collection plus a source of fresh object ids), each with a
  contract stating every outcome and what the step does to the store, and
  the class `AccountStore` whose `Register` and `Login` methods update the
  collection in place, are proved equal to those step functions and keep
  the store invariant: the schema invariant plus every counter in [0, 4].
- `ServerProperties` (`server_properties.dfy`): any sequence of requests
  (`Run`), the store invariant kept across all of them, what repeated wrong
  passwords do, and the full lockout sequence.

The password hasher is a parameter `hash: string -> string` standing for
`bcrypt.hash(password, 10)` with its salt fixed; `bcrypt.compare` is `hash(password) == stored`.
A signed token is a value carrying its claims, the literal signing key
`"secret"` and its lifetime of 3600 seconds. Each resolver call is one atomic
step.

Behaviour the model follows as the code has it:

- The lockout is never stored. A wrong password increments the in-memory
  counter, and when that reaches 5 the lockout error is thrown before
  `user.save()` (server/server.js:88-94), so the stored counter stops at 4.
  The password is checked before any lockout test, so the right password
  always succeeds and resets the counter to 0, however many failures came
  before (`LockoutSequence`, `LockedExactlyAtLastAttempt`).
- `required: true` on a String path rejects the empty string, so
  registration fails for an empty email. The password itself may be empty:
  only its hash must be non-empty.
- The generated object id is a natural number drawn from a counter; ids are
  distinct and below the counter.

## Model

| member | source | states |
|---|---|---|
| `UserSchema.ValidationErrors` | server/userSchema.js:4-5 | a record fails validation exactly when its email or its password hash is empty, with one error per empty required path |
| `UserSchema.FindOne` | server/server.js:74 | the query finds a record exactly when some record's email field equals the query, and then it is that record |
| `Server.RegisterStep` | server/server.js:51-62 | registration succeeds iff the email is non-empty, the hash is non-empty and the email is not taken; on success it adds exactly one record, with the hash (not the password), counter 0 and a fresh id, keeps every other record and returns only id and email; on failure the store is unchanged |
| `Server.LoginStep` | server/server.js:71-111 | unknown email: "User not found", store unchanged; a token iff the password matches, signed with the key "secret" over the claims `{ userId, email }` of that account, 1h lifetime and counter reset to 0 whatever it was; wrong password below the limit: "Invalid password" and the counter stored one higher; wrong password reaching 5: lockout error and the store unchanged; nothing added or removed and no field but the matched counter changed |
| `Server.MessageIdentifiesError` | server/server.js:79-95 | the three texts thrown for "User not found", "Invalid password" and the lockout are pairwise different, so the text alone tells a client which failure occurred |
| `Server.ClientMessageIdentifiesError` | server/server.js:106-110 | after the catch block re-wraps a failure as `new Error(error)`, the text the client receives still differs for each of the three failures |
| `Server.RegisterKeepsAttemptsBounded` | server/userSchema.js:6 | registration keeps every stored counter in [0, 4]: the new account starts at the default 0 |
| `Server.LoginKeepsAttemptsBounded` | server/server.js:86-100 | login keeps every stored counter in [0, 4]: it stores only a reset to 0 or an increment below 5, the increment reaching 5 being thrown before the save |
| `Server.RegisterPreservesWellFormed` | server/userSchema.js:3-7 | registration keeps emails unique, required fields non-empty, counters non-negative and ids distinct |
| `Server.LoginPreservesWellFormed` | server/server.js:86-100 | login keeps the store invariant of the schema |
| `Server.AccountStore.constructor` | server/userSchema.js:9 | a new collection is empty and satisfies the store invariant, counters bounded included |
| `Server.AccountStore.Find` | server/server.js:74 | finds a record iff one is stored under the email, and it is that record, with that email |
| `Server.AccountStore.Register` | server/server.js:51-62 | the in-place resolver returns what `RegisterStep` returns and leaves the collection `RegisterStep` gives, keeping the schema invariant and every counter in [0, 4] |
| `Server.AccountStore.Login` | server/server.js:71-111 | the in-place resolver returns what `LoginStep` returns and leaves the collection `LoginStep` gives, keeping the schema invariant and every counter in [0, 4] |
| `ServerProperties.Run` | server/server.js:41-114 | serving a sequence of mutations gives one response per request |
| `ServerProperties.RunKeepsAccounts` | server/server.js:51-100 | across any sequence of requests no account is removed and an account's id, email and hash never change |
| `ServerProperties.EmptyStoreInvariant` | server/userSchema.js:3-7 | the empty collection satisfies the invariant, so every store built by the service does |
| `ServerProperties.ServePreservesInvariant` | server/server.js:51-100 | one request of either kind keeps the schema invariant and every counter in [0, 4] |
| `ServerProperties.RunPreservesInvariant` | server/server.js:86-99 | from such a store, any sequence of registrations and logins keeps the schema invariant and every stored counter in [0, 4] |
| `ServerProperties.LockedExactlyAtLastAttempt` | server/server.js:86-92 | on a reachable store the lockout error is reported exactly when the password is wrong and the stored counter is 4 |
| `ServerProperties.SecondRegistrationRejected` | server/server.js:55-56 | registering a taken email fails whatever the password, and the one record for it stays the first registration's |
| `ServerProperties.WrongPasswordFrom` | server/server.js:86-95 | a wrong password below the limit answers "Invalid password" and stores the counter one higher, nothing else |
| `ServerProperties.WrongPasswordsCounted` | server/server.js:86-95 | k wrong passwords from a stored count n with n + k < 5 each answer "Invalid password" and leave the count at n + k |
| `ServerProperties.WrongPasswordsLocked` | server/server.js:88-92 | once the stored count is 4, any number of wrong passwords each answer with the lockout error and change nothing |
| `ServerProperties.LockoutSequence` | server/server.js:83-105 | on a fresh account, six wrong passwords then the right one answer four "Invalid password", two lockouts, then a token, and the store ends as it began |

## Left out

- Express, CORS, the GraphQL schema objects and the listening port (server/server.js:1-38, 116-135): transport wiring with no behaviour of the service.
- The MongoDB connection and driver (server/server.js:16): replaced by an in-memory map; every resolver call is one atomic step, so the read-modify-write race on `loginAttempts` between concurrent logins is not modelled.
- Store and driver failures, and so the generic failure the login catch block would re-throw for them: the in-memory store never fails.
- bcrypt's random salt is not modelled: `hash` is one fixed function that includes the cost factor 10, so equal passwords give equal stored hashes, and `bcrypt.compare` becomes equality with `hash(password)`; the model does not assume the hash differs from the password.
- jwt internals: the issue time, the encoding and signature checking, and expiry checking are not modelled; the token is its claims, key and lifetime.
- Exact registration error messages: the unawaited `user.save()` at server/server.js:56 lets store rejections bypass the "Registration failed" message; the model only says registration fails and why.
- The `user(id)` query (server/server.js:32-36): a plain lookup by id.
- Logging through `console.error` and `console.log`.
- All client code under client/src: React pages, routing, the Apollo link and token storage in the browser.
- `Server.Message` (the texts thrown at server/server.js:79, 91 and 95) and `Server.ClientMessage` (the `throw new Error(error)` re-wrap of server/server.js:109) carry no contract of their own: they only spell the message text a client receives; `Server.MessageIdentifiesError` and `Server.ClientMessageIdentifiesError` state that the texts are distinct.
- `Server.Sign` (the `jwt.sign` call of server/server.js:103) carries no contract of its own: it only builds the token value, and `Server.LoginStep` states which token a successful login returns.
