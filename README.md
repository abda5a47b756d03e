# Anonymous session management of the Gini Android SDK, in Dafny

This project models `AnonymousSessionManager`, the part of the Gini SDK that
gets API sessions for anonymous users. It caches the last session. It
coalesces concurrent `getSession()` requests so that only one `getSession()`
acquisition is ever in flight; a direct call of the public `loginUser()` is
not coalesced and can start a second login beside it. It creates a user,
with randomly generated credentials, when the credentials store is empty.

The model has four modules:

- `Types` (`types.dfy`): sessions, credentials, users, service errors, and
  `Outcome`, the three ways a bolts task can settle (result, error,
  cancellation).
- `SessionCache` (`session_cache.dfy`): the state machine over
  `mCurrentSession` and `mCurrentSessionTask`. It is pure. One step is the
  synchronized block of `getSession()` (`Get`). Another step is the
  continuation that settles the in-flight login (`Resolve`). `Run` folds a
  sequence of such events into a final state and one reply per event. The
  lemmas about `Run` state what holds for every interleaving of callers and
  settlements: at most one acquisition is outstanding, joins and resolutions
  name that acquisition, and the cache holds only the last successful
  session.
- `Login` (`login.dfy`): `loginUser()` and `createUser()` as pure functions.
  They take the content of the one-slot credentials store and give back what
  was sent to the identity service, the new store content and the outcome.
- `Manager` (`manager.dfy`): the class `AnonymousSessionManager`. Its fields
  are `currentSession`, `currentTask` and the store slot, plus a ghost field
  `pendingLogin` with the outcome of the login the pending acquisition
  started. Its methods do the check-then-set sequence in place. `GetSession`,
  `Settle`, `LoginUser` and `CreateUser` are each proved to perform exactly
  the pure step above; `SetSession` and `SetCurrentSessionTask` are the two
  setters. `Construct` models the constructor's null checks.

How collaborators are handled:

- The answers of the `UserCenterManager` are passed in per call, as a
  `Login.UserCenter` value. It holds two functions, from the credentials sent
  to the outcome of `createUser` and of `loginUser`.
- The random UUIDs are parameters (`usernameId`, `passwordId`).
- The new completion-source task of each `getSession()` call is a parameter
  (`newTask`).
- The clock reading is a parameter (`now`).

## Model

| member | source | states |
|---|---|---|
| `Manager.Construct` | ginisdk/src/main/java/net/gini/android/authorization/AnonymousSessionManager.java:41-46 | construction fails with a NullPointerException exactly when the e-mail domain, the UserCenterManager or the credentials store is null; otherwise the domain and store are kept |
| `Manager.AnonymousSessionManager.constructor` | ginisdk/src/main/java/net/gini/android/authorization/AnonymousSessionManager.java:41-46 | a new manager keeps the configured domain and store, has nothing cached, nothing in flight and no pending login |
| `Manager.AnonymousSessionManager.SetSession` | ginisdk/src/main/java/net/gini/android/authorization/AnonymousSessionManager.java:48-50 | afterwards the cached session is the given one; nothing else changes |
| `Manager.AnonymousSessionManager.SetCurrentSessionTask` | ginisdk/src/main/java/net/gini/android/authorization/AnonymousSessionManager.java:52-54 | afterwards the in-flight marker is the given task or cleared; nothing else changes |
| `Manager.AnonymousSessionManager.GetSession` | ginisdk/src/main/java/net/gini/android/authorization/AnonymousSessionManager.java:56-71 | the fields change and the reply is given as `SessionCache.Get` prescribes; a login (with its store update, as `Login.LoginUser` prescribes) runs exactly when a new acquisition starts, and its outcome becomes the pending login; otherwise the store and the pending login are untouched |
| `Manager.AnonymousSessionManager.Settle` | ginisdk/src/main/java/net/gini/android/authorization/AnonymousSessionManager.java:71-89 | it settles only with the outcome of the login the pending acquisition started; the fields change and the pending task is resolved with that outcome as `SessionCache.Resolve` prescribes; the pending login is cleared and the store is untouched |
| `Manager.AnonymousSessionManager.LoginUser` | ginisdk/src/main/java/net/gini/android/authorization/AnonymousSessionManager.java:101-119 | the store and the result are those of `Login.LoginUser` on the old store |
| `Manager.AnonymousSessionManager.CreateUser` | ginisdk/src/main/java/net/gini/android/authorization/AnonymousSessionManager.java:130-141 | the store and the result are those of `Login.CreateUser` on the old store |
| `SessionCache.Get` | ginisdk/src/main/java/net/gini/android/authorization/AnonymousSessionManager.java:58-69 | a valid (present, unexpired) cached session is returned itself; otherwise an in-flight task is returned itself; otherwise the new task is registered and reported started; the cache is never changed, and the marker only when a task is started |
| `SessionCache.Resolve` | ginisdk/src/main/java/net/gini/android/authorization/AnonymousSessionManager.java:71-89 | settling clears the in-flight marker; it caches the session on success and leaves the cache as it was on an error or a cancellation; the pending task is resolved with the login's own outcome |
| `SessionCache.Step` | ginisdk/src/main/java/net/gini/android/authorization/AnonymousSessionManager.java:61-89 | a step is impossible exactly when a settlement arrives with nothing in flight |
| `SessionCache.Run` | ginisdk/src/main/java/net/gini/android/authorization/AnonymousSessionManager.java:56-92 | a run of events gives one reply per event |
| `SessionCache.RunKeepsOneInFlight` | ginisdk/src/main/java/net/gini/android/authorization/AnonymousSessionManager.java:61-69 | from a manager with nothing in flight, on every run the marker is the last started, unresolved acquisition; every join and every resolution names that acquisition; a new one starts only when none is pending |
| `SessionCache.OneAcquisitionOutstanding` | ginisdk/src/main/java/net/gini/android/authorization/AnonymousSessionManager.java:65-83 | on every run the number of acquisitions started is the number resolved, plus one while one is in flight |
| `SessionCache.CacheHoldsLastSuccess` | ginisdk/src/main/java/net/gini/android/authorization/AnonymousSessionManager.java:74-84 | on every run the cached session is the one of the last successful settlement, or the initial one if there was none |
| `SessionCache.CachedRepliesAreValid` | ginisdk/src/main/java/net/gini/android/authorization/AnonymousSessionManager.java:61-64 | every cached reply answers a getSession call, is the last successfully acquired session, and had not expired at that call |
| `SessionCache.UnexpiredSessionIsReused` | ginisdk/src/androidTest/java/net/gini/android/authorization/AnonymousSessionManagerTests.java:135-149 | after one acquisition, a call made while its session is valid gets that same session and starts nothing |
| `SessionCache.ExpiredSessionIsReplaced` | ginisdk/src/androidTest/java/net/gini/android/authorization/AnonymousSessionManagerTests.java:152-169 | after one acquisition whose session has expired, the next call starts a new acquisition, and its session replaces the cache |
| `SessionCache.ConcurrentCallersShareOneAcquisition` | ginisdk/src/main/java/net/gini/android/authorization/AnonymousSessionManager.java:65-68 | three calls on a fresh manager start one acquisition; the two later calls join it; its one outcome resolves it |
| `Login.NewCredentials` | ginisdk/src/main/java/net/gini/android/authorization/AnonymousSessionManager.java:131-133 | a generated user name is exactly the random id, then "@", then the e-mail domain (it starts with the id, ends with "@" + domain, and has just their combined length); the password is the second random id |
| `Login.GeneratedUsernameDomain` | ginisdk/src/main/java/net/gini/android/authorization/AnonymousSessionManager.java:131 | when the random id holds no '@', the text after the first '@' of the generated user name is exactly the configured e-mail domain |
| `Login.CreateUser` | ginisdk/src/main/java/net/gini/android/authorization/AnonymousSessionManager.java:130-141 | the new credentials are sent to createUser; they are written to the store (overwriting it) exactly when creation succeeds, and then returned; otherwise the store is kept and the same error or cancellation is returned |
| `Login.LoginUser` | ginisdk/src/main/java/net/gini/android/authorization/AnonymousSessionManager.java:101-119 | with stored credentials: login with exactly those, no user created, store not written. With an empty store: a user is created with a name ending in "@" + domain; on success those credentials are stored and then used to log in; on failure nothing is stored, no login happens, and the creation's error or cancellation is the result. Invariants: creation happens exactly when the store is empty, the credentials used to log in are the stored ones, and the store changes only from empty to the created credentials |
| `Login.LaterLoginsReuseStoredCredentials` | ginisdk/src/main/java/net/gini/android/authorization/AnonymousSessionManager.java:105-117 | once a flow has stored credentials, a later flow logs in with them and creates no user, whatever ids it draws and whatever the identity service answers |

## Left out

- Invalid-grant recovery is not modelled. That is: delete the stored
  credentials, create a new user and retry the login once. The tests at
  `AnonymousSessionManagerTests.java:187-220` expect it, but
  `AnonymousSessionManager.java` has no such code.
  The model follows the code: a failed login is passed on as it is.
- E-mail-domain migration in `loginUser()` and `hasUserCredentialsEmailDomain`
  are not modelled, for the same reason. The tests expect them at
  `AnonymousSessionManagerTests.java:222-261`, but the code does not have
  them.
- `SessionCache.Resolve`: the source caches the session and clears the
  marker in two separate synchronized calls (lines 82-83), and resolves the
  pending task afterwards, outside any lock (lines 76, 79 and 84, after the
  marker is cleared at lines 75, 78 and 83). The model does all of this in
  one atomic step, placing each `getSession()` call either before or after
  it. Two source interleavings are therefore not covered. A call between
  lines 82 and 83 that finds the new session already expired joins the old
  task in the source; the model has it either join before the step or start
  a new acquisition after it. A call between the clearing of the marker and
  the resolution of the old task registers a new acquisition while the old
  task's callers are still unresolved; in the model, and so in
  `SessionCache.OneAcquisitionOutstanding`, the old task counts as resolved
  before the new one starts.
- `Manager.AnonymousSessionManager.GetSession`: the login's store write and
  its outcome are fixed when the login starts, because the collaborators'
  answers are inputs. In the source the store is written later, when the
  `createUser` task completes. The model does not cover a direct
  `loginUser()` call interleaved with an acquisition. Such a call is not
  guarded by `mCurrentSessionTask` (line 101), so with an empty store both
  logins can create a user, and the later one overwrites the store.
- Threads, the bolts `Task`/`Continuation` runtime and the completion source
  are left out. Each is modelled as a task identifier and atomic steps. The
  `Task.forResult` wrapper of a cache hit is the `Cached` reply.
- `Session.java` is not part of this model. `Types.HasExpired` treats a
  session as expired once the clock reaches its expiry time. The exact
  boundary used by `Session.hasExpired()` is not known here.
- `UserCenterManager` and `CredentialsStore` are not part of this model.
  Their network and persistence work is replaced by answers passed in per
  call and a single store slot. `deleteUserCredentials` is never called by
  the modelled code.
- `UUID.randomUUID()` is left out: the random ids are parameters, and their
  uniqueness is not modelled.
- Exceptions thrown inside continuations, such as a failing
  `storeUserCredentials`, are not modelled. Neither is a login task that
  resolves to null.
- A synchronous throw from `loginUser()` is not modelled: the collaborators
  in the model cannot throw. In the source, `getUserCredentials()` (line 105)
  or `createUser(...)` (line 134) can throw after line 68 has set
  `mCurrentSessionTask`. The marker is then never cleared, and every later
  `getSession()` call joins a task that never settles.
- `ApiCommunicator.java` and `RequestQueueBuilder.java` are not part of this
  model: they build HTTP requests and platform wiring. The tests of
  documents, boxes, request headers and `UserCenterManager` are about
  classes whose sources are not part of this model.
