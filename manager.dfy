/**
 * AnonymousSessionManager itself: its mutable fields, the check-then-set of
 * getSession() under the lock, the settle continuation, and the two login
 * methods, each proved against the pure step it performs.
 */
module Manager {
  import opened Types
  import SessionCache
  import Login

  /** The exception checkNotNull throws. */
  datatype ConstructionError = NullPointerException

  datatype Result<+T> = Ok(value: T) | Err(error: ConstructionError)

  /** The credentials store collaborator: one slot that may hold credentials. */
  datatype CredentialsStore = CredentialsStore(stored: Option<Credentials>)

  /** What a successfully constructed manager is configured with. */
  datatype Config = Config(emailDomain: string, store: CredentialsStore)

  /**
   * The constructor's null checks: construction fails with a
   * NullPointerException when the e-mail domain, the UserCenterManager or
   * the credentials store is null, and otherwise keeps them.
   */
  function Construct<U>(emailDomain: Option<string>, userCenterManager: Option<U>, credentialsStore: Option<CredentialsStore>): (r: Result<Config>)
    ensures r.Ok? <==> emailDomain.Some? && userCenterManager.Some? && credentialsStore.Some?
    ensures r.Err? ==> r.error == NullPointerException
    ensures r.Ok? ==> r.value.emailDomain == emailDomain.value && r.value.store == credentialsStore.value
  {
    if emailDomain.None? then Err(NullPointerException)
    else if userCenterManager.None? then Err(NullPointerException)
    else if credentialsStore.None? then Err(NullPointerException)
    else Ok(Config(emailDomain.value, credentialsStore.value))
  }

  class AnonymousSessionManager {
    /** The e-mail domain of created users. */
    const emailDomain: string
    /** mCurrentSession: the last session acquired, possibly expired. */
    var currentSession: Option<Session>
    /** mCurrentSessionTask: the task of the acquisition in flight. */
    var currentTask: Option<TaskId>
    /** The slot of the credentials store. */
    var store: Option<Credentials>
    /**
     * The outcome of the login the pending acquisition started: the result
     * of the task its continuation is attached to.
     */
    ghost var pendingLogin: Option<Outcome<Session>>

    /** The two fields the lock guards, as a state of the session cache. */
    function Snapshot(): SessionCache.State
      reads this
    {
      SessionCache.State(currentSession, currentTask)
    }

    constructor (config: Config)
      ensures emailDomain == config.emailDomain && store == config.store.stored
      ensures Snapshot() == SessionCache.Initial
      ensures pendingLogin == None
    {
      emailDomain := config.emailDomain;
      store := config.store.stored;
      currentSession := None;
      currentTask := None;
      pendingLogin := None;
    }

    method SetSession(session: Session)
      modifies this`currentSession
      ensures currentSession == Some(session)
    {
      currentSession := Some(session);
    }

    method SetCurrentSessionTask(task: Option<TaskId>)
      modifies this`currentTask
      ensures currentTask == task
    {
      currentTask := task;
    }

    /**
     * getSession(): the synchronized block, then, on a miss with nothing in
     * flight, the login it starts. `newTask` is the task of the completion
     * source created for this call; `login` is the outcome that login will
     * settle with, handed to Settle when it settles.
     */
    method GetSession(now: Time, newTask: TaskId, usernameId: string, passwordId: string, uc: Login.UserCenter)
      returns (reply: SessionCache.Reply, login: Option<Outcome<Session>>)
      modifies this
      ensures (Snapshot(), reply) == SessionCache.Get(old(Snapshot()), now, newTask)
      ensures reply.Started? ==>
        var run := Login.LoginUser(old(store), emailDomain, usernameId, passwordId, uc);
        login == Some(run.outcome) && store == run.store
      ensures !reply.Started? ==> login == None && store == old(store)
      ensures pendingLogin == if reply.Started? then login else old(pendingLogin)
    {
      // synchronized (this)
      if currentSession.Some? && !HasExpired(currentSession.value, now) {
        return SessionCache.Cached(currentSession.value), None;
      }
      if currentTask.Some? {
        return SessionCache.Joined(currentTask.value), None;
      }
      currentTask := Some(newTask);
      // the pending task is registered before the login starts, outside the lock
      var outcome := LoginUser(usernameId, passwordId, uc);
      reply, login := SessionCache.Started(newTask), Some(outcome);
      pendingLogin := login;
    }

    /**
     * The continuation of getSession(): clears the in-flight marker, caches
     * the session on success only, and resolves the pending task with the
     * login's outcome. It runs on the task of the login GetSession started,
     * so `loginResult` is that login's outcome.
     */
    method Settle(loginResult: Outcome<Session>) returns (resolved: SessionCache.Reply)
      requires currentTask.Some?
      requires pendingLogin == Some(loginResult)
      modifies this`currentSession, this`currentTask, this`pendingLogin
      ensures (Snapshot(), resolved) == SessionCache.Resolve(old(Snapshot()), loginResult)
      ensures pendingLogin == None
    {
      var task := currentTask.value;
      match loginResult {
        case Faulted(_) =>
          SetCurrentSessionTask(None);
        case Cancelled =>
          SetCurrentSessionTask(None);
        case Success(session) =>
          SetSession(session);
          SetCurrentSessionTask(None);
      }
      resolved := SessionCache.Resolved(task, loginResult);
      pendingLogin := None;
    }

    /** loginUser(): the stored credentials, or a new user's, then the login. */
    method LoginUser(usernameId: string, passwordId: string, uc: Login.UserCenter) returns (result: Outcome<Session>)
      modifies this`store
      ensures var run := Login.LoginUser(old(store), emailDomain, usernameId, passwordId, uc);
              store == run.store && result == run.outcome
    {
      var credentials: Outcome<Credentials>;
      if store.Some? {
        credentials := Success(store.value);
      } else {
        credentials := CreateUser(usernameId, passwordId, uc);
      }
      match credentials {
        case Success(c) => result := uc.loginUser(c);
        case Faulted(e) => result := Faulted(e);
        case Cancelled => result := Cancelled;
      }
    }

    /** createUser(): new credentials, stored once the user has been created. */
    method CreateUser(usernameId: string, passwordId: string, uc: Login.UserCenter) returns (result: Outcome<Credentials>)
      modifies this`store
      ensures var run := Login.CreateUser(old(store), emailDomain, usernameId, passwordId, uc);
              store == run.store && result == run.outcome
    {
      var credentials := Login.NewCredentials(emailDomain, usernameId, passwordId);
      match uc.createUser(credentials) {
        case Success(_) =>
          store := Some(credentials);
          result := Success(credentials);
        case Faulted(e) =>
          result := Faulted(e);
        case Cancelled =>
          result := Cancelled;
      }
    }
  }
}
