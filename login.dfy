/**
 * The credential pipeline of AnonymousSessionManager: loginUser() and
 * createUser() over the single slot of the credentials store, with the
 * UserCenterManager's answers given as functions of the credentials sent.
 */
module Login {
  import opened Types

  /**
   * What the UserCenterManager answers, during one flow, to a createUser or
   * a loginUser call with the given credentials.
   */
  datatype UserCenter = UserCenter(createUser: Credentials -> Outcome<User>, loginUser: Credentials -> Outcome<Session>)

  /** A call of createUser(): the credentials sent, the store after it, its result. */
  datatype CreateRun = CreateRun(attempted: Credentials, store: Option<Credentials>, outcome: Outcome<Credentials>)

  /**
   * A call of loginUser(): the credentials sent to createUser (if it was
   * called), those sent to the identity service's login (if it was called),
   * the store after it, and the result.
   */
  datatype LoginRun = LoginRun(
    created: Option<Credentials>,
    loggedInWith: Option<Credentials>,
    store: Option<Credentials>,
    outcome: Outcome<Session>)

  predicate EndsWith(s: string, suffix: string) {
    |suffix| <= |s| && s[|s| - |suffix|..] == suffix
  }

  /**
   * The credentials of a new anonymous user: the random id `usernameId`
   * followed by "@" and the e-mail domain, and the random id `passwordId`.
   */
  function NewCredentials(emailDomain: string, usernameId: string, passwordId: string): (c: Credentials)
    ensures EndsWith(c.username, "@" + emailDomain)
    ensures |c.username| == |usernameId| + 1 + |emailDomain|
    ensures c.username[..|usernameId|] == usernameId
    ensures c.password == passwordId
  {
    var username := usernameId + "@" + emailDomain;
    assert username[|username| - |"@" + emailDomain|..] == "@" + emailDomain;
    Credentials(username, passwordId)
  }

  /** The text after the first '@' of `s`, if there is one. */
  function DomainPart(s: string): Option<string> {
    if s == [] then None
    else if s[0] == '@' then Some(s[1..])
    else DomainPart(s[1..])
  }

  /**
   * A random id contains no '@' (a UUID string is hex digits and hyphens),
   * so the domain part of a generated user name is exactly the configured
   * e-mail domain.
   */
  lemma {:induction false} GeneratedUsernameDomain(emailDomain: string, usernameId: string, passwordId: string)
    requires '@' !in usernameId
    ensures DomainPart(NewCredentials(emailDomain, usernameId, passwordId).username) == Some(emailDomain)
  {
    var username := NewCredentials(emailDomain, usernameId, passwordId).username;
    assert username == usernameId + ("@" + emailDomain);
    if usernameId == [] {
      assert username[1..] == emailDomain;
    } else {
      assert usernameId[0] in usernameId;
      assert username[1..] == NewCredentials(emailDomain, usernameId[1..], passwordId).username;
      GeneratedUsernameDomain(emailDomain, usernameId[1..], passwordId);
    }
  }

  /**
   * createUser(): sends new credentials to the identity service and writes
   * them to the store only once the user has been created, overwriting what
   * the store held; a failure or cancellation is passed on unchanged.
   */
  function CreateUser(store: Option<Credentials>, emailDomain: string, usernameId: string, passwordId: string, uc: UserCenter): (r: CreateRun)
    ensures r.attempted == NewCredentials(emailDomain, usernameId, passwordId)
    ensures r.outcome.Success? <==> uc.createUser(r.attempted).Success?
    ensures r.outcome.Success? ==> r.outcome.value == r.attempted
    ensures !r.outcome.Success? ==> SameFailure(r.outcome, uc.createUser(r.attempted))
    ensures r.store == if r.outcome.Success? then Some(r.attempted) else store
  {
    var credentials := NewCredentials(emailDomain, usernameId, passwordId);
    match uc.createUser(credentials)
    case Success(_) => CreateRun(credentials, Some(credentials), Success(credentials))
    case Faulted(e) => CreateRun(credentials, store, Faulted(e))
    case Cancelled => CreateRun(credentials, store, Cancelled)
  }

  /**
   * loginUser(): logs in with the stored credentials, or, when the store is
   * empty, with those of a newly created user.
   */
  function LoginUser(store: Option<Credentials>, emailDomain: string, usernameId: string, passwordId: string, uc: UserCenter): (r: LoginRun)
    // stored credentials: used as they are, no user is created, the store is not written
    ensures store.Some? ==>
      r.created == None && r.store == store && r.loggedInWith == store && r.outcome == uc.loginUser(store.value)
    // empty store: a user is created with fresh credentials whose name ends in "@" + emailDomain
    ensures store.None? ==>
      r.created == Some(NewCredentials(emailDomain, usernameId, passwordId)) &&
      EndsWith(r.created.value.username, "@" + emailDomain)
    // creation succeeded: those credentials are stored, then used to log in
    ensures store.None? && uc.createUser(NewCredentials(emailDomain, usernameId, passwordId)).Success? ==>
      r.store == r.created && r.loggedInWith == r.created && r.outcome == uc.loginUser(r.created.value)
    // creation failed or was cancelled: nothing stored, no login, the creation's failure is the result
    ensures store.None? && !uc.createUser(NewCredentials(emailDomain, usernameId, passwordId)).Success? ==>
      r.store == None && r.loggedInWith == None &&
      SameFailure(r.outcome, uc.createUser(NewCredentials(emailDomain, usernameId, passwordId)))
    // the invariants these add up to
    ensures r.created.Some? <==> store.None?
    ensures r.loggedInWith.Some? ==> r.store == r.loggedInWith
    ensures r.store != store ==> store.None? && r.store == r.created
    ensures r.loggedInWith.None? ==> !r.outcome.Success?
  {
    match store
    case Some(credentials) => LoginRun(None, store, store, uc.loginUser(credentials))
    case None =>
      var run := CreateUser(store, emailDomain, usernameId, passwordId, uc);
      match run.outcome
      case Success(credentials) => LoginRun(Some(run.attempted), Some(credentials), run.store, uc.loginUser(credentials))
      case Faulted(e) => LoginRun(Some(run.attempted), None, run.store, Faulted(e))
      case Cancelled => LoginRun(Some(run.attempted), None, run.store, Cancelled)
  }

  /**
   * Once a flow has stored credentials, every later flow logs in with them
   * and creates no user, whatever ids it draws and whatever the identity
   * service answers.
   */
  lemma LaterLoginsReuseStoredCredentials(
    store: Option<Credentials>, emailDomain: string,
    id1: string, pw1: string, uc1: UserCenter,
    id2: string, pw2: string, uc2: UserCenter)
    requires LoginUser(store, emailDomain, id1, pw1, uc1).store.Some?
    ensures var first := LoginUser(store, emailDomain, id1, pw1, uc1);
            var second := LoginUser(first.store, emailDomain, id2, pw2, uc2);
            second.created == None && second.store == first.store && second.loggedInWith == first.store
  {
  }
}
