/**
 * The session-acquisition state machine of AnonymousSessionManager: the
 * synchronized block of getSession() and the continuation that settles an
 * acquisition, each one atomic step over the two mutable fields.
 */
module SessionCache {
  import opened Types

  /** mCurrentSession and mCurrentSessionTask. */
  datatype State = State(currentSession: Option<Session>, currentTask: Option<TaskId>)

  /** A freshly constructed manager: nothing cached, nothing in flight. */
  const Initial: State := State(None, None)

  /**
   * One atomic step: a call of getSession() at clock value `now`, whose new
   * completion source has task `newTask`, or the settlement of the in-flight
   * login with `outcome`.
   */
  datatype Event = GetSession(now: Time, newTask: TaskId) | Settle(outcome: Outcome<Session>)

  /**
   * What a step hands back: the cached session, the in-flight task (joined),
   * a newly registered task (started), or the resolution of the pending task.
   */
  datatype Reply =
    | Cached(session: Session)
    | Joined(task: TaskId)
    | Started(task: TaskId)
    | Resolved(task: TaskId, outcome: Outcome<Session>)

  /** A session is cached and has not expired at `now`. */
  predicate CacheValid(st: State, now: Time) {
    st.currentSession.Some? && !HasExpired(st.currentSession.value, now)
  }

  /** The synchronized block of getSession(). */
  function Get(st: State, now: Time, newTask: TaskId): (r: (State, Reply))
    // exactly one of the three answers, chosen by the cache and the in-flight marker
    ensures r.1.Cached? <==> CacheValid(st, now)
    ensures r.1.Joined? <==> !CacheValid(st, now) && st.currentTask.Some?
    ensures r.1.Started? <==> !CacheValid(st, now) && st.currentTask.None?
    // a hit returns the cached session itself, a join the task already in flight
    ensures r.1.Cached? ==> st.currentSession == Some(r.1.session)
    ensures r.1.Joined? ==> st.currentTask == Some(r.1.task)
    ensures r.1.Started? ==> r.1.task == newTask
    // the cache is never touched; the marker changes only when a login starts
    ensures r.0.currentSession == st.currentSession
    ensures r.0.currentTask == if r.1.Started? then Some(newTask) else st.currentTask
  {
    if CacheValid(st, now) then (st, Cached(st.currentSession.value))
    else if st.currentTask.Some? then (st, Joined(st.currentTask.value))
    else (st.(currentTask := Some(newTask)), Started(newTask))
  }

  /** The continuation that runs when the in-flight login settles. */
  function Resolve(st: State, outcome: Outcome<Session>): (r: (State, Reply))
    requires st.currentTask.Some?
    ensures r.0.currentTask == None
    ensures r.0.currentSession == if outcome.Success? then Some(outcome.value) else st.currentSession
    // the pending task is resolved with the login's own session, error or cancellation
    ensures r.1 == Resolved(st.currentTask.value, outcome)
  {
    var task := st.currentTask.value;
    match outcome
    case Success(s) => (State(Some(s), None), Resolved(task, outcome))
    case Faulted(_) => (st.(currentTask := None), Resolved(task, outcome))
    case Cancelled => (st.(currentTask := None), Resolved(task, outcome))
  }

  /** One event; a settlement with nothing in flight cannot occur. */
  function Step(st: State, e: Event): (r: Option<(State, Reply)>)
    ensures r.None? <==> e.Settle? && st.currentTask.None?
  {
    match e
    case GetSession(now, newTask) => Some(Get(st, now, newTask))
    case Settle(outcome) => if st.currentTask.Some? then Some(Resolve(st, outcome)) else None
  }

  /** A run of events from `st`: the final state and one reply per event. */
  function Run(st: State, evs: seq<Event>): (r: Option<(State, seq<Reply>)>)
    ensures r.Some? ==> |r.value.1| == |evs|
    decreases |evs|
  {
    if evs == [] then Some((st, []))
    else
      match Run(st, evs[..|evs| - 1])
      case None => None
      case Some((mid, rs)) =>
        match Step(mid, evs[|evs| - 1])
        case None => None
        case Some((next, r)) => Some((next, rs + [r]))
  }

  /** The task started last, unless it has been resolved since. */
  function Pending(rs: seq<Reply>): Option<TaskId> {
    if rs == [] then None
    else
      match rs[|rs| - 1]
      case Started(t) => Some(t)
      case Resolved(_, _) => None
      case _ => Pending(rs[..|rs| - 1])
  }

  /**
   * Reply `r` is consistent with the replies before it: a join and a
   * resolution name the acquisition still pending, and a new one starts only
   * when none is.
   */
  predicate Fits(earlier: seq<Reply>, r: Reply) {
    match r
    case Cached(_) => true
    case Joined(t) => Pending(earlier) == Some(t)
    case Started(_) => Pending(earlier) == None
    case Resolved(t, _) => Pending(earlier) == Some(t)
  }

  predicate Coalesced(rs: seq<Reply>) {
    forall k :: 0 <= k < |rs| ==> Fits(rs[..k], rs[k])
  }

  function CountStarted(rs: seq<Reply>): nat {
    if rs == [] then 0 else CountStarted(rs[..|rs| - 1]) + (if rs[|rs| - 1].Started? then 1 else 0)
  }

  function CountResolved(rs: seq<Reply>): nat {
    if rs == [] then 0 else CountResolved(rs[..|rs| - 1]) + (if rs[|rs| - 1].Resolved? then 1 else 0)
  }

  /** The session of the last successful resolution, else `initial`. */
  function LastSuccess(rs: seq<Reply>, initial: Option<Session>): Option<Session> {
    if rs == [] then initial
    else
      match rs[|rs| - 1]
      case Resolved(_, Success(s)) => Some(s)
      case _ => LastSuccess(rs[..|rs| - 1], initial)
  }

  /** A cached reply to a call at `e` is the last acquired session, unexpired at the call. */
  predicate CachedFits(initial: Option<Session>, e: Event, earlier: seq<Reply>, r: Reply) {
    r.Cached? ==>
      e.GetSession? && !HasExpired(r.session, e.now) && LastSuccess(earlier, initial) == Some(r.session)
  }

  predicate CacheHits(initial: Option<Session>, evs: seq<Event>, rs: seq<Reply>)
    requires |evs| == |rs|
  {
    forall k :: 0 <= k < |rs| ==> CachedFits(initial, evs[k], rs[..k], rs[k])
  }

  /** Unfolds Run for a non-empty run. */
  lemma RunLast(st0: State, evs: seq<Event>)
    requires evs != [] && Run(st0, evs).Some?
    ensures Run(st0, evs[..|evs| - 1]).Some?
    ensures var (mid, rs) := Run(st0, evs[..|evs| - 1]).value;
            Step(mid, evs[|evs| - 1]).Some? &&
            Run(st0, evs).value == (Step(mid, evs[|evs| - 1]).value.0, rs + [Step(mid, evs[|evs| - 1]).value.1])
  {
  }

  /**
   * Starting with nothing in flight, the in-flight marker is always the
   * pending acquisition of the replies so far, and every join and every
   * resolution names that acquisition: at most one is ever outstanding and
   * all concurrent callers share it.
   */
  lemma {:induction false} RunKeepsOneInFlight(st0: State, evs: seq<Event>)
    requires st0.currentTask.None?
    requires Run(st0, evs).Some?
    ensures Run(st0, evs).value.0.currentTask == Pending(Run(st0, evs).value.1)
    ensures Coalesced(Run(st0, evs).value.1)
  {
    if evs != [] {
      RunLast(st0, evs);
      var prefix := evs[..|evs| - 1];
      RunKeepsOneInFlight(st0, prefix);
      var (mid, rs) := Run(st0, prefix).value;
      var r := Step(mid, evs[|evs| - 1]).value.1;
      var rs' := rs + [r];
      assert rs'[..|rs'| - 1] == rs;
      forall k | 0 <= k < |rs'|
        ensures Fits(rs'[..k], rs'[k])
      {
        if k < |rs| {
          assert rs'[..k] == rs[..k];
        } else {
          assert rs'[..k] == rs;
        }
      }
    }
  }

  /**
   * Every acquisition started has been resolved, except the one still in
   * flight: one login per cache miss, and never two outstanding.
   */
  lemma {:induction false} OneAcquisitionOutstanding(st0: State, evs: seq<Event>)
    requires st0.currentTask.None?
    requires Run(st0, evs).Some?
    ensures var (st, rs) := Run(st0, evs).value;
            CountStarted(rs) == CountResolved(rs) + (if st.currentTask.Some? then 1 else 0)
  {
    if evs != [] {
      RunLast(st0, evs);
      var prefix := evs[..|evs| - 1];
      OneAcquisitionOutstanding(st0, prefix);
      var (mid, rs) := Run(st0, prefix).value;
      var r := Step(mid, evs[|evs| - 1]).value.1;
      assert (rs + [r])[..|rs + [r]| - 1] == rs;
    }
  }

  /** The cache only ever holds the session of the last successful settlement. */
  lemma {:induction false} CacheHoldsLastSuccess(st0: State, evs: seq<Event>)
    requires Run(st0, evs).Some?
    ensures Run(st0, evs).value.0.currentSession == LastSuccess(Run(st0, evs).value.1, st0.currentSession)
  {
    if evs != [] {
      RunLast(st0, evs);
      var prefix := evs[..|evs| - 1];
      CacheHoldsLastSuccess(st0, prefix);
      var (mid, rs) := Run(st0, prefix).value;
      var r := Step(mid, evs[|evs| - 1]).value.1;
      assert (rs + [r])[..|rs + [r]| - 1] == rs;
    }
  }

  /**
   * Every cached reply is the session of the last successful settlement and
   * had not expired when the call was made: no network call is needed then.
   */
  lemma {:induction false} CachedRepliesAreValid(st0: State, evs: seq<Event>)
    requires Run(st0, evs).Some?
    ensures CacheHits(st0.currentSession, evs, Run(st0, evs).value.1)
  {
    if evs != [] {
      RunLast(st0, evs);
      var prefix := evs[..|evs| - 1];
      CachedRepliesAreValid(st0, prefix);
      CacheHoldsLastSuccess(st0, prefix);
      var (mid, rs) := Run(st0, prefix).value;
      var r := Step(mid, evs[|evs| - 1]).value.1;
      var rs' := rs + [r];
      forall k | 0 <= k < |rs'|
        ensures CachedFits(st0.currentSession, evs[k], rs'[..k], rs'[k])
      {
        if k < |rs| {
          assert rs'[..k] == rs[..k];
          assert evs[k] == prefix[k];
        } else {
          assert rs'[..k] == rs;
        }
      }
    }
  }

  /** Running one more event extends the run by one step. */
  lemma RunSnoc(st0: State, evs: seq<Event>, e: Event, mid: State, rs: seq<Reply>, next: State, r: Reply)
    requires Run(st0, evs) == Some((mid, rs))
    requires Step(mid, e) == Some((next, r))
    ensures Run(st0, evs + [e]) == Some((next, rs + [r]))
  {
  }

  /**
   * A session acquired by a fresh manager is handed back as is to a later
   * call made while it is still valid.
   */
  lemma UnexpiredSessionIsReused(t0: Time, t1: Time, a: TaskId, b: TaskId, s: Session)
    requires !HasExpired(s, t1)
    ensures Run(Initial, [GetSession(t0, a), Settle(Success(s)), GetSession(t1, b)])
         == Some((State(Some(s), None), [Started(a), Resolved(a, Success(s)), Cached(s)]))
  {
    var e0, e1, e2 := GetSession(t0, a), Settle(Success(s)), GetSession(t1, b);
    var r0, r1, r2 := Started(a), Resolved(a, Success(s)), Cached(s);
    RunSnoc(Initial, [], e0, Initial, [], State(None, Some(a)), r0);
    assert [] + [e0] == [e0] && [] + [r0] == [r0];
    RunSnoc(Initial, [e0], e1, State(None, Some(a)), [r0], State(Some(s), None), r1);
    assert [e0] + [e1] == [e0, e1] && [r0] + [r1] == [r0, r1];
    RunSnoc(Initial, [e0, e1], e2, State(Some(s), None), [r0, r1], State(Some(s), None), r2);
    assert [e0, e1] + [e2] == [e0, e1, e2] && [r0, r1] + [r2] == [r0, r1, r2];
  }

  /**
   * A session that has expired by the next call is not reused: that call
   * starts a new acquisition, whose session replaces the expired one.
   */
  lemma ExpiredSessionIsReplaced(t0: Time, t1: Time, a: TaskId, b: TaskId, s1: Session, s2: Session)
    requires HasExpired(s1, t1)
    ensures Run(Initial, [GetSession(t0, a), Settle(Success(s1)), GetSession(t1, b), Settle(Success(s2))])
         == Some((State(Some(s2), None), [Started(a), Resolved(a, Success(s1)), Started(b), Resolved(b, Success(s2))]))
  {
    var e0, e1, e2, e3 := GetSession(t0, a), Settle(Success(s1)), GetSession(t1, b), Settle(Success(s2));
    var r0, r1, r2, r3 := Started(a), Resolved(a, Success(s1)), Started(b), Resolved(b, Success(s2));
    RunSnoc(Initial, [], e0, Initial, [], State(None, Some(a)), r0);
    assert [] + [e0] == [e0] && [] + [r0] == [r0];
    RunSnoc(Initial, [e0], e1, State(None, Some(a)), [r0], State(Some(s1), None), r1);
    assert [e0] + [e1] == [e0, e1] && [r0] + [r1] == [r0, r1];
    RunSnoc(Initial, [e0, e1], e2, State(Some(s1), None), [r0, r1], State(Some(s1), Some(b)), r2);
    assert [e0, e1] + [e2] == [e0, e1, e2] && [r0, r1] + [r2] == [r0, r1, r2];
    RunSnoc(Initial, [e0, e1, e2], e3, State(Some(s1), Some(b)), [r0, r1, r2], State(Some(s2), None), r3);
    assert [e0, e1, e2] + [e3] == [e0, e1, e2, e3] && [r0, r1, r2] + [r3] == [r0, r1, r2, r3];
  }

  /**
   * Calls made while an acquisition is in flight all join it and all receive
   * its one outcome, whether a session, an error or a cancellation.
   */
  lemma ConcurrentCallersShareOneAcquisition(t0: Time, t1: Time, t2: Time, a: TaskId, b: TaskId, c: TaskId, o: Outcome<Session>)
    ensures Run(Initial, [GetSession(t0, a), GetSession(t1, b), GetSession(t2, c), Settle(o)]).Some?
    ensures Run(Initial, [GetSession(t0, a), GetSession(t1, b), GetSession(t2, c), Settle(o)]).value.1
         == [Started(a), Joined(a), Joined(a), Resolved(a, o)]
  {
    var e0, e1, e2, e3 := GetSession(t0, a), GetSession(t1, b), GetSession(t2, c), Settle(o);
    var r0, r1, r2, r3 := Started(a), Joined(a), Joined(a), Resolved(a, o);
    var busy := State(None, Some(a));
    var done := Resolve(busy, o).0;
    RunSnoc(Initial, [], e0, Initial, [], busy, r0);
    assert [] + [e0] == [e0] && [] + [r0] == [r0];
    RunSnoc(Initial, [e0], e1, busy, [r0], busy, r1);
    assert [e0] + [e1] == [e0, e1] && [r0] + [r1] == [r0, r1];
    RunSnoc(Initial, [e0, e1], e2, busy, [r0, r1], busy, r2);
    assert [e0, e1] + [e2] == [e0, e1, e2] && [r0, r1] + [r2] == [r0, r1, r2];
    RunSnoc(Initial, [e0, e1, e2], e3, busy, [r0, r1, r2], done, r3);
    assert [e0, e1, e2] + [e3] == [e0, e1, e2, e3] && [r0, r1, r2] + [r3] == [r0, r1, r2, r3];
  }
}
