/** The session store of src/features/auth/components/auth-provider.tsx: the current user,
    the loading flag and the debounce timer that collapses bursts of session-change
    notifications.

    Time is not modelled. The store moves in discrete steps: the initial fetch completes,
    a notification arrives (it cancels the pending timer and arms a new one holding that
    notification), the timer fires (its handler runs to completion with the answer of
    `getCurrentUser` as input), `signOut` completes, or the component unmounts. */
module AuthProvider {
  import opened Wrappers
  import opened AuthApi

  /** The session-change event kinds the authentication service emits. */
  datatype AuthEvent =
    | InitialSession | SignedIn | SignedOut | TokenRefreshed
    | UserUpdated | PasswordRecovery | MfaChallengeVerified

  /** What an armed timer captured: the event and whether its session carries a user. */
  datatype Notification = Notification(event: AuthEvent, sessionHasUser: bool)

  /** The answer of an awaited `getCurrentUser`: a user or `null`, or an exception. */
  datatype Fetch = Fetched(user: Option<AuthUser>) | FetchThrew

  /** The store: `user`, `loading`, and the notification the pending timer will handle
      (`None` when no timer is pending). */
  datatype State = State(user: Option<AuthUser>, loading: bool, pending: Option<Notification>)

  /** Before anything happens: no user, loading. */
  const Initial: State := State(None, true, None)

  /** The events that refetch the user when their session carries one. */
  predicate Refetches(e: AuthEvent) {
    e == SignedIn || e == TokenRefreshed || e == InitialSession
  }

  /** The user a fetch leaves behind; an exception is caught and clears the user. */
  function FetchedUser(fetch: Fetch): Option<AuthUser> {
    match fetch
    case Fetched(u) => u
    case FetchThrew => None
  }

  /** The debounced handler's decision for the notification it fires with. */
  function HandleNotification(n: Notification, user: Option<AuthUser>, fetch: Fetch): (r: Option<AuthUser>)
    ensures n.event == SignedOut ==> r.None?
    ensures !n.sessionHasUser ==> r.None?
    ensures Refetches(n.event) && n.sessionHasUser ==> r == FetchedUser(fetch)
    ensures !Refetches(n.event) && n.event != SignedOut && n.sessionHasUser ==> r == user
  {
    if n.event == SignedIn && n.sessionHasUser then FetchedUser(fetch)
    else if n.event == SignedOut then None
    else if n.event == TokenRefreshed && n.sessionHasUser then FetchedUser(fetch)
    else if n.event == InitialSession && n.sessionHasUser then FetchedUser(fetch)
    else if !n.sessionHasUser then None
    else user
  }

  /** One discrete step of the store. */
  datatype Input =
    | InitialFetchDone(fetch: Fetch)
    | Notify(n: Notification)
    | TimerFire(fetch: Fetch)
    | SignOutDone(error: Option<BackendError>)
    | Unmount

  function Step(s: State, i: Input): (r: State)
    ensures i.Notify? ==> r == s.(pending := Some(i.n))
    ensures i.InitialFetchDone? ==> r == s.(user := FetchedUser(i.fetch), loading := false)
    ensures i.TimerFire? && s.pending.Some? ==>
              r == State(HandleNotification(s.pending.value, s.user, i.fetch), false, None)
    ensures i.TimerFire? && s.pending.None? ==> r == s
    ensures i.SignOutDone? ==> r == if i.error.None? then s.(user := None) else s
    ensures i.Unmount? ==> r == s.(pending := None)
  {
    match i
    case InitialFetchDone(fetch) => s.(user := FetchedUser(fetch), loading := false)
    case Notify(n) => s.(pending := Some(n))
    case TimerFire(fetch) =>
      if s.pending.None? then s
      else State(HandleNotification(s.pending.value, s.user, fetch), false, None)
    case SignOutDone(error) => if error.None? then s.(user := None) else s
    case Unmount => s.(pending := None)
  }

  /** The state after a sequence of steps. */
  function Run(s: State, inputs: seq<Input>): State
    decreases |inputs|
  {
    if inputs == [] then s else Run(Step(s, inputs[0]), inputs[1..])
  }

  /** A burst of notifications with no timer fire in between. */
  function Notifies(ns: seq<Notification>): (r: seq<Input>)
    ensures |r| == |ns|
    ensures forall k :: 0 <= k < |ns| ==> r[k] == Notify(ns[k])
  {
    if ns == [] then [] else [Notify(ns[0])] + Notifies(ns[1..])
  }

  lemma {:induction false} RunAppend(s: State, a: seq<Input>, b: seq<Input>)
    ensures Run(s, a + b) == Run(Run(s, a), b)
    decreases |a|
  {
    if a == [] {
      assert a + b == b;
    } else {
      assert (a + b)[0] == a[0];
      assert (a + b)[1..] == a[1..] + b;
      calc {
        Run(s, a + b);
        Run(Step(s, a[0]), a[1..] + b);
        { RunAppend(Step(s, a[0]), a[1..], b); }
        Run(Run(Step(s, a[0]), a[1..]), b);
        Run(Run(s, a), b);
      }
    }
  }

  /** A burst of notifications changes neither the user nor the loading flag; it only
      leaves the last notification pending, every earlier timer being cancelled. */
  lemma {:induction false} BurstKeepsOnlyLast(s: State, ns: seq<Notification>)
    requires |ns| > 0
    ensures Run(s, Notifies(ns)) == s.(pending := Some(ns[|ns| - 1]))
    decreases |ns|
  {
    var inputs := Notifies(ns);
    assert inputs[1..] == Notifies(ns[1..]);
    if |ns| > 1 {
      BurstKeepsOnlyLast(Step(s, inputs[0]), ns[1..]);
    }
  }

  /** Debouncing: a burst followed by one timer fire ends exactly as if only the burst's
      last notification had arrived. */
  lemma OnlyLastNotificationApplies(s: State, ns: seq<Notification>, fetch: Fetch)
    requires |ns| > 0
    ensures Run(s, Notifies(ns) + [TimerFire(fetch)]) == Run(s, [Notify(ns[|ns| - 1]), TimerFire(fetch)])
    ensures Run(s, Notifies(ns) + [TimerFire(fetch)])
            == State(HandleNotification(ns[|ns| - 1], s.user, fetch), false, None)
  {
    RunAppend(s, Notifies(ns), [TimerFire(fetch)]);
    BurstKeepsOnlyLast(s, ns);
    var last := ns[|ns| - 1];
    assert Run(s, [Notify(last), TimerFire(fetch)]) == Run(Step(Step(s, Notify(last)), TimerFire(fetch)), []);
  }

  /** Once loading is over it never comes back. */
  lemma {:induction false} LoadingNeverReturns(s: State, inputs: seq<Input>)
    requires !s.loading
    ensures !Run(s, inputs).loading
    decreases |inputs|
  {
    if inputs != [] {
      LoadingNeverReturns(Step(s, inputs[0]), inputs[1..]);
    }
  }

  /** The notification storm "signed in, signed out, signed in" followed by one fire:
      loading stays on until that fire, and the final state is the one the last
      notification alone produces. */
  lemma NotificationStormCollapses(u: AuthUser)
    ensures var storm := [Notify(Notification(SignedIn, true)), Notify(Notification(SignedOut, false)),
                          Notify(Notification(SignedIn, true))];
            && Run(Initial, storm).loading
            && Run(Initial, storm + [TimerFire(Fetched(Some(u)))]) == State(Some(u), false, None)
  {
    var ns := [Notification(SignedIn, true), Notification(SignedOut, false), Notification(SignedIn, true)];
    assert Notifies(ns) == [Notify(ns[0]), Notify(ns[1]), Notify(ns[2])];
    BurstKeepsOnlyLast(Initial, ns);
    OnlyLastNotificationApplies(Initial, ns, Fetched(Some(u)));
  }

  /** A successful sign-out followed by the SIGNED_OUT notification it causes leaves no
      user, whatever timer was pending before and whatever a fetch would answer. */
  lemma SignOutThenSignedOutClearsUser(s: State, session: bool, fetch: Fetch)
    ensures Run(s, [SignOutDone(None), Notify(Notification(SignedOut, session)), TimerFire(fetch)])
            == State(None, false, None)
  {
    var inputs := [SignOutDone(None), Notify(Notification(SignedOut, session)), TimerFire(fetch)];
    var s1 := Step(s, inputs[0]);
    var s2 := Step(s1, inputs[1]);
    var s3 := Step(s2, inputs[2]);
    assert s3 == State(None, false, None);
    calc {
      Run(s, inputs);
      Run(s1, inputs[1..]);
      { assert inputs[1..][0] == inputs[1] && inputs[1..][1..] == inputs[2..]; }
      Run(s2, inputs[2..]);
      { assert inputs[2..][0] == inputs[2] && inputs[2..][1..] == []; }
      Run(s3, []);
    }
  }

  /** The provider component's state cells. */
  class AuthProviderState {
    var user: Option<AuthUser>
    var loading: bool
    /** The notification the pending timer (`timeoutRef.current`) will handle. */
    var timeout: Option<Notification>

    function Current(): State
      reads this
    {
      State(user, loading, timeout)
    }

    constructor ()
      ensures Current() == Initial
    {
      user := None;
      loading := true;
      timeout := None;
    }

    /** `isAuthenticated`. */
    function IsAuthenticated(): (r: bool)
      reads this
      ensures r <==> user.Some?
    {
      user.Some?
    }

    /** The initial `fetchUser` completes: the answer (or `null` after an exception)
        becomes the user and loading ends. */
    method InitialFetchDone(fetch: Fetch)
      modifies this
      ensures Current() == Step(old(Current()), Input.InitialFetchDone(fetch))
      ensures !loading && timeout == old(timeout)
    {
      match fetch {
        case Fetched(u) => user := u;
        case FetchThrew => user := None;
      }
      loading := false;
    }

    /** A session-change notification: the pending timer is cancelled and a new one is
        armed with this notification; user and loading are untouched. */
    method Notify(event: AuthEvent, sessionHasUser: bool)
      modifies this
      ensures Current() == Step(old(Current()), Input.Notify(Notification(event, sessionHasUser)))
      ensures user == old(user) && loading == old(loading)
    {
      if timeout.Some? {
        timeout := None;
      }
      timeout := Some(Notification(event, sessionHasUser));
    }

    /** The pending timer fires and its handler runs; with no pending timer nothing
        happens. */
    method TimerFire(fetch: Fetch)
      modifies this
      ensures Current() == Step(old(Current()), Input.TimerFire(fetch))
      ensures old(timeout).Some? ==> !loading && timeout.None?
    {
      if timeout.None? {
        return;
      }
      var n := timeout.value;
      timeout := None;
      if n.event == SignedIn && n.sessionHasUser {
        user := FetchedUser(fetch);
      } else if n.event == SignedOut {
        user := None;
      } else if n.event == TokenRefreshed && n.sessionHasUser {
        user := FetchedUser(fetch);
      } else if n.event == InitialSession && n.sessionHasUser {
        user := FetchedUser(fetch);
      } else if !n.sessionHasUser {
        user := None;
      }
      loading := false;
    }

    /** `signOut`: on success the user is cleared at once; on failure the backend's
        message is rethrown and nothing changes. */
    method SignOut(error: Option<BackendError>) returns (r: Result<()>)
      modifies this
      ensures r == AuthApi.SignOut(error)
      ensures Current() == Step(old(Current()), Input.SignOutDone(error))
      ensures r.Ok? ==> !IsAuthenticated()
      ensures r.Err? ==> user == old(user)
    {
      r := AuthApi.SignOut(error);
      if r.Ok? {
        user := None;
      }
    }

    /** Unmounting cancels the pending timer. */
    method Unmount()
      modifies this
      ensures Current() == Step(old(Current()), Input.Unmount)
    {
      timeout := None;
    }
  }
}
