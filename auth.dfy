/**
 * The shared session store of `useAuth`: the `AuthState` record, its five
 * operations as transitions on values, and the store itself as a class whose
 * methods assign the record's fields in the order the composable does.
 *
 * Every backend call is replaced by a parameter carrying its answer: the result
 * of `getSession`, of `signInWithPassword`, of `signOut`, and of the
 * `app_users` lookup by user id.
 */
module Auth {
  import opened JsValues
  import opened Profiles

  /** The backend's user; only its id is read here. */
  datatype User = User(id: string)

  /** The backend's session; only its user is read here. */
  datatype Session = Session(user: User)

  datatype AuthError = AuthError(message: string)

  /** Answer of `getSession()`: a session or none, or an error. */
  datatype SessionResult = SessionFetched(session: Option<Session>) | SessionFailed(error: AuthError)

  /** Answer of the `maybeSingle` lookup in `app_users`. */
  datatype ProfileLookup = LookupFailed(message: string) | NoRow | RowFound(row: Row)

  /** Answer of `signInWithPassword(...)`. */
  datatype SignInResult = SignedIn(session: Session, user: User) | SignInFailed(error: AuthError)

  /** The observable state, field for field. */
  datatype AuthState = AuthState(
    ready: bool,
    loading: bool,
    user: Option<User>,
    session: Option<Session>,
    profile: Option<Profile>)

  /** A transition's new state, and the error it throws, if any. */
  datatype Outcome = Outcome(state: AuthState, error: Option<AuthError>)

  /** The state the composable starts in. */
  const Initial: AuthState := AuthState(false, true, None, None, None)

  /** What holds in every state between operations: no profile without a user,
      and a ready store is not loading. */
  predicate Consistent(s: AuthState) {
    (s.profile.Some? ==> s.user.Some?) && (s.ready ==> !s.loading)
  }

  /** `session?.user ?? null`. */
  function UserOf(session: Option<Session>): Option<User> {
    if session.Some? then Some(session.value.user) else None
  }

  /** The profile `loadProfile` stores for `user` when the lookup answers `lookup`.
      Without a user nothing is looked up; a failed lookup and a missing row are
      both swallowed into `null`. */
  function ProfileFor(user: Option<User>, lookup: ProfileLookup): (p: Option<Profile>)
    ensures user.None? ==> p.None?
    ensures p.Some? <==> user.Some? && lookup.RowFound?
    ensures p.Some? ==> p.value == CoerceRow(lookup.row)
  {
    match user
    case None => None
    case Some(_) =>
      match lookup
      case LookupFailed(_) => None
      case NoRow => None
      case RowFound(row) => Some(CoerceRow(row))
  }

  /** `loadProfile` / `refreshProfile`: only `profile` changes. */
  function LoadProfileStep(s: AuthState, lookup: ProfileLookup): (t: AuthState)
    ensures t == s.(profile := t.profile)
    ensures t.profile.Some? <==> s.user.Some? && lookup.RowFound?
    ensures t.profile.Some? ==> t.profile.value == CoerceRow(lookup.row)
    ensures Consistent(s) ==> Consistent(t)
  {
    s.(profile := ProfileFor(s.user, lookup))
  }

  /** `init`: nothing when already ready; otherwise fetch the session, and either
      throw (leaving `loading` set and the rest untouched) or take the session,
      its user and their profile and become ready. */
  function InitStep(s: AuthState, got: SessionResult, lookup: ProfileLookup): (o: Outcome)
    ensures s.ready ==> o == Outcome(s, None)
    ensures !s.ready && got.SessionFailed? ==>
      o.error == Some(got.error) && o.state == s.(loading := true)
    ensures !s.ready && got.SessionFetched? ==>
      o.error.None? && o.state.ready && !o.state.loading &&
      o.state.session == got.session && o.state.user == UserOf(got.session) &&
      o.state.profile == ProfileFor(UserOf(got.session), lookup)
    ensures o.error.None? <==> o.state.ready
    ensures Consistent(s) ==> Consistent(o.state)
  {
    if s.ready then Outcome(s, None)
    else
      match got
      case SessionFailed(e) => Outcome(s.(loading := true), Some(e))
      case SessionFetched(session) =>
        var t := s.(loading := true, session := session, user := UserOf(session));
        Outcome(LoadProfileStep(t, lookup).(ready := true, loading := false), None)
  }

  /** The `onAuthStateChange` callback: take the pushed session and its user,
      reload the profile, be ready and not loading. The event name is ignored. */
  function AuthChangeStep(s: AuthState, session: Option<Session>, lookup: ProfileLookup): (t: AuthState)
    ensures t.ready && !t.loading
    ensures t.session == session && t.user == UserOf(session)
    ensures t.profile == ProfileFor(UserOf(session), lookup)
    ensures Consistent(t)
  {
    var t := s.(session := session, user := UserOf(session));
    LoadProfileStep(t, lookup).(ready := true, loading := false)
  }

  /** `signInWithPassword`: `loading` ends false either way; a rejection changes
      nothing else, a success takes the session and user, loads their profile and
      makes the store ready. */
  function SignInStep(s: AuthState, res: SignInResult, lookup: ProfileLookup): (o: Outcome)
    ensures res.SignInFailed? ==> o.error == Some(res.error) && o.state == s.(loading := false)
    ensures res.SignedIn? ==>
      o.error.None? && o.state.ready && !o.state.loading &&
      o.state.session == Some(res.session) && o.state.user == Some(res.user) &&
      o.state.profile == ProfileFor(Some(res.user), lookup)
    ensures Consistent(s) ==> Consistent(o.state)
  {
    match res
    case SignInFailed(e) => Outcome(s.(loading := false), Some(e))
    case SignedIn(session, user) =>
      var t := s.(loading := false, session := Some(session), user := Some(user));
      Outcome(LoadProfileStep(t, lookup).(ready := true), None)
  }

  /** `signOut`: `loading` ends false either way; a failure changes nothing else,
      a success clears session, user and profile. */
  function SignOutStep(s: AuthState, failure: Option<AuthError>): (o: Outcome)
    ensures o.error == failure
    ensures failure.Some? ==> o.state == s.(loading := false)
    ensures failure.None? ==>
      o.state.session.None? && o.state.user.None? && o.state.profile.None? &&
      o.state.ready == s.ready && !o.state.loading
    ensures Consistent(s) ==> Consistent(o.state)
  {
    if failure.Some? then Outcome(s.(loading := false), failure)
    else Outcome(s.(loading := false, session := None, user := None, profile := None), None)
  }

  /** One operation of the store, with the backend's answers it receives. */
  datatype Event =
    | InitCall(got: SessionResult, lookup: ProfileLookup)
    | AuthChange(session: Option<Session>, lookup: ProfileLookup)
    | SignInCall(res: SignInResult, lookup: ProfileLookup)
    | SignOutCall(failure: Option<AuthError>)
    | RefreshProfile(lookup: ProfileLookup)

  /** The state after one operation runs to completion (a thrown error leaves the
      state the operation had reached). */
  function Apply(s: AuthState, e: Event): AuthState {
    match e
    case InitCall(got, lookup) => InitStep(s, got, lookup).state
    case AuthChange(session, lookup) => AuthChangeStep(s, session, lookup)
    case SignInCall(res, lookup) => SignInStep(s, res, lookup).state
    case SignOutCall(failure) => SignOutStep(s, failure).state
    case RefreshProfile(lookup) => LoadProfileStep(s, lookup)
  }

  /** The state after a sequence of operations, one after the other. */
  function Run(s: AuthState, events: seq<Event>): AuthState
    decreases |events|
  {
    if events == [] then s else Run(Apply(s, events[0]), events[1..])
  }

  /** Under sequential execution every operation keeps `Consistent`; in
      particular a profile is never held without a user. */
  lemma {:induction false} RunKeepsConsistent(s: AuthState, events: seq<Event>)
    requires Consistent(s)
    ensures Consistent(Run(s, events))
    decreases |events|
  {
    if events != [] {
      RunKeepsConsistent(Apply(s, events[0]), events[1..]);
    }
  }

  /** Once ready, the store stays ready. */
  lemma {:induction false} RunKeepsReady(s: AuthState, events: seq<Event>)
    requires s.ready
    ensures Run(s, events).ready
    decreases |events|
  {
    if events != [] {
      var t := Apply(s, events[0]);
      assert t.ready;
      RunKeepsReady(t, events[1..]);
    }
  }

  /** Every state reachable from the initial one is consistent. */
  lemma ReachableIsConsistent(events: seq<Event>)
    ensures Consistent(Run(Initial, events))
  {
    RunKeepsConsistent(Initial, events);
  }

  /** After a successful `init`, calling it again changes nothing and does not
      fetch anything, whatever the backend would answer. */
  lemma InitIsIdempotent(s: AuthState, got: SessionResult, lookup: ProfileLookup,
                         got': SessionResult, lookup': ProfileLookup)
    requires InitStep(s, got, lookup).error.None?
    ensures InitStep(InitStep(s, got, lookup).state, got', lookup') ==
            Outcome(InitStep(s, got, lookup).state, None)
  {
  }

  /** A successful first `init` leaves the same state as the auth-change callback
      given the fetched session. */
  lemma InitAgreesWithAuthChange(s: AuthState, session: Option<Session>, lookup: ProfileLookup)
    requires !s.ready
    ensures InitStep(s, SessionFetched(session), lookup) ==
            Outcome(AuthChangeStep(s, session, lookup), None)
  {
  }

  /** The store as one mutable object. `subscriptions` counts the
      `onAuthStateChange` listeners `init` has registered. */
  class AuthStore {
    var ready: bool
    var loading: bool
    var user: Option<User>
    var session: Option<Session>
    var profile: Option<Profile>
    var subscriptions: nat

    /** The record `state.value` as a value. */
    function State(): AuthState
      reads this
    {
      AuthState(ready, loading, user, session, profile)
    }

    /** The part of the invariant that also holds halfway through an operation. */
    ghost predicate Wiring()
      reads this
    {
      (ready ==> !loading) && subscriptions <= 1 && (subscriptions == 1 ==> ready)
    }

    ghost predicate Valid()
      reads this
    {
      Wiring() && Consistent(State())
    }

    constructor ()
      ensures Valid()
      ensures State() == Initial && subscriptions == 0
    {
      ready, loading := false, true;
      user, session, profile := None, None, None;
      subscriptions := 0;
    }

    /** `loadProfile`. Returns the user id it looked up, or `None` when there is
        no user and so no lookup was made. */
    method LoadProfile(lookup: ProfileLookup) returns (lookedUp: Option<string>)
      requires Wiring()
      modifies this`profile
      ensures Valid()
      ensures State() == LoadProfileStep(old(State()), lookup)
      ensures lookedUp == if user.Some? then Some(user.value.id) else None
    {
      if user.None? {
        profile := None;
        return None;
      }
      lookedUp := Some(user.value.id);
      match lookup {
        case LookupFailed(_) =>
          profile := None;
        case NoRow =>
          profile := None;
        case RowFound(row) =>
          profile := Some(CoerceRow(row));
      }
    }

    /** `init`. Registers the auth-change listener once, on the first success. */
    method Init(got: SessionResult, lookup: ProfileLookup) returns (error: Option<AuthError>)
      requires Valid()
      modifies this`ready, this`loading, this`session, this`user, this`profile, this`subscriptions
      ensures Valid()
      ensures State() == InitStep(old(State()), got, lookup).state
      ensures error == InitStep(old(State()), got, lookup).error
      ensures subscriptions == if !old(ready) && error.None? then 1 else old(subscriptions)
    {
      if ready {
        return None;
      }
      loading := true;
      // the backend's `getSession` completes here, answering `got`
      match got {
        case SessionFailed(e) =>
          return Some(e);
        case SessionFetched(fetched) =>
          session := fetched;
          user := UserOf(fetched);
      }
      var _ := LoadProfile(lookup);
      ready := true;
      loading := false;
      subscriptions := subscriptions + 1;
      error := None;
    }

    /** The `onAuthStateChange` listener, which exists only once `init` has
        registered it. */
    method OnAuthStateChange(event: string, pushed: Option<Session>, lookup: ProfileLookup)
      requires Valid() && subscriptions == 1
      modifies this`ready, this`loading, this`session, this`user, this`profile
      ensures Valid()
      ensures State() == AuthChangeStep(old(State()), pushed, lookup)
    {
      session := pushed;
      user := UserOf(pushed);
      var _ := LoadProfile(lookup);
      ready := true;
      loading := false;
    }

    /** `signInWithPassword`; the credentials go to the backend only, whose
        answer is `res`. */
    method SignInWithPassword(res: SignInResult, lookup: ProfileLookup) returns (error: Option<AuthError>)
      requires Valid()
      modifies this`ready, this`loading, this`session, this`user, this`profile
      ensures Valid()
      ensures State() == SignInStep(old(State()), res, lookup).state
      ensures error == SignInStep(old(State()), res, lookup).error
    {
      loading := true;
      // the backend's sign-in call completes here, answering `res`
      loading := false;
      match res {
        case SignInFailed(e) =>
          return Some(e);
        case SignedIn(s, u) =>
          session := Some(s);
          user := Some(u);
      }
      var _ := LoadProfile(lookup);
      ready := true;
      error := None;
    }

    /** `signOut`; `failure` is the backend's error, if any. */
    method SignOut(failure: Option<AuthError>) returns (error: Option<AuthError>)
      requires Valid()
      modifies this`loading, this`session, this`user, this`profile
      ensures Valid()
      ensures State() == SignOutStep(old(State()), failure).state
      ensures error == failure
    {
      loading := true;
      // the backend's sign-out call completes here, answering `failure`
      loading := false;
      if failure.Some? {
        return failure;
      }
      session := None;
      user := None;
      profile := None;
      error := None;
    }
  }
}
