/** The mock authentication context: an optional user and an optional session,
    replaced wholesale by sign-in / sign-up and cleared by sign-out, plus the
    accessor that refuses to run outside its provider. React state hooks and
    the async wrappers become pure state-to-state functions. */
module Auth {
  import opened Wrappers

  datatype User = User(id: string, email: string)

  datatype Session = Session(user: User)

  /** The state the provider holds: both fields start out null. */
  datatype AuthState = AuthState(session: Option<Session>, user: Option<User>)

  /** The fixed identifier the mock hands to every signed-in user. */
  const MockUserId: string := "1"

  /** The message of the error the accessor throws outside a provider. */
  const OutsideProviderError: string := "useAuth must be used within an AuthProvider"

  /** A session is present exactly when a user is, and it wraps that user. */
  predicate Consistent(s: AuthState) {
    && (s.session.Some? <==> s.user.Some?)
    && (s.session.Some? ==> s.session.value.user == s.user.value)
  }

  predicate SignedIn(s: AuthState) {
    s.user.Some?
  }

  function Initial(): (s: AuthState)
    ensures Consistent(s) && !SignedIn(s)
    ensures s.session.None?
  {
    AuthState(None, None)
  }

  /** Mock sign-in: no credential check, the prior state is overwritten. */
  function SignIn(s: AuthState, email: string, password: string): (r: AuthState)
    ensures Consistent(r) && SignedIn(r)
    ensures r.user.value.email == email
    ensures r.user.value.id == MockUserId
  {
    var mockUser := User(MockUserId, email);
    AuthState(Some(Session(mockUser)), Some(mockUser))
  }

  /** Mock registration: there is no account store, so it is sign-in again. */
  function SignUp(s: AuthState, email: string, password: string): (r: AuthState)
    ensures r == SignIn(s, email, password)
  {
    var mockUser := User(MockUserId, email);
    AuthState(Some(Session(mockUser)), Some(mockUser))
  }

  function SignOut(s: AuthState): (r: AuthState)
    ensures Consistent(r) && !SignedIn(r)
    ensures r.session.None?
    ensures r == Initial()
  {
    AuthState(None, None)
  }

  /** Neither the password nor the state before the call affects sign-in. */
  lemma SignInIgnoresPasswordAndPriorState(s1: AuthState, s2: AuthState, email: string, pw1: string, pw2: string)
    ensures SignIn(s1, email, pw1) == SignIn(s2, email, pw2)
  {
  }

  /** Signing in with the same email twice is the same as once; so is signing out. */
  lemma SignInSignOutIdempotent(s: AuthState, email: string, password: string)
    ensures SignIn(SignIn(s, email, password), email, password) == SignIn(s, email, password)
    ensures SignOut(SignOut(s)) == SignOut(s)
  {
  }

  /** The operations a consumer of the context can invoke. */
  datatype Event =
    | SignInEvent(email: string, password: string)
    | SignUpEvent(email: string, password: string)
    | SignOutEvent

  function Apply(s: AuthState, e: Event): AuthState {
    match e
    case SignInEvent(email, password) => SignIn(s, email, password)
    case SignUpEvent(email, password) => SignUp(s, email, password)
    case SignOutEvent => SignOut(s)
  }

  /** The state after the events, oldest first. */
  function Run(s: AuthState, events: seq<Event>): AuthState
    decreases |events|
  {
    if |events| == 0 then s else Run(Apply(s, events[0]), events[1..])
  }

  /** Every reachable state keeps the user/session pairing. */
  lemma {:induction false} RunPreservesConsistent(s: AuthState, events: seq<Event>)
    requires Consistent(s)
    ensures Consistent(Run(s, events))
    decreases |events|
  {
    if |events| > 0 {
      var next := Apply(s, events[0]);
      assert Consistent(next);
      RunPreservesConsistent(next, events[1..]);
    }
  }

  /** Every operation overwrites the whole state, so after a non-empty run
      only the last event matters. */
  lemma {:induction false} RunDependsOnlyOnLastEvent(s: AuthState, events: seq<Event>)
    requires |events| > 0
    ensures Run(s, events) == Apply(Initial(), events[|events| - 1])
    decreases |events|
  {
    var next := Apply(s, events[0]);
    if |events| == 1 {
      assert Run(next, events[1..]) == next;
    } else {
      RunDependsOnlyOnLastEvent(next, events[1..]);
    }
  }

  /** Every reachable state from the initial one is consistent, and it is
      signed in exactly when the last event was not a sign-out. */
  lemma {:induction false} ReachableStates(events: seq<Event>)
    ensures Consistent(Run(Initial(), events))
    ensures SignedIn(Run(Initial(), events)) <==> |events| > 0 && !events[|events| - 1].SignOutEvent?
  {
    RunPreservesConsistent(Initial(), events);
    if |events| > 0 {
      RunDependsOnlyOnLastEvent(Initial(), events);
    }
  }

  /** The accessor: the context is `undefined` outside a provider. */
  function UseAuth(context: Option<AuthState>): (r: Result<AuthState, string>)
    ensures r.Err? <==> context.None?
    ensures r.Err? ==> r.error == OutsideProviderError
    ensures context.Some? ==> r.Ok? && r.value == context.value
  {
    if context.None? then Err(OutsideProviderError) else Ok(context.value)
  }

  /** What the provider puts into the context: its current state. */
  function Provide(s: AuthState): Option<AuthState> {
    Some(s)
  }

  /** Inside a provider the accessor never fails and sees the provider's state. */
  lemma UseAuthInsideProvider(s: AuthState)
    ensures UseAuth(Provide(s)) == Ok(s)
  {
  }
}
