/**
 * context/AuthContext.tsx: the session state, its reducer, and the dispatch
 * sequences issued on mount, on sign-in and on sign-out.
 */
module AuthContext {
  import opened Wrappers
  import UserTypes

  type UserEntity = UserTypes.UserEntity

  datatype AuthState = AuthState(
    user: Option<UserEntity>,
    token: Option<string>,
    isAuthenticated: bool,
    loading: bool,
    error: Option<string>)

  /**
   * The reducer's actions. `SET_AUTH` is typed with a string token, but `signIn`
   * reads it with a non-null assertion that does not hold at run time, so the
   * model lets it be absent.
   */
  datatype AuthAction =
    | SetAuth(user: UserEntity, token: Option<string>)
    | Logout
    | SetError(error: Option<string>)
    | SetLoading(loading: bool)

  const InitialState: AuthState := AuthState(None, None, false, false, None)

  /** `authReducer`. */
  function Reduce(s: AuthState, a: AuthAction): AuthState {
    match a
    case SetAuth(u, t) => s.(user := Some(u), token := t, isAuthenticated := true, loading := false, error := None)
    case Logout => InitialState
    case SetError(e) => s.(error := e)
    case SetLoading(l) => s.(loading := l)
  }

  /** The state after dispatching `actions` in order. */
  function Run(s: AuthState, actions: seq<AuthAction>): AuthState
    decreases |actions|
  {
    if actions == [] then s else Run(Reduce(s, actions[0]), actions[1..])
  }

  /** The session invariant: an authenticated session has a user and a token. */
  predicate Inv(s: AuthState) {
    s.isAuthenticated ==> s.user.Some? && s.token.Some?
  }

  /** The action respects its declared type: a `SET_AUTH` carries a token. */
  predicate WellTyped(a: AuthAction) {
    a.SetAuth? ==> a.token.Some?
  }

  /** `SET_AUTH` records the user and token, authenticates, and clears loading and the error. */
  lemma SetAuthAuthenticates(s: AuthState, u: UserEntity, t: Option<string>)
    ensures var r := Reduce(s, SetAuth(u, t));
            r.user == Some(u) && r.token == t && r.isAuthenticated && !r.loading && r.error == None
  {
  }

  /** `LOGOUT` yields the initial state, whatever the state before. */
  lemma LogoutResets(s: AuthState)
    ensures Reduce(s, Logout) == InitialState
    ensures !Reduce(s, Logout).isAuthenticated && Reduce(s, Logout).user == None
  {
  }

  /** `SET_ERROR` changes the error and nothing else. */
  lemma SetErrorOnlyError(s: AuthState, e: Option<string>)
    ensures var r := Reduce(s, SetError(e));
            && r.error == e && r.user == s.user && r.token == s.token
            && r.isAuthenticated == s.isAuthenticated && r.loading == s.loading
  {
  }

  /** `SET_LOADING` changes the loading flag and nothing else. */
  lemma SetLoadingOnlyLoading(s: AuthState, l: bool)
    ensures var r := Reduce(s, SetLoading(l));
            && r.loading == l && r.user == s.user && r.token == s.token
            && r.isAuthenticated == s.isAuthenticated && r.error == s.error
  {
  }

  /** Every well-typed action preserves the invariant, and the initial state has it. */
  lemma ReducePreservesInv(s: AuthState, a: AuthAction)
    requires Inv(s) && WellTyped(a)
    ensures Inv(Reduce(s, a))
    ensures Inv(InitialState)
  {
  }

  /** Any run of well-typed actions from a state with the invariant keeps it. */
  lemma {:induction false} RunPreservesInv(s: AuthState, actions: seq<AuthAction>)
    requires Inv(s)
    requires forall i :: 0 <= i < |actions| ==> WellTyped(actions[i])
    ensures Inv(Run(s, actions))
    decreases |actions|
  {
    if actions != [] {
      ReducePreservesInv(s, actions[0]);
      RunPreservesInv(Reduce(s, actions[0]), actions[1..]);
    }
  }

  /** Dispatching two sequences one after the other is dispatching their concatenation. */
  lemma {:induction false} RunAppend(s: AuthState, a: seq<AuthAction>, b: seq<AuthAction>)
    ensures Run(s, a + b) == Run(Run(s, a), b)
    decreases |a|
  {
    if a != [] {
      assert (a + b)[0] == a[0] && (a + b)[1..] == a[1..] + b;
      RunAppend(Reduce(s, a[0]), a[1..], b);
      assert Run(s, a + b) == Run(Reduce(s, a[0]), a[1..] + b);
    } else {
      assert a + b == b;
    }
  }

  /** Dispatching one action and then another. */
  lemma RunPair(s: AuthState, a: AuthAction, b: AuthAction)
    ensures Run(s, [a, b]) == Reduce(Reduce(s, a), b)
  {
    assert [a, b][1..] == [b];
    assert Run(Reduce(s, a), [b]) == Run(Reduce(Reduce(s, a), b), []);
  }

  // ---------------- the provider's dispatch sequences ----------------

  /** The mount effect: `SET_AUTH` from storage when both a token and a user are stored. */
  function MountDispatches(storedToken: Option<string>, storedUser: Option<UserEntity>): (r: seq<AuthAction>)
    ensures |r| <= 1
    ensures r != [] <==> Truthy(storedToken) && storedUser.Some?
    ensures r != [] ==> r[0] == SetAuth(storedUser.value, storedToken) && WellTyped(r[0])
  {
    if Truthy(storedToken) && storedUser.Some? then [SetAuth(storedUser.value, storedToken)] else []
  }

  /** How the sign-in call ended: with the mapped user, or by throwing (`Some(message)` for an `Error`). */
  datatype SignInOutcome = Authenticated(user: UserEntity) | Threw(errorMessage: Option<string>)

  const SignInFallbackMessage: string := "Error al iniciar sesión"

  /** The message `signIn` reports for what was thrown. */
  function SignInMessage(thrown: Option<string>): (m: string)
    ensures thrown.Some? ==> m == thrown.value
    ensures thrown.None? ==> m == SignInFallbackMessage
  {
    thrown.GetOr(SignInFallbackMessage)
  }

  /** `signIn`: loading on, then `SET_AUTH` with the token read back from storage, or `SET_ERROR`. */
  function SignInDispatches(storedToken: Option<string>, outcome: SignInOutcome): seq<AuthAction> {
    match outcome
    case Authenticated(u) => [SetLoading(true), SetAuth(u, storedToken)]
    case Threw(e) => [SetLoading(true), SetError(Some(SignInMessage(e)))]
  }

  /** `signOut`: storage cleared, then `LOGOUT`. */
  const SignOutDispatches: seq<AuthAction> := [Logout]

  /** On mount the state changes only when both a token and a user are stored; then the session is restored. */
  lemma MountRestores(s: AuthState, t: Option<string>, u: Option<UserEntity>)
    ensures !(Truthy(t) && u.Some?) ==> Run(s, MountDispatches(t, u)) == s
    ensures Truthy(t) && u.Some? ==>
              Run(s, MountDispatches(t, u)) == Reduce(s, SetAuth(u.value, t)) && Inv(Run(s, MountDispatches(t, u)))
  {
  }

  /** A failed sign-in leaves loading on, records the message, and keeps the session as it was. */
  lemma FailedSignInKeepsLoading(s: AuthState, t: Option<string>, e: Option<string>)
    ensures var r := Run(s, SignInDispatches(t, Threw(e)));
            && r.loading && r.error == Some(SignInMessage(e))
            && r.user == s.user && r.token == s.token && r.isAuthenticated == s.isAuthenticated
  {
    RunPair(s, SetLoading(true), SetError(Some(SignInMessage(e))));
  }

  /** A successful sign-in authenticates the returned user with whatever token storage held. */
  lemma SignInAuthenticates(s: AuthState, t: Option<string>, u: UserEntity)
    ensures var r := Run(s, SignInDispatches(t, Authenticated(u)));
            r.user == Some(u) && r.token == t && r.isAuthenticated && !r.loading && r.error == None
  {
    RunPair(s, SetLoading(true), SetAuth(u, t));
  }

  /** Signing out returns to the initial state from any state, and a later sign-in starts from there. */
  lemma SignOutThenSignIn(s: AuthState, t: Option<string>, o: SignInOutcome)
    ensures Run(s, SignOutDispatches) == InitialState
    ensures Run(s, SignOutDispatches + SignInDispatches(t, o)) == Run(InitialState, SignInDispatches(t, o))
  {
    assert Run(s, SignOutDispatches) == Run(Reduce(s, Logout), []);
    RunAppend(s, SignOutDispatches, SignInDispatches(t, o));
  }

  /**
   * As written, nothing in the front end stores the token, so a fresh sign-in reads
   * none back and ends authenticated without a token.
   */
  lemma SignInWithoutStoredToken(u: UserEntity)
    ensures var r := Run(InitialState, SignInDispatches(None, Authenticated(u)));
            r.isAuthenticated && r.token == None && !Inv(r)
  {
    SignInAuthenticates(InitialState, None, u);
  }

  /** The evidently intended sign-in: the token comes from the authenticated user the service returned. */
  function SignInDispatchesFixed(outcome: SignInOutcome): (r: seq<AuthAction>)
    ensures |r| == 2 && r[0] == SetLoading(true)
    ensures forall i :: 0 <= i < |r| ==> WellTyped(r[i])
  {
    match outcome
    case Authenticated(u) => [SetLoading(true), SetAuth(u, Some(u.token.GetOr("")))]
    case Threw(e) => [SetLoading(true), SetError(Some(SignInMessage(e)))]
  }

  /** With the fix, sign-in keeps the invariant from any state that has it, and authenticates the user. */
  lemma SignInFixedKeepsInv(s: AuthState, o: SignInOutcome)
    requires Inv(s)
    ensures Inv(Run(s, SignInDispatchesFixed(o)))
    ensures o.Authenticated? ==> Run(s, SignInDispatchesFixed(o)).isAuthenticated
                                 && Run(s, SignInDispatchesFixed(o)).user == Some(o.user)
  {
    RunPreservesInv(s, SignInDispatchesFixed(o));
    var r := SignInDispatchesFixed(o);
    RunPair(s, r[0], r[1]);
    assert r == [r[0], r[1]];
  }

  /** The provider: its reducer state and the two `localStorage` entries it reads. */
  class AuthProvider {
    var state: AuthState
    var storedToken: Option<string>
    var storedUser: Option<UserEntity>

    /** `useReducer(authReducer, initialState)` over whatever storage holds. */
    constructor (token: Option<string>, user: Option<UserEntity>)
      ensures state == InitialState && storedToken == token && storedUser == user
    {
      state := InitialState;
      storedToken := token;
      storedUser := user;
    }

    method Dispatch(a: AuthAction)
      modifies this
      ensures state == Reduce(old(state), a)
      ensures storedToken == old(storedToken) && storedUser == old(storedUser)
    {
      state := Reduce(state, a);
    }

    /** The mount effect. */
    method Mount()
      modifies this
      ensures state == Run(old(state), MountDispatches(storedToken, storedUser))
      ensures storedToken == old(storedToken) && storedUser == old(storedUser)
    {
      var token := storedToken;
      var user := storedUser;
      if token.Some? && token.value != "" && user.Some? {
        Dispatch(SetAuth(user.value, token));
        assert Run(old(state), [SetAuth(user.value, token)]) == Run(state, []);
      }
    }

    /** `signIn`, given how the service call ended. */
    method SignIn(outcome: SignInOutcome)
      modifies this
      ensures state == Run(old(state), SignInDispatches(storedToken, outcome))
      ensures storedToken == old(storedToken) && storedUser == old(storedUser)
    {
      Dispatch(SetLoading(true));
      match outcome {
        case Authenticated(user) =>
          var token := storedToken;
          Dispatch(SetAuth(user, token));
          RunPair(old(state), SetLoading(true), SetAuth(user, token));
        case Threw(e) =>
          var message := SignInFallbackMessage;
          if e.Some? {
            message := e.value;
          }
          Dispatch(SetError(Some(message)));
          RunPair(old(state), SetLoading(true), SetError(Some(message)));
      }
    }

    /** `signOut`. */
    method SignOut()
      modifies this
      ensures storedToken == None && storedUser == None
      ensures state == Run(old(state), SignOutDispatches) && state == InitialState
    {
      storedToken := None;
      storedUser := None;
      Dispatch(Logout);
      assert Run(old(state), SignOutDispatches) == Run(state, []);
    }
  }
}
