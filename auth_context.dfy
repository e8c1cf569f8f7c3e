/** The authentication context of the single-page frontend
    (`src/context/AuthContext.tsx`): the reducer over the authentication state,
    and the provider that drives it through sequences of actions around calls
    to the authentication service. The service calls, local storage and toasts
    are not modelled: each call's outcome is a parameter. */
module AuthContext {
  import opened Wrappers

  /** `User['role']`. */
  datatype Role = Client | Expert | Admin

  /** The fields of a `User` that the modelled code reads. */
  datatype User = User(id: string, name: string, email: string, role: Role)

  /** The `{ user, token }` payload of a successful login or registration. */
  datatype Session = Session(user: User, token: string)

  /** An error thrown by the authentication service. */
  datatype Error = Error(message: string)

  /** `AuthState`. */
  datatype AuthState = AuthState(
    user: Option<User>,
    isAuthenticated: bool,
    isLoading: bool,
    token: Option<string>,
    walletConnected: bool,
    walletAddress: Option<string>)

  /** The actions the reducer recognises, and `Other` for an action of any
      other type. */
  datatype AuthAction =
    | SetLoading(loading: bool)
    | LoginSuccess(session: Session)
    | Logout
    | ConnectWallet(address: string)
    | DisconnectWallet
    | Other

  /** A disconnected wallet has no address. */
  predicate WalletConsistent(s: AuthState)
  {
    !s.walletConnected ==> s.walletAddress.None?
  }

  /** `initialState`, given the token local storage held at start-up. */
  function InitialState(storedToken: Option<string>): (s: AuthState)
    ensures s.isLoading && !s.isAuthenticated && s.user.None? && s.token == storedToken
    ensures !s.walletConnected && WalletConsistent(s)
  {
    AuthState(None, false, true, storedToken, false, None)
  }

  /** `authReducer`. */
  function Reduce(s: AuthState, a: AuthAction): AuthState
  {
    match a
    case SetLoading(loading) =>
      s.(isLoading := loading)
    case LoginSuccess(session) =>
      s.(user := Some(session.user), token := Some(session.token),
         isAuthenticated := true, isLoading := false)
    case Logout =>
      s.(user := None, token := None, isAuthenticated := false,
         walletConnected := false, walletAddress := None)
    case ConnectWallet(address) =>
      s.(walletConnected := true, walletAddress := Some(address))
    case DisconnectWallet =>
      s.(walletConnected := false, walletAddress := None)
    case Other =>
      s
  }

  /** `SET_LOADING` changes the loading flag and nothing else. */
  lemma SetLoadingOnlyChangesLoading(s: AuthState, loading: bool)
    ensures Reduce(s, SetLoading(loading)).isLoading == loading
    ensures Reduce(s, SetLoading(loading)).(isLoading := s.isLoading) == s
  {
  }

  /** `LOGIN_SUCCESS` installs the session's user and token, marks the state
      authenticated and not loading, and leaves the wallet alone. */
  lemma LoginSuccessInstallsSession(s: AuthState, session: Session)
    ensures var r := Reduce(s, LoginSuccess(session));
      && r.user == Some(session.user) && r.token == Some(session.token)
      && r.isAuthenticated && !r.isLoading
      && r.walletConnected == s.walletConnected && r.walletAddress == s.walletAddress
  {
  }

  /** `LOGOUT` forgets the user, the token and the wallet, keeps the loading
      flag, and doing it twice is the same as doing it once. */
  lemma LogoutClearsSession(s: AuthState)
    ensures var r := Reduce(s, Logout);
      && r.user.None? && r.token.None? && !r.isAuthenticated
      && !r.walletConnected && r.walletAddress.None?
      && r.isLoading == s.isLoading
      && Reduce(r, Logout) == r
  {
  }

  /** `CONNECT_WALLET` records the address without touching the session. */
  lemma ConnectWalletKeepsSession(s: AuthState, address: string)
    ensures var r := Reduce(s, ConnectWallet(address));
      && r.walletConnected && r.walletAddress == Some(address)
      && r.(walletConnected := s.walletConnected, walletAddress := s.walletAddress) == s
  {
  }

  /** `DISCONNECT_WALLET` clears the wallet fields and nothing else. */
  lemma DisconnectWalletOnlyClearsWallet(s: AuthState)
    ensures var r := Reduce(s, DisconnectWallet);
      && !r.walletConnected && r.walletAddress.None?
      && r.(walletConnected := s.walletConnected, walletAddress := s.walletAddress) == s
  {
  }

  /** An action of any other type leaves the state as it was. */
  lemma OtherActionIsIgnored(s: AuthState)
    ensures Reduce(s, Other) == s
  {
  }

  /** Only `LOGIN_SUCCESS` authenticates and only `LOGOUT` deauthenticates;
      only those two change the token, and only they and `SET_LOADING` the
      loading flag. */
  lemma OnlySessionActionsChangeAuthentication(s: AuthState, a: AuthAction)
    ensures var r := Reduce(s, a);
      && (r.isAuthenticated <==> a.LoginSuccess? || (s.isAuthenticated && !a.Logout?))
      && (r.token != s.token ==> a.LoginSuccess? || a.Logout?)
      && (r.isLoading != s.isLoading ==> a.SetLoading? || a.LoginSuccess?)
  {
  }

  /** Every action keeps "a disconnected wallet has no address". */
  lemma ReducePreservesWalletConsistency(s: AuthState, a: AuthAction)
    requires WalletConsistent(s)
    ensures WalletConsistent(Reduce(s, a))
  {
  }

  /** The state after the reducer has processed `actions` in order. */
  function RunActions(s: AuthState, actions: seq<AuthAction>): AuthState
    decreases |actions|
  {
    if actions == [] then s
    else Reduce(RunActions(s, actions[..|actions| - 1]), actions[|actions| - 1])
  }

  /** Processing one more action after `actions`. */
  lemma RunActionsStep(s: AuthState, actions: seq<AuthAction>, a: AuthAction)
    ensures RunActions(s, actions + [a]) == Reduce(RunActions(s, actions), a)
  {
    assert (actions + [a])[..|actions|] == actions;
  }

  /** Running two lists of actions one after the other is running their
      concatenation. */
  lemma {:induction false} RunActionsAppend(s: AuthState, xs: seq<AuthAction>, ys: seq<AuthAction>)
    ensures RunActions(s, xs + ys) == RunActions(RunActions(s, xs), ys)
    decreases |ys|
  {
    if ys == [] {
      assert xs + ys == xs;
    } else {
      var init, last := ys[..|ys| - 1], ys[|ys| - 1];
      assert ys == init + [last];
      assert xs + ys == (xs + init) + [last];
      RunActionsStep(s, xs + init, last);
      RunActionsAppend(s, xs, init);
      RunActionsStep(RunActions(s, xs), init, last);
    }
  }

  /** No sequence of actions can leave an address behind a disconnected
      wallet, starting from a state where that holds. */
  lemma {:induction false} RunActionsPreservesWalletConsistency(s: AuthState, actions: seq<AuthAction>)
    requires WalletConsistent(s)
    ensures WalletConsistent(RunActions(s, actions))
    decreases |actions|
  {
    if actions != [] {
      var init := actions[..|actions| - 1];
      RunActionsPreservesWalletConsistency(s, init);
      ReducePreservesWalletConsistency(RunActions(s, init), actions[|actions| - 1]);
    }
  }

  /** The actions `login`, `loginWithGoogle` and `register` dispatch when the
      service call ends with `response`: loading on, the session if the call
      returned one, loading off (the `finally` block). */
  function SessionRequestActions(response: Result<Session, Error>): seq<AuthAction>
  {
    [SetLoading(true)]
      + (if response.Success? then [LoginSuccess(response.value)] else [])
      + [SetLoading(false)]
  }

  /** `SessionRequestActions` processed one action at a time. */
  lemma SessionRequestSteps(s: AuthState, response: Result<Session, Error>)
    ensures var on := Reduce(s, SetLoading(true));
      RunActions(s, SessionRequestActions(response))
        == if response.Success? then Reduce(Reduce(on, LoginSuccess(response.value)), SetLoading(false))
           else Reduce(on, SetLoading(false))
  {
    var on := [SetLoading(true)];
    RunActionsStep(s, [], SetLoading(true));
    if response.Success? {
      var session := LoginSuccess(response.value);
      RunActionsStep(s, on, session);
      RunActionsStep(s, on + [session], SetLoading(false));
      assert SessionRequestActions(response) == on + [session] + [SetLoading(false)];
    } else {
      RunActionsStep(s, on, SetLoading(false));
      assert SessionRequestActions(response) == on + [SetLoading(false)];
    }
  }

  /** A login or registration always ends not loading. If the call threw, the
      state is as before apart from the loading flag; if it returned a session,
      that session is installed and the wallet is untouched. */
  lemma SessionRequestOutcome(s: AuthState, response: Result<Session, Error>)
    ensures var r := RunActions(s, SessionRequestActions(response));
      && !r.isLoading
      && (response.Failure? ==> r == s.(isLoading := false))
      && (response.Success? ==>
            && r.user == Some(response.value.user)
            && r.token == Some(response.value.token)
            && r.isAuthenticated
            && r.walletConnected == s.walletConnected
            && r.walletAddress == s.walletAddress)
  {
    SessionRequestSteps(s, response);
  }

  /** The actions `logout` dispatches: `LOGOUT` once the service call returned;
      nothing if it threw (the error is only logged). */
  function LogoutActions(outcome: Outcome<Error>): seq<AuthAction>
  {
    if outcome.Pass? then [Logout] else []
  }

  /** The actions `connectWallet` dispatches. */
  function ConnectWalletActions(response: Result<string, Error>): seq<AuthAction>
  {
    if response.Success? then [ConnectWallet(response.value)] else []
  }

  /** `logout` logs out exactly when the service call returned; when it
      threw, the state is left as it was. */
  lemma LogoutOutcome(s: AuthState, outcome: Outcome<Error>)
    ensures var r := RunActions(s, LogoutActions(outcome));
      && (outcome.Pass? ==> r == Reduce(s, Logout)
                            && !r.isAuthenticated && r.user.None? && r.token.None?
                            && !r.walletConnected && r.walletAddress.None?
                            && r.isLoading == s.isLoading)
      && (outcome.Fail? ==> r == s)
  {
    if outcome.Pass? {
      RunActionsStep(s, [], Logout);
      assert LogoutActions(outcome) == [] + [Logout];
    }
  }

  /** `connectWallet` records the returned address and leaves the session
      alone; when the call threw, the state is left as it was. */
  lemma ConnectWalletOutcome(s: AuthState, response: Result<string, Error>)
    ensures var r := RunActions(s, ConnectWalletActions(response));
      && (response.Success? ==> r.walletConnected && r.walletAddress == Some(response.value)
                                && r.user == s.user && r.token == s.token
                                && r.isAuthenticated == s.isAuthenticated)
      && (response.Failure? ==> r == s)
  {
    if response.Success? {
      RunActionsStep(s, [], ConnectWallet(response.value));
      assert ConnectWalletActions(response) == [] + [ConnectWallet(response.value)];
    }
  }

  /** `if (state.token)`: a token is present and, as JavaScript tests
      strings, not the empty string. */
  predicate Truthy(token: Option<string>)
  {
    token.Some? && token.value != ""
  }

  /** The actions the start-up effect `initAuth` dispatches: with a truthy
      token, the current user's session if the service returned one and a
      logout if it threw; then loading off. */
  function InitAuthActions(token: Option<string>, currentUser: Result<User, Error>): (r: seq<AuthAction>)
    ensures 1 <= |r| <= 2 && r[|r| - 1] == SetLoading(false)
    ensures |r| == 2 <==> Truthy(token)
  {
    (if !Truthy(token) then []
     else if currentUser.Success? then [LoginSuccess(Session(currentUser.value, token.value))]
     else [Logout])
      + [SetLoading(false)]
  }

  /** After start-up the context is no longer loading, and it is
      authenticated exactly when a non-empty token was stored and the service
      recognised it; a rejected token is forgotten. An empty stored token is
      never sent to the service. */
  lemma StartupOutcome(storedToken: Option<string>, currentUser: Result<User, Error>)
    ensures var r := RunActions(InitialState(storedToken), InitAuthActions(storedToken, currentUser));
      && !r.isLoading
      && (r.isAuthenticated <==> Truthy(storedToken) && currentUser.Success?)
      && (Truthy(storedToken) && currentUser.Failure? ==> r.token.None?)
      && (!Truthy(storedToken) ==> r.token == storedToken)
      && WalletConsistent(r)
  {
    var s := InitialState(storedToken);
    var off := SetLoading(false);
    if !Truthy(storedToken) {
      RunActionsStep(s, [], off);
      assert InitAuthActions(storedToken, currentUser) == [] + [off];
    } else {
      var first := if currentUser.Success?
        then LoginSuccess(Session(currentUser.value, storedToken.value)) else Logout;
      RunActionsStep(s, [], first);
      RunActionsStep(s, [first], off);
      assert InitAuthActions(storedToken, currentUser) == [first] + [off];
    }
  }

  /** The empty token a Google login stores is never checked at start-up:
      whatever the service would answer, the context ends signed out, still
      holding the empty token. */
  lemma EmptyStoredTokenStaysSignedOut(currentUser: Result<User, Error>)
    ensures var r := RunActions(InitialState(Some("")), InitAuthActions(Some(""), currentUser));
      && !r.isAuthenticated && r.user.None? && r.token == Some("") && !r.isLoading
  {
    var s := InitialState(Some(""));
    RunActionsStep(s, [], SetLoading(false));
    assert InitAuthActions(Some(""), currentUser) == [] + [SetLoading(false)];
  }

  /** The provider: the reducer state React holds, and the operations that
      dispatch actions to it. Every operation keeps `WalletConsistent`. */
  class AuthProvider {
    var state: AuthState

    /** `useReducer(authReducer, initialState)`. */
    constructor (storedToken: Option<string>)
      ensures state == InitialState(storedToken)
      ensures WalletConsistent(state)
    {
      state := InitialState(storedToken);
    }

    /** `dispatch`: the reducer's next state replaces the held one. */
    method Dispatch(a: AuthAction)
      requires WalletConsistent(state)
      modifies this
      ensures state == Reduce(old(state), a)
      ensures WalletConsistent(state)
    {
      ReducePreservesWalletConsistency(state, a);
      state := Reduce(state, a);
    }

    /** `Dispatch`, recording the action in a ghost log of the actions
        dispatched since the state was `start`. */
    method DispatchLogged(a: AuthAction, ghost start: AuthState, ghost log: seq<AuthAction>)
      returns (ghost log': seq<AuthAction>)
      requires state == RunActions(start, log)
      requires WalletConsistent(state)
      modifies this
      ensures log' == log + [a]
      ensures state == RunActions(start, log')
      ensures WalletConsistent(state)
    {
      RunActionsStep(start, log, a);
      Dispatch(a);
      log' := log + [a];
    }

    /** The shared shape of `login`, `loginWithGoogle` and `register`: the
        service's `response` is returned, or its error rethrown. */
    method RequestSession(response: Result<Session, Error>) returns (r: Result<Session, Error>)
      requires WalletConsistent(state)
      modifies this
      ensures r == response
      ensures state == RunActions(old(state), SessionRequestActions(response))
      ensures WalletConsistent(state)
    {
      SessionRequestSteps(state, response);
      Dispatch(SetLoading(true));
      if response.Success? {
        Dispatch(LoginSuccess(response.value));
      }
      Dispatch(SetLoading(false));
      r := response;
    }

    /** `login`. */
    method Login(response: Result<Session, Error>) returns (r: Result<Session, Error>)
      requires WalletConsistent(state)
      modifies this
      ensures r == response
      ensures state == RunActions(old(state), SessionRequestActions(response))
      ensures WalletConsistent(state)
    {
      r := RequestSession(response);
    }

    /** `loginWithGoogle`. */
    method LoginWithGoogle(response: Result<Session, Error>) returns (r: Result<Session, Error>)
      requires WalletConsistent(state)
      modifies this
      ensures r == response
      ensures state == RunActions(old(state), SessionRequestActions(response))
      ensures WalletConsistent(state)
    {
      r := RequestSession(response);
    }

    /** `register`. */
    method Register(response: Result<Session, Error>) returns (r: Result<Session, Error>)
      requires WalletConsistent(state)
      modifies this
      ensures r == response
      ensures state == RunActions(old(state), SessionRequestActions(response))
      ensures WalletConsistent(state)
    {
      r := RequestSession(response);
    }

    /** `logout`: never throws. */
    method LogoutUser(outcome: Outcome<Error>)
      requires WalletConsistent(state)
      modifies this
      ensures state == RunActions(old(state), LogoutActions(outcome))
      ensures WalletConsistent(state)
    {
      ghost var start, log := state, [];
      if outcome.Pass? {
        log := DispatchLogged(Logout, start, log);
      }
      assert log == LogoutActions(outcome);
    }

    /** `connectWallet`: the service's address is returned, or its error
        rethrown. */
    method ConnectWalletRequest(response: Result<string, Error>) returns (r: Result<string, Error>)
      requires WalletConsistent(state)
      modifies this
      ensures r == response
      ensures state == RunActions(old(state), ConnectWalletActions(response))
      ensures WalletConsistent(state)
    {
      ghost var start, log := state, [];
      if response.Success? {
        log := DispatchLogged(ConnectWallet(response.value), start, log);
      }
      r := response;
      assert log == ConnectWalletActions(response);
    }

    /** `initAuth`, run with the token currently held; an absent or empty
        token skips the service call. */
    method InitAuth(currentUser: Result<User, Error>)
      requires WalletConsistent(state)
      modifies this
      ensures state == RunActions(old(state), InitAuthActions(old(state).token, currentUser))
      ensures WalletConsistent(state)
    {
      ghost var start, log := state, [];
      var token := state.token;
      if Truthy(token) {
        if currentUser.Success? {
          log := DispatchLogged(LoginSuccess(Session(currentUser.value, token.value)), start, log);
        } else {
          log := DispatchLogged(Logout, start, log);
        }
      }
      log := DispatchLogged(SetLoading(false), start, log);
      assert log == InitAuthActions(token, currentUser);
    }
  }
}
