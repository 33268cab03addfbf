/**
 * The `useAuth` hook: a mock sign-in that validates the credentials, derives
 * the user and a mock token from the email, and dispatches the auth
 * reducers; plus logout and role switching, which only dispatch.
 */
module UseAuth {
  import opened Wrappers
  import Strings
  import opened AuthSlice

  /** The auth actions the hook dispatches, in order. */
  datatype AuthAction =
    | LoginStartAction
    | LoginSuccessAction(user: User, token: string)
    | LoginFailureAction
    | LogoutAction
    | SwitchRoleAction(role: string, stamp: string)
    | InitializeAuthAction

  /** The user the mock sign-in creates for an email. */
  function LoginUser(email: string, idStamp: string): (u: User)
    ensures u.email == email && u.id == idStamp && u.avatar == None
    ensures |u.name| <= |email| && u.name == email[..|u.name|] && '@' !in u.name
    ensures |u.name| < |email| ==> email[|u.name|] == '@'
    ensures u.role == Hr <==> Strings.Contains(email, "hr")
  {
    User(idStamp, Strings.BeforeFirst(email, '@'), email, RoleMentioned(email), None)
  }

  /** The token the mock sign-in issues for an email: a mock token that names the email's role. */
  function LoginToken(email: string, tokenStamp: string): (t: string)
    ensures |t| > 11 && t[..11] == "mock_token_"
    ensures Strings.Contains(t, RoleName(LoginUser(email, "").role))
  {
    var role := RoleName(RoleMentioned(email));
    Strings.ContainsInfix("mock_token_", role, "_" + tokenStamp);
    assert MockToken(role, tokenStamp) == "mock_token_" + role + ("_" + tokenStamp);
    MockToken(role, tokenStamp)
  }

  /** The outcome of the mock sign-in: a user and token exactly when both fields are non-empty. */
  function LoginOutcome(email: string, password: string, idStamp: string, tokenStamp: string): (r: Option<(User, string)>)
    ensures r.Some? <==> email != "" && password != ""
  {
    if email != "" && password != "" then Some((LoginUser(email, idStamp), LoginToken(email, tokenStamp)))
    else None
  }

  /** `dispatch`: applies one auth action to the store. */
  method Dispatch(store: AuthStore, action: AuthAction)
    modifies store
    ensures action == LoginStartAction ==>
      store.loading && store.user == old(store.user) && store.token == old(store.token)
      && store.isAuthenticated == old(store.isAuthenticated) && store.cookie == old(store.cookie)
    ensures action.LoginSuccessAction? ==>
      store.user == Some(action.user) && store.token == Some(action.token)
      && store.isAuthenticated && !store.loading && store.cookie == store.token
    ensures action == LoginFailureAction || action == LogoutAction ==> store.SignedOut()
    ensures action.SwitchRoleAction? ==>
      store.isAuthenticated == old(store.isAuthenticated) && store.loading == old(store.loading)
      && (MockUser(action.role).None? ==>
            store.user == old(store.user) && store.token == old(store.token) && store.cookie == old(store.cookie))
      && (MockUser(action.role).Some? ==>
            store.user == MockUser(action.role) && store.token == Some(MockToken(action.role, action.stamp))
            && store.cookie == store.token)
    ensures action == InitializeAuthAction ==>
      store.cookie == old(store.cookie) && store.loading == old(store.loading)
      && (Strings.Truthy(old(store.cookie)).None? ==>
            store.user == old(store.user) && store.token == old(store.token)
            && store.isAuthenticated == old(store.isAuthenticated))
      && (Strings.Truthy(old(store.cookie)).Some? ==>
            store.token == old(store.cookie) && store.isAuthenticated
            && store.user == MockUser(RoleName(RoleMentioned(old(store.cookie).value)))
            && store.user.Some? && store.user.value.role == RoleMentioned(old(store.cookie).value))
  {
    match action
    case LoginStartAction => store.LoginStart();
    case LoginSuccessAction(u, t) => store.LoginSuccess(u, t);
    case LoginFailureAction => store.LoginFailure();
    case LogoutAction => store.Logout();
    case SwitchRoleAction(role, stamp) => store.SwitchRole(role, stamp);
    case InitializeAuthAction => store.InitializeAuth();
  }

  /**
   * `login(email, password)`: dispatches `loginStart`, then exactly one of
   * `loginSuccess` and `loginFailure`, and reports which.
   */
  method Login(store: AuthStore, email: string, password: string, idStamp: string, tokenStamp: string)
    returns (ok: bool, dispatched: seq<AuthAction>)
    modifies store
    ensures ok <==> email != "" && password != ""
    ensures ok ==> dispatched == [LoginStartAction, LoginSuccessAction(LoginUser(email, idStamp), LoginToken(email, tokenStamp))]
    ensures !ok ==> dispatched == [LoginStartAction, LoginFailureAction]
    ensures ok ==>
      store.user == Some(LoginUser(email, idStamp)) && store.token == Some(LoginToken(email, tokenStamp))
      && store.isAuthenticated && !store.loading && store.cookie == store.token
    ensures !ok ==> store.SignedOut()
  {
    dispatched := [LoginStartAction];
    Dispatch(store, LoginStartAction);
    var outcome := LoginOutcome(email, password, idStamp, tokenStamp);
    if outcome.Some? {
      var action := LoginSuccessAction(outcome.value.0, outcome.value.1);
      Dispatch(store, action);
      dispatched := dispatched + [action];
      ok := true;
    } else {
      Dispatch(store, LoginFailureAction);
      dispatched := dispatched + [LoginFailureAction];
      ok := false;
    }
  }

  /** `logout()` of the hook: only dispatches the `logout` reducer. */
  method HandleLogout(store: AuthStore) returns (dispatched: seq<AuthAction>)
    modifies store
    ensures dispatched == [LogoutAction] && store.SignedOut()
  {
    Dispatch(store, LogoutAction);
    dispatched := [LogoutAction];
  }

  /** `switchRole(role)` of the hook: only dispatches the `switchRole` reducer. */
  method HandleSwitchRole(store: AuthStore, role: string, stamp: string) returns (dispatched: seq<AuthAction>)
    modifies store
    ensures dispatched == [SwitchRoleAction(role, stamp)]
    ensures store.isAuthenticated == old(store.isAuthenticated) && store.loading == old(store.loading)
    ensures MockUser(role).None? ==>
      store.user == old(store.user) && store.token == old(store.token) && store.cookie == old(store.cookie)
    ensures MockUser(role).Some? ==>
      store.user == MockUser(role) && store.token == Some(MockToken(role, stamp)) && store.cookie == store.token
  {
    Dispatch(store, SwitchRoleAction(role, stamp));
    dispatched := [SwitchRoleAction(role, stamp)];
  }

  /** The token issued at sign-in, read back by `initializeAuth`, gives the role the email gave. */
  lemma LoginTokenRoundTrip(email: string, tokenStamp: string)
    requires IsDigits(tokenStamp)
    ensures RoleMentioned(LoginToken(email, tokenStamp)) == LoginUser(email, "").role
  {
    TokenRoleRoundTrip(RoleMentioned(email), tokenStamp);
  }

  /**
   * After a sign-in, a reload that re-runs `initializeAuth` on the cookie keeps
   * the signed-in role, but the user becomes that role's mock user: the name
   * and id derived from the email are lost.
   */
  method LoginThenReload(store: AuthStore, email: string, password: string, idStamp: string, tokenStamp: string)
    returns (ok: bool)
    requires IsDigits(tokenStamp)
    modifies store
    ensures ok ==> store.isAuthenticated && store.user.Some? && store.user.value.role == RoleMentioned(email)
    ensures ok ==> store.token == Some(LoginToken(email, tokenStamp))
    ensures ok ==> store.user == MockUser(RoleName(RoleMentioned(email)))
  {
    var dispatched;
    ok, dispatched := Login(store, email, password, idStamp, tokenStamp);
    LoginTokenRoundTrip(email, tokenStamp);
    Dispatch(store, InitializeAuthAction);
  }
}
