/**
 * The `auth` slice of the store: the signed-in user, the session token, the
 * authenticated and loading flags, and the `hrms_token` cookie that the
 * reducers write and remove as a side effect (a field here).
 */
module AuthSlice {
  import opened Wrappers
  import Strings

  datatype UserRole = Hr | Interviewer

  datatype User = User(id: string, name: string, email: string, role: UserRole, avatar: Option<string>)

  /** The role as the string used as a `mockUsers` key and inside mock tokens. */
  function RoleName(role: UserRole): string {
    match role
    case Hr => "hr"
    case Interviewer => "interviewer"
  }

  /** `s.includes('hr') ? 'hr' : 'interviewer'`: how a role is read from an email or a token. */
  function RoleMentioned(s: string): UserRole {
    if Strings.Contains(s, "hr") then Hr else Interviewer
  }

  /** `mock_token_${role}_${Date.now()}`, the token the mock login and `switchRole` issue. */
  function MockToken(roleKey: string, stamp: string): string {
    "mock_token_" + roleKey + "_" + stamp
  }

  /** `String(Date.now())`: a run of decimal digits. */
  predicate IsDigits(s: string) {
    forall i :: 0 <= i < |s| ==> '0' <= s[i] <= '9'
  }

  /** `mockUsers[key]`: only the keys "hr" and "interviewer" are present. */
  function MockUser(key: string): (r: Option<User>)
    ensures r.Some? <==> key == RoleName(Hr) || key == RoleName(Interviewer)
    ensures r.Some? ==> RoleName(r.value.role) == key
  {
    if key == "hr" then Some(User("1", "Sarah Johnson", "sarah@company.com", Hr, Some("/api/placeholder/40/40")))
    else if key == "interviewer" then Some(User("2", "Michael Chen", "michael@company.com", Interviewer, Some("/api/placeholder/40/40")))
    else None
  }

  /** A mock token read back by `initializeAuth` yields the role it was issued for. */
  lemma TokenRoleRoundTrip(role: UserRole, stamp: string)
    requires IsDigits(stamp)
    ensures RoleMentioned(MockToken(RoleName(role), stamp)) == role
  {
    var t := MockToken(RoleName(role), stamp);
    match role
    case Hr =>
      assert t[11..13] == "hr";
      Strings.ContainsAt(t, "hr", 11);
    case Interviewer =>
      assert t == "mock_token_interviewer_" + stamp;
      assert forall i :: 0 <= i < |t| ==> t[i] != 'h' by {
        forall i | 0 <= i < |t| ensures t[i] != 'h' {
          if i >= 23 { assert t[i] == stamp[i - 23]; }
        }
      }
      Strings.MissingFirstChar(t, "hr");
  }

  class AuthStore {
    var user: Option<User>
    var isAuthenticated: bool
    var token: Option<string>
    var loading: bool
    /** The `hrms_token` cookie. */
    var cookie: Option<string>

    /** The state reducers leave behind on failure and on logout. */
    predicate SignedOut()
      reads this
    {
      user == None && token == None && !isAuthenticated && !loading && cookie == None
    }

    /** The initial state: the token is read from the cookie, yet nobody is authenticated. */
    constructor (savedCookie: Option<string>)
      ensures cookie == savedCookie && token == Strings.Truthy(savedCookie)
      ensures user == None && !isAuthenticated && !loading
    {
      cookie := savedCookie;
      token := Strings.Truthy(savedCookie);
      user := None;
      isAuthenticated := false;
      loading := false;
    }

    method LoginStart()
      modifies this`loading
      ensures loading
      ensures user == old(user) && token == old(token) && isAuthenticated == old(isAuthenticated) && cookie == old(cookie)
    {
      loading := true;
    }

    method LoginSuccess(u: User, t: string)
      modifies this
      ensures user == Some(u) && token == Some(t) && isAuthenticated && !loading
      ensures cookie == token
    {
      user := Some(u);
      token := Some(t);
      isAuthenticated := true;
      loading := false;
      cookie := Some(t);
    }

    method LoginFailure()
      modifies this
      ensures SignedOut()
    {
      user := None;
      token := None;
      isAuthenticated := false;
      loading := false;
      cookie := None;
    }

    method Logout()
      modifies this
      ensures SignedOut()
    {
      user := None;
      token := None;
      isAuthenticated := false;
      loading := false;
      cookie := None;
    }

    /** Only a role that `mockUsers` knows changes anything; user, token and cookie then move together. */
    method SwitchRole(key: string, stamp: string)
      modifies this
      ensures MockUser(key).None? ==>
        user == old(user) && token == old(token) && cookie == old(cookie)
      ensures MockUser(key).Some? ==>
        user == MockUser(key) && token == Some(MockToken(key, stamp)) && cookie == token
      ensures isAuthenticated == old(isAuthenticated) && loading == old(loading)
    {
      var newUser := MockUser(key);
      if newUser.Some? {
        user := newUser;
        var newToken := MockToken(key, stamp);
        token := Some(newToken);
        cookie := Some(newToken);
      }
    }

    /** With a non-empty cookie, the session is restored from it; the role is read from the token text. */
    method InitializeAuth()
      modifies this
      ensures Strings.Truthy(old(cookie)).None? ==>
        user == old(user) && token == old(token) && isAuthenticated == old(isAuthenticated)
      ensures Strings.Truthy(old(cookie)).Some? ==>
        && token == old(cookie) && isAuthenticated
        && user == MockUser(RoleName(RoleMentioned(old(cookie).value)))
        && user.value.role == RoleMentioned(old(cookie).value)
      ensures cookie == old(cookie) && loading == old(loading)
    {
      var saved := cookie;
      if saved.Some? && saved.value != "" {
        var roleFromToken := RoleMentioned(saved.value);
        user := MockUser(RoleName(roleFromToken));
        token := saved;
        isAuthenticated := true;
      }
    }
  }
}
