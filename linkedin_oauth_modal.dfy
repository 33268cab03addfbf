/**
 * The LinkedIn connection panel: reading the OAuth callback from the page's
 * query string, the connect gate, disconnecting, the status badge and the
 * profile name shown. Service calls arrive as their settled results; the
 * page's query string and `window.location.href` are fields.
 */
module LinkedInOAuthModal {
  import opened Wrappers
  import Strings
  import ApiService

  datatype Profile = Profile(firstName: Option<string>, lastName: Option<string>, profilePicture: Option<string>)

  datatype LinkedInStatus = LinkedInStatus(
    isConnected: bool,
    linkedinEmail: Option<string>,
    lastConnected: Option<string>,
    tokenValid: bool,
    profile: Option<Profile>)

  datatype StatusResponse = StatusResponse(success: bool, message: string, data: LinkedInStatus)
  datatype AuthStartResponse = AuthStartResponse(success: bool, authUrl: string, message: string)
  datatype DisconnectResponse = DisconnectResponse(success: bool, message: string)

  /** What a page load's query string says about a finished OAuth handshake. */
  datatype Callback = Connected(description: string) | ConnectFailed(error: string) | NoCallback

  datatype Badge = Checking | NotConnected | TokenExpired | ConnectedBadge

  const DefaultConnectedText: string := "Your LinkedIn account has been connected successfully."
  const DefaultUserName: string := "LinkedIn User"
  const StatusFetchFailedText: string := "Failed to fetch LinkedIn connection status."
  const StartFailedText: string := "Failed to start LinkedIn authorization"
  const StartRetryText: string := "Failed to start LinkedIn authorization. Please try again."
  const DisconnectFailedText: string := "Failed to disconnect LinkedIn account."

  /** A JavaScript truthy string: present and non-empty. */
  predicate Filled(s: Option<string>) {
    Strings.Truthy(s).Some?
  }

  /** `s || ''`. */
  function OrEmpty(s: Option<string>): string {
    if Filled(s) then s.value else ""
  }

  /** `urlParams.get(key)`: the value, if the key is present. */
  function Param(query: map<string, string>, key: string): Option<string> {
    if key in query then Some(query[key]) else None
  }

  /** `checkOAuthCallback`'s decision: `linkedin_connected === 'true'` wins over any error, then a non-empty `linkedin_error`. */
  function ClassifyCallback(query: map<string, string>): (c: Callback)
    ensures c.Connected? <==> Param(query, "linkedin_connected") == Some("true")
    ensures c.ConnectFailed? <==> Param(query, "linkedin_connected") != Some("true") && Filled(Param(query, "linkedin_error"))
    ensures c.Connected? ==> c.description == if Filled(Param(query, "message")) then query["message"] else DefaultConnectedText
    ensures c.ConnectFailed? ==> c.error == query["linkedin_error"]
  {
    if Param(query, "linkedin_connected") == Some("true") then
      Connected(if Filled(Param(query, "message")) then query["message"] else DefaultConnectedText)
    else if Filled(Param(query, "linkedin_error")) then
      ConnectFailed(query["linkedin_error"])
    else NoCallback
  }

  /** `!status?.isConnected || !status?.tokenValid`: both the connect gate and the condition that shows the Connect button. */
  function ConnectAllowed(status: Option<LinkedInStatus>): (allowed: bool)
    ensures !allowed <==> status.Some? && status.value.isConnected && status.value.tokenValid
  {
    status.None? || !status.value.isConnected || !status.value.tokenValid
  }

  /** `getStatusBadge`: loading first, then not connected, then an expired token, else connected. */
  function StatusBadge(statusLoading: bool, status: Option<LinkedInStatus>): (b: Badge)
    ensures b == Checking <==> statusLoading
    ensures b == NotConnected <==> !statusLoading && (status.None? || !status.value.isConnected)
    ensures b == TokenExpired <==> !statusLoading && status.Some? && status.value.isConnected && !status.value.tokenValid
    ensures b == ConnectedBadge <==> !statusLoading && !ConnectAllowed(status)
  {
    if statusLoading then Checking
    else if status.None? || !status.value.isConnected then NotConnected
    else if !status.value.tokenValid then TokenExpired
    else ConnectedBadge
  }

  /** Whether the profile carries a first or a last name worth showing. */
  predicate HasName(status: Option<LinkedInStatus>) {
    status.Some? && status.value.profile.Some?
    && (Filled(status.value.profile.value.firstName) || Filled(status.value.profile.value.lastName))
  }

  /**
   * `getProfileDisplayName`: the trimmed "first last" when either name is set,
   * else the email, else a fixed name.
   */
  function ProfileDisplayName(status: Option<LinkedInStatus>): (name: string)
    ensures HasName(status) ==> name == [] || (!Strings.IsSpace(name[0]) && !Strings.IsSpace(name[|name| - 1]))
    ensures HasName(status) ==>
      exists i :: Strings.TrimmedAt(OrEmpty(status.value.profile.value.firstName) + " " + OrEmpty(status.value.profile.value.lastName), name, i)
    ensures !HasName(status) && status.Some? && Filled(status.value.linkedinEmail) ==> name == status.value.linkedinEmail.value
    ensures !HasName(status) && !(status.Some? && Filled(status.value.linkedinEmail)) ==> name == DefaultUserName
  {
    var profile := if status.Some? then status.value.profile else None;
    if profile.Some? && (Filled(profile.value.firstName) || Filled(profile.value.lastName)) then
      Strings.Trim(OrEmpty(profile.value.firstName) + " " + OrEmpty(profile.value.lastName))
    else if status.Some? && Filled(status.value.linkedinEmail) then status.value.linkedinEmail.value
    else DefaultUserName
  }

  /** A word with no whitespace at its ends. */
  predicate Clean(s: string) {
    s != [] && !Strings.IsSpace(s[0]) && !Strings.IsSpace(s[|s| - 1])
  }

  /** Two clean names joined by a space are already trimmed. */
  lemma JoinedNamesTrimmed(f: string, l: string)
    requires Clean(f) && Clean(l)
    ensures Strings.Trim(f + " " + l) == f + " " + l
  {
    var s := f + " " + l;
    assert s[0] == f[0] && s[|s| - 1] == l[|l| - 1];
    Strings.TrimUntouched(s);
  }

  /** A clean first name followed by the separator and no last name trims to the first name. */
  lemma FirstNameTrimmed(f: string)
    requires Clean(f)
    ensures Strings.Trim(f + " " + "") == f
  {
    var s := f + " " + "";
    assert Strings.TrimStart(s) == s;
    assert s[..|s| - 1] == f;
    assert Strings.TrimEnd(s) == Strings.TrimEnd(f);
    Strings.TrimUntouched(f);
  }

  /** The separator followed by a clean last name trims to the last name. */
  lemma LastNameTrimmed(l: string)
    requires Clean(l)
    ensures Strings.Trim("" + " " + l) == l
  {
    var s := "" + " " + l;
    assert s[1..] == l;
    assert Strings.TrimStart(s) == Strings.TrimStart(l);
    Strings.TrimUntouched(l);
  }

  /** With clean names, the display name is "first last", "first" or "last": the space is dropped when a name is missing. */
  lemma DisplayNameFromNames(status: LinkedInStatus, first: Option<string>, last: Option<string>)
    requires status.profile.Some? && status.profile.value.firstName == first && status.profile.value.lastName == last
    requires Filled(first) ==> Clean(first.value)
    requires Filled(last) ==> Clean(last.value)
    ensures Filled(first) && Filled(last) ==> ProfileDisplayName(Some(status)) == first.value + " " + last.value
    ensures Filled(first) && !Filled(last) ==> ProfileDisplayName(Some(status)) == first.value
    ensures !Filled(first) && Filled(last) ==> ProfileDisplayName(Some(status)) == last.value
    ensures !Filled(first) && !Filled(last) ==>
      ProfileDisplayName(Some(status)) == if Filled(status.linkedinEmail) then status.linkedinEmail.value else DefaultUserName
  {
    var name := ProfileDisplayName(Some(status));
    if Filled(first) && Filled(last) {
      assert name == Strings.Trim(first.value + " " + last.value);
      JoinedNamesTrimmed(first.value, last.value);
    } else if Filled(first) {
      assert name == Strings.Trim(first.value + " " + "");
      FirstNameTrimmed(first.value);
    } else if Filled(last) {
      assert name == Strings.Trim("" + " " + last.value);
      LastNameTrimmed(last.value);
    } else {
      assert !HasName(Some(status));
    }
  }

  /** Without a status, the name is the fixed fallback and the badge says not connected. */
  lemma NoStatusShown(statusLoading: bool)
    ensures ProfileDisplayName(None) == DefaultUserName
    ensures !statusLoading ==> StatusBadge(statusLoading, None) == NotConnected
    ensures ConnectAllowed(None)
  {
  }

  class OAuthModal {
    var status: Option<LinkedInStatus>
    var statusLoading: bool
    var connecting: bool
    var loading: bool
    /** The page's query parameters. */
    var search: map<string, string>
    /** Where `window.location.href` was last sent, if anywhere. */
    var location: Option<string>

    constructor (query: map<string, string>)
      ensures status == None && !statusLoading && !connecting && !loading
      ensures search == query && location == None
    {
      status := None;
      statusLoading := false;
      connecting := false;
      loading := false;
      search := query;
      location := None;
    }

    /**
     * `checkOAuthCallback`: on success or failure the query string is scrubbed
     * (and on success a status refresh is requested); otherwise it is left as is.
     */
    method CheckOAuthCallback() returns (outcome: Callback, refresh: bool)
      modifies this`search
      ensures outcome == ClassifyCallback(old(search))
      ensures outcome.NoCallback? ==> search == old(search)
      ensures !outcome.NoCallback? ==> search == map[]
      ensures refresh <==> outcome.Connected?
    {
      outcome := ClassifyCallback(search);
      refresh := outcome.Connected?;
      if !outcome.NoCallback? {
        search := map[];
      }
    }

    /** `fetchLinkedInStatus`: a successful reply replaces the status; anything else keeps it and raises a notice. */
    method FetchStatus(reply: Result<StatusResponse, ApiService.ApiError>) returns (notice: Option<string>)
      modifies this`status, this`statusLoading
      ensures !statusLoading
      ensures reply.Success? && reply.value.success ==> status == Some(reply.value.data)
      ensures !(reply.Success? && reply.value.success) ==> status == old(status)
      ensures notice == if reply.Failure? then Some(StatusFetchFailedText) else None
    {
      statusLoading := true;
      notice := None;
      match reply {
        case Success(response) =>
          if response.success {
            status := Some(response.data);
          }
        case Failure(_) =>
          notice := Some(StatusFetchFailedText);
      }
      statusLoading := false;
    }

    /**
     * `handleConnect`: does nothing unless connecting is allowed; then
     * redirects to the authorization URL, or raises a notice, and always ends
     * with `connecting` false.
     */
    method HandleConnect(reply: Result<AuthStartResponse, ApiService.ApiError>) returns (notice: Option<string>)
      modifies this`connecting, this`location
      ensures !ConnectAllowed(status) ==> connecting == old(connecting) && location == old(location) && notice == None
      ensures ConnectAllowed(status) ==> !connecting
      ensures ConnectAllowed(status) && reply.Success? && reply.value.success && reply.value.authUrl != "" ==>
        location == Some(reply.value.authUrl) && notice == None
      ensures ConnectAllowed(status) && reply.Success? && !(reply.value.success && reply.value.authUrl != "") ==>
        location == old(location) && notice == Some(if reply.value.message != "" then reply.value.message else StartFailedText)
      ensures ConnectAllowed(status) && reply.Failure? ==>
        location == old(location) && notice == Some(if reply.error.message != "" then reply.error.message else StartRetryText)
    {
      notice := None;
      if ConnectAllowed(status) {
        connecting := true;
        match reply {
          case Success(response) =>
            if response.success && response.authUrl != "" {
              location := Some(response.authUrl);
            } else {
              notice := Some(if response.message != "" then response.message else StartFailedText);
            }
          case Failure(error) =>
            notice := Some(if error.message != "" then error.message else StartRetryText);
        }
        connecting := false;
      }
    }

    /** `handleDisconnect`: a successful reply clears the status before a refresh is requested. */
    method HandleDisconnect(reply: Result<DisconnectResponse, ApiService.ApiError>) returns (refresh: bool, notice: Option<string>)
      modifies this`status, this`loading
      ensures !loading
      ensures refresh <==> reply.Success? && reply.value.success
      ensures refresh ==> status == None
      ensures !refresh ==> status == old(status)
      ensures notice == if reply.Failure? then Some(if reply.error.message != "" then reply.error.message else DisconnectFailedText) else None
    {
      loading := true;
      refresh := false;
      notice := None;
      match reply {
        case Success(response) =>
          if response.success {
            status := None;
            refresh := true;
          }
        case Failure(error) =>
          notice := Some(if error.message != "" then error.message else DisconnectFailedText);
      }
      loading := false;
    }
  }
}
