/**
 * The REST client: the `hrms_token` entry of local storage, the request
 * interceptor that adds the bearer header, the response interceptor that
 * ends the session on a 401, the error normaliser, and the token effects of
 * sign-up, sign-in and logout. The HTTP exchange itself is an input: each
 * call is given the reply the server (or the network) produced.
 */
module ApiService {
  import opened Wrappers
  import AuthSlice
  import Strings

  datatype FieldError = FieldError(msg: string, param: string, location: string)

  /** An error envelope as the server sends it (verbatim), or as the normaliser builds it. */
  datatype ApiError = ApiError(success: bool, message: string, errors: Option<seq<FieldError>>)

  /** A non-2xx response: its status and its body, if it has one. */
  datatype HttpResponse = HttpResponse(status: int, body: Option<ApiError>)

  /** A rejected call: the response if one arrived, and whether a request went out at all. */
  datatype HttpFailure = HttpFailure(response: Option<HttpResponse>, requestSent: bool)

  /** How a call settled: a 2xx body, or a failure. */
  datatype Reply<T> = Ok(body: T) | Rejected(failure: HttpFailure)

  /** The user record of `auth.types.ts`. */
  datatype ApiUser = ApiUser(
    id: string,
    username: string,
    email: string,
    role: AuthSlice.UserRole,
    isActive: bool,
    lastLogin: Option<string>,
    createdAt: string,
    updatedAt: Option<string>)

  datatype AuthData = AuthData(user: ApiUser, token: string)

  datatype AuthResponse = AuthResponse(success: bool, message: string, data: AuthData)

  datatype LogoutResponse = LogoutResponse(success: bool, message: string)

  const NetworkMessage: string := "Network error. Please check your connection and try again."
  const UnexpectedMessage: string := "An unexpected error occurred. Please try again."
  const LoginPath: string := "/login"

  /** `handleError`: the server's body verbatim; else the fixed network message; else the fixed unexpected-error message. */
  function HandleError(f: HttpFailure): (r: ApiError)
    ensures f.response.Some? && f.response.value.body.Some? ==> r == f.response.value.body.value
    ensures !(f.response.Some? && f.response.value.body.Some?) ==>
      !r.success && r.errors == None && r.message == (if f.requestSent then NetworkMessage else UnexpectedMessage)
  {
    if f.response.Some? && f.response.value.body.Some? then f.response.value.body.value
    else if f.requestSent then ApiError(false, NetworkMessage, None)
    else ApiError(false, UnexpectedMessage, None)
  }

  /** A failure that the response interceptor treats as an expired session. */
  predicate Unauthorized(f: HttpFailure) {
    f.response.Some? && f.response.value.status == 401
  }

  predicate RepliedUnauthorized<T>(reply: Reply<T>) {
    reply.Rejected? && Unauthorized(reply.failure)
  }

  /** `getJobs(status)`: the query parameters sent, `{ status }` only for a non-empty filter. */
  function JobsQuery(status: Option<string>): (q: map<string, string>)
    ensures "status" in q <==> status.Some? && status.value != ""
    ensures "status" in q ==> q["status"] == status.value
    ensures q.Keys <= {"status"}
  {
    if status.Some? && status.value != "" then map["status" := status.value] else map[]
  }

  class ApiClient {
    /** `localStorage['hrms_token']`. */
    var storage: Option<string>
    /** The last page `window.location.href` was sent to, if any. */
    var redirect: Option<string>

    constructor (saved: Option<string>)
      ensures storage == saved && redirect == None
    {
      storage := saved;
      redirect := None;
    }

    /** `getToken()`: a missing or empty entry reads as no token. */
    function GetToken(): (t: Option<string>)
      reads this
      ensures t.None? <==> storage.None? || storage == Some("")
      ensures t.Some? ==> t == storage
    {
      Strings.Truthy(storage)
    }

    /** The `Authorization` header the request interceptor adds: present exactly when a token is stored. */
    function AuthorizationHeader(): (h: Option<string>)
      reads this
      ensures h.Some? <==> GetToken().Some?
      ensures h.Some? ==> h.value == "Bearer " + GetToken().value
    {
      if GetToken().Some? then Some("Bearer " + GetToken().value) else None
    }

    /** `isTokenValid()`: no token or an undecodable one is invalid; otherwise `exp > Date.now() / 1000`. */
    function IsTokenValid(decodeExp: string -> Option<int>, nowMs: int): (valid: bool)
      reads this
      ensures valid <==> GetToken().Some? && decodeExp(GetToken().value).Some? && decodeExp(GetToken().value).value * 1000 > nowMs
    {
      match GetToken()
      case None => false
      case Some(t) =>
        match decodeExp(t)
        case None => false
        case Some(exp) => exp * 1000 > nowMs
    }

    method SetToken(token: string)
      modifies this`storage
      ensures storage == Some(token)
    {
      storage := Some(token);
    }

    method ClearToken()
      modifies this`storage
      ensures storage == None
    {
      storage := None;
    }

    /** The response interceptor's error branch: a 401 clears the token and sends the page to the login route. */
    method OnRejected(f: HttpFailure)
      modifies this
      ensures Unauthorized(f) ==> storage == None && redirect == Some(LoginPath)
      ensures !Unauthorized(f) ==> storage == old(storage) && redirect == old(redirect)
    {
      if f.response.Some? && f.response.value.status == 401 {
        ClearToken();
        redirect := Some(LoginPath);
      }
    }

    /**
     * One call through the client: the header the request carried, and the
     * body or the normalised error. Every pass-through endpoint
     * (profile, verify, health, interviewers, LinkedIn, job CRUD, stats) is this.
     */
    method Call<T>(reply: Reply<T>) returns (header: Option<string>, r: Result<T, ApiError>)
      modifies this
      ensures header == old(AuthorizationHeader())
      ensures reply.Ok? ==> r == Success(reply.body) && storage == old(storage) && redirect == old(redirect)
      ensures reply.Rejected? ==> r == Failure(HandleError(reply.failure))
      ensures RepliedUnauthorized(reply) ==> storage == None && redirect == Some(LoginPath)
      ensures reply.Rejected? && !Unauthorized(reply.failure) ==> storage == old(storage) && redirect == old(redirect)
    {
      header := AuthorizationHeader();
      match reply
      case Ok(body) =>
        r := Success(body);
      case Rejected(f) =>
        OnRejected(f);
        r := Failure(HandleError(f));
    }

    /** The shared body of `signUp` and `signIn`: the token is stored only from a successful reply that carries one. */
    method Authenticate(reply: Reply<AuthResponse>) returns (r: Result<AuthResponse, ApiError>)
      modifies this
      ensures reply.Ok? && reply.body.success && reply.body.data.token != "" ==> storage == Some(reply.body.data.token)
      ensures reply.Ok? && !(reply.body.success && reply.body.data.token != "") ==> storage == old(storage)
      ensures RepliedUnauthorized(reply) ==> storage == None && redirect == Some(LoginPath)
      ensures reply.Rejected? && !Unauthorized(reply.failure) ==> storage == old(storage)
      ensures reply.Ok? ==> r == Success(reply.body) && redirect == old(redirect)
      ensures reply.Rejected? ==> r == Failure(HandleError(reply.failure))
    {
      var header;
      header, r := Call(reply);
      if r.Success? && r.value.success && r.value.data.token != "" {
        SetToken(r.value.data.token);
      }
    }

    method SignUp(reply: Reply<AuthResponse>) returns (r: Result<AuthResponse, ApiError>)
      modifies this
      ensures reply.Ok? && reply.body.success && reply.body.data.token != "" ==> storage == Some(reply.body.data.token)
      ensures reply.Ok? && !(reply.body.success && reply.body.data.token != "") ==> storage == old(storage)
      ensures RepliedUnauthorized(reply) ==> storage == None && redirect == Some(LoginPath)
      ensures reply.Rejected? && !Unauthorized(reply.failure) ==> storage == old(storage)
      ensures reply.Ok? ==> r == Success(reply.body) && redirect == old(redirect)
      ensures reply.Rejected? ==> r == Failure(HandleError(reply.failure))
    {
      r := Authenticate(reply);
    }

    method SignIn(reply: Reply<AuthResponse>) returns (r: Result<AuthResponse, ApiError>)
      modifies this
      ensures reply.Ok? && reply.body.success && reply.body.data.token != "" ==> storage == Some(reply.body.data.token)
      ensures reply.Ok? && !(reply.body.success && reply.body.data.token != "") ==> storage == old(storage)
      ensures RepliedUnauthorized(reply) ==> storage == None && redirect == Some(LoginPath)
      ensures reply.Rejected? && !Unauthorized(reply.failure) ==> storage == old(storage)
      ensures reply.Ok? ==> r == Success(reply.body) && redirect == old(redirect)
      ensures reply.Rejected? ==> r == Failure(HandleError(reply.failure))
    {
      r := Authenticate(reply);
    }

    /** `logout()`: the stored token is cleared whether the remote call succeeds or fails. */
    method Logout(reply: Reply<LogoutResponse>) returns (r: Result<LogoutResponse, ApiError>)
      modifies this
      ensures storage == None
      ensures reply.Ok? ==> r == Success(reply.body)
      ensures reply.Rejected? ==> r == Failure(HandleError(reply.failure))
      ensures RepliedUnauthorized(reply) ==> redirect == Some(LoginPath)
      ensures !RepliedUnauthorized(reply) ==> redirect == old(redirect)
    {
      var header;
      header, r := Call(reply);
      ClearToken();
    }
  }
}
