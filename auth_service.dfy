/**
 * The service functions that unwrap the authentication endpoints' answers
 * (services/auth-service.ts). The HTTP exchange itself is a parameter: what
 * the axios call resolved with, or the error it threw.
 */
module AuthService {
  import opened Wrappers
  import opened AuthTypes
  import opened ApiErrors

  const RegistrationFailedMessage: string := "Registration failed"

  /** An axios response: the status line and the parsed body (`response.data`). */
  datatype HttpResponse<T> = HttpResponse(status: int, data: T)

  /** One HTTP exchange: the response axios resolved with, or what it threw. */
  type Call<T> = Result<HttpResponse<T>, Thrown>

  /**
   * login: hands back the response body untouched. The body is read as the
   * `{success, data?, error?}` envelope, the shape the session hook reads it in.
   */
  function Login(post: Call<ApiResponse<AuthResponse>>): (r: Result<ApiResponse<AuthResponse>, Thrown>)
    ensures r.Success? <==> post.Success?
    ensures post.Success? ==> r.value == post.value.data
    ensures post.Failure? ==> r.error == post.error
  {
    match post
    case Success(response) => Success(response.data)
    case Failure(e) => Failure(e)
  }

  /**
   * register: a transport error propagates; an envelope whose `success` is
   * false becomes a thrown Error carrying the envelope's error text, or the
   * default message when that text is missing or empty; any other envelope
   * is returned unchanged.
   */
  function Register(post: Call<RegisterResponse>): (r: Result<RegisterResponse, Thrown>)
    ensures post.Failure? ==> r == Failure(post.error)
    ensures post.Success? && post.value.data.success ==> r == Success(post.value.data)
    ensures post.Success? && !post.value.data.success ==>
      r.Failure? && r.error.PlainErr? &&
      var env := post.value.data;
      (env.error.Some? && env.error.value != "" ==> r.error.message == env.error.value) &&
      (env.error.None? || env.error.value == "" ==> r.error.message == RegistrationFailedMessage)
    ensures r.Success? ==> r.value.success
  {
    match post
    case Failure(e) => Failure(e)
    case Success(response) =>
      if !response.data.success then
        Failure(PlainErr(OrString(response.data.error, RegistrationFailedMessage)))
      else
        Success(response.data)
  }

  /** verifyEmail and resendOtp: the body is discarded; only success or the thrown error remains. */
  function Acknowledge<T>(post: Call<T>): (r: Result<(), Thrown>)
    ensures r.Success? <==> post.Success?
    ensures post.Failure? ==> r.error == post.error
  {
    match post
    case Success(_) => Success(())
    case Failure(e) => Failure(e)
  }

  /** getMe: hands back the body as the current user. */
  function GetMe(get: Call<User>): (r: Result<User, Thrown>)
    ensures r.Success? <==> get.Success?
    ensures get.Success? ==> r.value == get.value.data
    ensures get.Failure? ==> r.error == get.error
  {
    match get
    case Success(response) => Success(response.data)
    case Failure(e) => Failure(e)
  }

  /**
   * The body handed back by login or getMe is the same whatever the response
   * status: neither function inspects anything but the body.
   */
  lemma BodyPassThrough(s1: int, s2: int, body: ApiResponse<AuthResponse>, user: User)
    ensures Login(Success(HttpResponse(s1, body))) == Login(Success(HttpResponse(s2, body)))
    ensures GetMe(Success(HttpResponse(s1, user))) == GetMe(Success(HttpResponse(s2, user)))
  {
  }

  /**
   * A rejected registration envelope always throws a plain Error whose
   * message is non-empty: the envelope's own error text or the default.
   */
  lemma RejectedRegistrationMessage(response: HttpResponse<RegisterResponse>)
    requires !response.data.success
    ensures var r := Register(Success(response));
      r.Failure? && r.error.PlainErr? && r.error.message != ""
  {
  }
}
