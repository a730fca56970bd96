/**
 * The session state kept by the useAuth hook (hooks/use-auth.ts): the cached
 * current user under the query key ['auth', 'user'], whether that query is
 * in error, whether it has been marked stale, and the persisted bearer token.
 *
 * The query cache is read with the semantics of its library: writing data by
 * hand is a successful resolution (the data is replaced, the error and the
 * stale mark are cleared); invalidating only marks the query stale; a failed
 * fetch keeps the previous data and sets the error. Token-store writes may
 * fail; a failed write leaves the slot as it was and throws.
 */
module UseAuth {
  import opened Wrappers
  import opened AuthTypes
  import opened ApiErrors
  import AuthService

  /** The cached `user`: not loaded yet (undefined), explicitly null, or a user. */
  datatype UserSlot = NotLoaded | Null | Loaded(user: User)

  /** One snapshot of the hook's state. */
  datatype Session = Session(user: UserSlot, stale: bool, isError: bool, token: Option<string>)

  /** The hook's `isAuthenticated`: a user is cached and the user query is not in error. */
  function IsAuthenticated(s: Session): (r: bool)
    ensures r ==> s.user.Loaded?
    ensures s.isError ==> !r
    ensures s.user.Loaded? && !s.isError ==> r
  {
    s.user.Loaded? && !s.isError
  }

  /** The state when the hook mounts: nothing cached yet, the persisted token as found. */
  function Mounted(persisted: Option<string>): (s: Session)
    ensures s.user == NotLoaded && !s.isError && !s.stale
    ensures !IsAuthenticated(s) && s.token == persisted
  {
    Session(NotLoaded, false, false, persisted)
  }

  /** setQueryData on the user query. */
  function Written(s: Session, v: UserSlot): Session
  {
    s.(user := v, isError := false, stale := false)
  }

  /** invalidateQueries on the user query. */
  function Invalidated(s: Session): Session
  {
    s.(stale := true)
  }

  /** Whether a settled login result carries the `data` the hook stores. */
  predicate HasLoginData(response: Result<ApiResponse<AuthResponse>, Thrown>)
  {
    response.Success? && response.value.data.Some?
  }

  /**
   * The login mutation's onSuccess: when the result carries data, store its
   * token, then cache its user. A failed token write stops the handler before
   * the cache is touched.
   */
  function AfterLogin(s: Session, response: Result<ApiResponse<AuthResponse>, Thrown>, storeFailure: Option<Thrown>): (t: Session)
    ensures HasLoginData(response) && storeFailure.None? ==>
      var auth := response.value.data.value;
      t.token == Some(auth.token) && t.user == Loaded(auth.user) && IsAuthenticated(t)
    ensures !HasLoginData(response) || storeFailure.Some? ==> t == s
  {
    if HasLoginData(response) && storeFailure.None? then
      var auth := response.value.data.value;
      Written(s.(token := Some(auth.token)), Loaded(auth.user))
    else
      s
  }

  /**
   * How the login mutation settles: as the service call did, unless storing
   * the token threw, in which case with that error.
   */
  function LoginSettled(response: Result<ApiResponse<AuthResponse>, Thrown>, storeFailure: Option<Thrown>): (r: Result<ApiResponse<AuthResponse>, Thrown>)
    ensures r.Success? <==> response.Success? && (storeFailure.None? || !HasLoginData(response))
    ensures r.Success? ==> r == response
    ensures response.Failure? ==> r == response
    ensures HasLoginData(response) && storeFailure.Some? ==> r == Failure(storeFailure.value)
  {
    if HasLoginData(response) && storeFailure.Some? then Failure(storeFailure.value) else response
  }

  /** The verifyEmail mutation's onSuccess: only the stale mark changes. */
  function AfterVerifyEmail(s: Session, settled: Result<(), Thrown>): (t: Session)
    ensures t.user == s.user && t.isError == s.isError && t.token == s.token
    ensures t.stale == (s.stale || settled.Success?)
  {
    if settled.Success? then Invalidated(s) else s
  }

  /**
   * logout: remove the token, then cache null, then mark the query stale.
   * A failed removal throws before the cache is touched.
   */
  function AfterLogout(s: Session, storeFailure: Option<Thrown>): (t: Session)
    ensures storeFailure.None? ==> t.token.None? && t.user == Null && t.stale && !t.isError && !IsAuthenticated(t)
    ensures storeFailure.Some? ==> t == s
  {
    if storeFailure.None? then Invalidated(Written(s.(token := None), Null)) else s
  }

  /**
   * One fetch of the user query. Retries are disabled, so one failed attempt
   * settles the fetch as an error: the old data stays cached, but the hook
   * no longer counts the session as authenticated.
   */
  function AfterFetch(s: Session, result: Result<User, Thrown>): (t: Session)
    ensures t.token == s.token
    ensures result.Success? ==> t.user == Loaded(result.value) && !t.stale && IsAuthenticated(t)
    ensures result.Failure? ==> t.user == s.user && t.stale == s.stale && t.isError && !IsAuthenticated(t)
  {
    match result
    case Success(u) => Written(s, Loaded(u))
    case Failure(_) => s.(isError := true)
  }

  /** The hook's state, updated in place by its handlers. */
  class AuthSession {
    var user: UserSlot
    var stale: bool
    var isError: bool
    var token: Option<string>

    /** The current snapshot. */
    function State(): Session
      reads this
    {
      Session(user, stale, isError, token)
    }

    /** Mounting the hook with whatever token the store holds. */
    constructor (persisted: Option<string>)
      ensures State() == Mounted(persisted)
    {
      user := NotLoaded;
      stale := false;
      isError := false;
      token := persisted;
    }

    /** queryClient.setQueryData(AUTH_QUERY_KEY, v). */
    method SetQueryData(v: UserSlot)
      modifies this
      ensures State() == Written(old(State()), v)
    {
      user := v;
      isError := false;
      stale := false;
    }

    /** queryClient.invalidateQueries({ queryKey: AUTH_QUERY_KEY }). */
    method InvalidateQueries()
      modifies this
      ensures State() == Invalidated(old(State()))
    {
      stale := true;
    }

    /** setToken: stores the token unless the store fails. */
    method SetToken(t: string, storeFailure: Option<Thrown>) returns (thrown: Option<Thrown>)
      modifies this`token
      ensures thrown == storeFailure
      ensures token == if storeFailure.None? then Some(t) else old(token)
    {
      thrown := storeFailure;
      if storeFailure.None? {
        token := Some(t);
      }
    }

    /** removeToken: empties the slot unless the store fails. */
    method RemoveToken(storeFailure: Option<Thrown>) returns (thrown: Option<Thrown>)
      modifies this`token
      ensures thrown == storeFailure
      ensures token == if storeFailure.None? then None else old(token)
    {
      thrown := storeFailure;
      if storeFailure.None? {
        token := None;
      }
    }

    /** One attempt of the user query (`retry: false`), settled with `result`. */
    method ResolveFetch(result: Result<User, Thrown>)
      modifies this
      ensures State() == AfterFetch(old(State()), result)
    {
      match result {
        case Success(u) => SetQueryData(Loaded(u));
        case Failure(_) => isError := true;
      }
    }

    /** The login mutation: the service call, then its onSuccess handler. */
    method Login(post: AuthService.Call<ApiResponse<AuthResponse>>, storeFailure: Option<Thrown>)
      returns (settled: Result<ApiResponse<AuthResponse>, Thrown>)
      modifies this
      ensures State() == AfterLogin(old(State()), AuthService.Login(post), storeFailure)
      ensures settled == LoginSettled(AuthService.Login(post), storeFailure)
    {
      var response := AuthService.Login(post);
      settled := response;
      if response.Success? && response.value.data.Some? {
        var auth := response.value.data.value;
        var thrown := SetToken(auth.token, storeFailure);
        if thrown.Some? {
          settled := Failure(thrown.value);
          return;
        }
        SetQueryData(Loaded(auth.user));
      }
    }

    /** The register mutation: no handler, so the session is untouched. */
    method Register(post: AuthService.Call<RegisterResponse>) returns (settled: Result<RegisterResponse, Thrown>)
      ensures settled == AuthService.Register(post)
      ensures settled.Success? ==> settled.value.success
    {
      settled := AuthService.Register(post);
    }

    /** The verifyEmail mutation: on success, marks the user query stale. */
    method VerifyEmail(post: AuthService.Call<()>) returns (settled: Result<(), Thrown>)
      modifies this
      ensures settled == AuthService.Acknowledge(post)
      ensures State() == AfterVerifyEmail(old(State()), settled)
    {
      settled := AuthService.Acknowledge(post);
      if settled.Success? {
        InvalidateQueries();
      }
    }

    /** The resendOtp mutation: no handler. */
    method ResendOtp(post: AuthService.Call<()>) returns (settled: Result<(), Thrown>)
      ensures settled.Success? <==> post.Success?
      ensures post.Failure? ==> settled == Failure(post.error)
    {
      settled := AuthService.Acknowledge(post);
    }

    /** The forgotPassword mutation over an abstract remote call: no handler. */
    method ForgotPassword(result: Result<(), Thrown>) returns (settled: Result<(), Thrown>)
      ensures settled == result
    {
      settled := result;
    }

    /** The resetPassword mutation over an abstract remote call: no handler. */
    method ResetPassword(result: Result<(), Thrown>) returns (settled: Result<(), Thrown>)
      ensures settled == result
    {
      settled := result;
    }

    /** logout: remove the token, then cache null, then invalidate; a failed removal propagates. */
    method Logout(storeFailure: Option<Thrown>) returns (thrown: Option<Thrown>)
      modifies this
      ensures thrown == storeFailure
      ensures State() == AfterLogout(old(State()), storeFailure)
    {
      thrown := RemoveToken(storeFailure);
      if thrown.Some? {
        return;
      }
      SetQueryData(Null);
      InvalidateQueries();
    }

    /** Runs the handler an event stands for; the trace lemmas below are about this. */
    method Apply(e: Event)
      modifies this
      ensures State() == Step(old(State()), e)
    {
      match e {
        case LoginEvent(post, storeFailure) =>
          var _ := Login(post, storeFailure);
        case RegisterEvent(post) =>
          var _ := Register(post);
        case VerifyEmailEvent(post) =>
          var _ := VerifyEmail(post);
        case ResendOtpEvent(post) =>
          var _ := ResendOtp(post);
        case ForgotPasswordEvent(result) =>
          var _ := ForgotPassword(result);
        case ResetPasswordEvent(result) =>
          var _ := ResetPassword(result);
        case LogoutEvent(storeFailure) =>
          var _ := Logout(storeFailure);
        case FetchEvent(result) =>
          ResolveFetch(result);
      }
    }
  }

  /** Everything that can happen to the session, with what the outside world answered. */
  datatype Event =
    | LoginEvent(post: AuthService.Call<ApiResponse<AuthResponse>>, storeFailure: Option<Thrown>)
    | RegisterEvent(registerPost: AuthService.Call<RegisterResponse>)
    | VerifyEmailEvent(verifyPost: AuthService.Call<()>)
    | ResendOtpEvent(resendPost: AuthService.Call<()>)
    | ForgotPasswordEvent(forgotResult: Result<(), Thrown>)
    | ResetPasswordEvent(resetResult: Result<(), Thrown>)
    | LogoutEvent(logoutFailure: Option<Thrown>)
    | FetchEvent(fetchResult: Result<User, Thrown>)

  /** The effect of one event on the session (what `AuthSession.Apply` does). */
  function Step(s: Session, e: Event): Session
  {
    match e
    case LoginEvent(post, storeFailure) => AfterLogin(s, AuthService.Login(post), storeFailure)
    case RegisterEvent(_) => s
    case VerifyEmailEvent(post) => AfterVerifyEmail(s, AuthService.Acknowledge(post))
    case ResendOtpEvent(_) => s
    case ForgotPasswordEvent(_) => s
    case ResetPasswordEvent(_) => s
    case LogoutEvent(storeFailure) => AfterLogout(s, storeFailure)
    case FetchEvent(result) => AfterFetch(s, result)
  }

  /** The session after a sequence of events, applied one after the other. */
  function Run(s: Session, es: seq<Event>): Session
    decreases |es|
  {
    if es == [] then s else Run(Step(s, es[0]), es[1..])
  }

  /** Two events in a row. */
  lemma RunPair(s: Session, e1: Event, e2: Event)
    ensures Run(s, [e1, e2]) == Step(Step(s, e1), e2)
  {
    var es := [e1, e2];
    assert es[1..] == [e2];
    assert es[1..][1..] == [];
    assert Run(s, es) == Run(Step(s, e1), [e2]);
  }

  /** The events that can make the session authenticated: a stored login and a successful fetch. */
  predicate Authenticates(e: Event)
  {
    || (e.LoginEvent? && HasLoginData(AuthService.Login(e.post)) && e.storeFailure.None?)
    || (e.FetchEvent? && e.fetchResult.Success?)
  }

  /** The events that touch the token slot. */
  predicate TouchesToken(e: Event)
  {
    e.LoginEvent? || e.LogoutEvent?
  }

  /** The mutations without a handler. */
  predicate WithoutHandler(e: Event)
  {
    e.RegisterEvent? || e.ResendOtpEvent? || e.ForgotPasswordEvent? || e.ResetPasswordEvent?
  }

  /** No other event turns an unauthenticated session into an authenticated one. */
  lemma {:induction false} OnlyLoginOrFetchAuthenticates(s: Session, es: seq<Event>)
    requires !IsAuthenticated(s)
    requires forall i :: 0 <= i < |es| ==> !Authenticates(es[i])
    ensures !IsAuthenticated(Run(s, es))
    decreases |es|
  {
    if es != [] {
      var e := es[0];
      assert !Authenticates(e);
      var t := Step(s, e);
      assert !IsAuthenticated(t) by {
        match e {
          case LoginEvent(post, storeFailure) =>
          case RegisterEvent(_) =>
          case VerifyEmailEvent(post) =>
          case ResendOtpEvent(_) =>
          case ForgotPasswordEvent(_) =>
          case ResetPasswordEvent(_) =>
          case LogoutEvent(storeFailure) =>
          case FetchEvent(result) =>
        }
      }
      assert forall i :: 0 <= i < |es[1..]| ==> es[1..][i] == es[i + 1];
      OnlyLoginOrFetchAuthenticates(t, es[1..]);
    }
  }

  /** Only login and logout write the token slot. */
  lemma {:induction false} TokenOnlyByLoginOrLogout(s: Session, es: seq<Event>)
    requires forall i :: 0 <= i < |es| ==> !TouchesToken(es[i])
    ensures Run(s, es).token == s.token
    decreases |es|
  {
    if es != [] {
      assert !TouchesToken(es[0]);
      assert forall i :: 0 <= i < |es[1..]| ==> es[1..][i] == es[i + 1];
      TokenOnlyByLoginOrLogout(Step(s, es[0]), es[1..]);
    }
  }

  /**
   * register, resendOtp, forgotPassword and resetPassword leave the session
   * exactly as it was, in any number and whatever they settle with.
   */
  lemma {:induction false} HandlerlessMutationsChangeNothing(s: Session, es: seq<Event>)
    requires forall i :: 0 <= i < |es| ==> WithoutHandler(es[i])
    ensures Run(s, es) == s
    decreases |es|
  {
    if es != [] {
      assert WithoutHandler(es[0]);
      assert forall i :: 0 <= i < |es[1..]| ==> es[1..][i] == es[i + 1];
      HandlerlessMutationsChangeNothing(Step(s, es[0]), es[1..]);
    }
  }

  /**
   * A completed logout signs the session out, and it stays signed out until
   * a login is stored or a fetch succeeds.
   */
  lemma LogoutIsSticky(s: Session, es: seq<Event>)
    requires forall i :: 0 <= i < |es| ==> !Authenticates(es[i])
    ensures !IsAuthenticated(Run(s, [LogoutEvent(None)] + es))
  {
    var all := [LogoutEvent(None)] + es;
    assert all[0] == LogoutEvent(None) && all[1..] == es;
    OnlyLoginOrFetchAuthenticates(AfterLogout(s, None), es);
  }

  /**
   * After verifyEmail succeeds the query is stale; the next fetch replaces the
   * cached user with the fresh one (now verified) and the session is authenticated.
   */
  lemma VerifyThenRefetch(s: Session, ack: AuthService.HttpResponse<()>, refreshed: User)
    ensures var verified := Step(s, VerifyEmailEvent(Success(ack)));
      verified.stale && verified.user == s.user && verified.token == s.token
    ensures var t := Run(s, [VerifyEmailEvent(Success(ack)), FetchEvent(Success(refreshed))]);
      t.user == Loaded(refreshed) && !t.stale && IsAuthenticated(t) && t.token == s.token
  {
    RunPair(s, VerifyEmailEvent(Success(ack)), FetchEvent(Success(refreshed)));
  }

  /**
   * A stored login followed by a completed logout leaves no token and no
   * cached user.
   */
  lemma LoginThenLogout(s: Session, post: AuthService.Call<ApiResponse<AuthResponse>>)
    requires HasLoginData(AuthService.Login(post))
    ensures var t := Run(s, [LoginEvent(post, None), LogoutEvent(None)]);
      t.token.None? && t.user == Null && !IsAuthenticated(t)
  {
    RunPair(s, LoginEvent(post, None), LogoutEvent(None));
  }

  /** A signed-in session always has a token stored. */
  predicate TokenBacked(s: Session)
  {
    IsAuthenticated(s) ==> s.token.Some?
  }

  /** The user fetch can only succeed when a token is stored for the request to carry. */
  predicate FetchNeedsToken(s: Session, e: Event)
  {
    e.FetchEvent? && e.fetchResult.Success? ==> s.token.Some?
  }

  /** On mount the session is not signed in, so the invariant holds. */
  lemma MountedTokenBacked(persisted: Option<string>)
    ensures TokenBacked(Mounted(persisted))
  {
  }

  /**
   * One event keeps the invariant: login awaits the token write before it
   * caches the user, and logout removes the token before it caches null.
   */
  lemma StepKeepsTokenBacked(s: Session, e: Event)
    requires TokenBacked(s) && FetchNeedsToken(s, e)
    ensures TokenBacked(Step(s, e))
  {
  }

  /**
   * Over any sequence of events in which every successful fetch happens with
   * a token stored, a signed-in session always has a token.
   */
  lemma {:induction false} RunKeepsTokenBacked(s: Session, es: seq<Event>)
    requires TokenBacked(s)
    requires forall i :: 0 <= i < |es| ==> FetchNeedsToken(Run(s, es[..i]), es[i])
    ensures TokenBacked(Run(s, es))
    decreases |es|
  {
    if es != [] {
      assert es[..0] == [];
      StepKeepsTokenBacked(s, es[0]);
      var t := Step(s, es[0]);
      var rest := es[1..];
      forall i | 0 <= i < |rest|
        ensures FetchNeedsToken(Run(t, rest[..i]), rest[i])
      {
        var pre := es[..i + 1];
        assert pre[0] == es[0] && pre[1..] == rest[..i];
        assert Run(s, pre) == Run(t, rest[..i]);
        assert FetchNeedsToken(Run(s, es[..i + 1]), es[i + 1]);
      }
      RunKeepsTokenBacked(t, rest);
    }
  }
}
