/** The login and register pages. Both handlers share one shape: clear the
    error and show the spinner, call the API, and on a delivered response
    store the token and the profile and navigate home; otherwise show the
    server's message or a page-specific default. */
module AuthPages {
  import opened Types
  import Session
  import Api
  import Routes
  import Dashboard

  datatype AuthPageState = AuthPageState(
    loading: bool,
    error: string,
    storage: Session.Storage,
    navigatedTo: Option<string>)

  const LoginFailed: string := "Login failed"
  const RegistrationFailed: string := "Registration failed"
  const UnexpectedError: string := "An unexpected error occurred"

  /** The synchronous start of either handler. */
  function BeginAuth(s: AuthPageState): (s': AuthPageState)
    ensures s'.loading && s'.error == ""
    ensures s'.storage == s.storage && s'.navigatedTo == s.navigatedTo
  {
    s.(loading := true, error := "")
  }

  /** Whether the two `localStorage.setItem` calls of a delivered response
      go through; either can throw (storage full or disabled), and then the
      page's `catch` runs after whatever was already written. */
  datatype WriteFault = NoFault | TokenWriteThrows | UserWriteThrows

  /** A handler from start to `finally`; `failureText` is the page's default
      error. Storage is written only on a delivered response, navigation
      happens only when both writes go through, and then the stored session
      reads back the delivered one. A throwing write leaves what was written
      before it and shows the unexpected-error text. */
  function HandleAuth(s: AuthPageState, settled: Settled<AuthResponse>, failureText: string, fault: WriteFault): (s': AuthPageState)
    ensures !s'.loading
    ensures Delivered(settled) && fault == NoFault ==>
      && s'.error == ""
      && s'.navigatedTo == Some("/")
      && Session.GetAuthToken(s'.storage, false) == Some(settled.response.data.value.token)
      && Session.GetUser(s'.storage, false) == Some(settled.response.data.value.user)
      && Session.SameOutside(s.storage, s'.storage, {Session.TokenKey, Session.UserKey})
    ensures Delivered(settled) && fault == TokenWriteThrows ==>
      s'.storage == s.storage && s'.navigatedTo == s.navigatedTo && s'.error == UnexpectedError
    ensures Delivered(settled) && fault == UserWriteThrows ==>
      && s'.navigatedTo == s.navigatedTo
      && s'.error == UnexpectedError
      && Session.GetAuthToken(s'.storage, false) == Some(settled.response.data.value.token)
      && Session.GetUser(s'.storage, false) == Session.GetUser(s.storage, false)
      && Session.SameOutside(s.storage, s'.storage, {Session.TokenKey})
    ensures !Delivered(settled) ==> s'.storage == s.storage && s'.navigatedTo == s.navigatedTo
    ensures settled.Resolved? && !Delivered(settled) ==> s'.error == OrElse(settled.response.message, failureText)
    ensures settled.Rejected? ==> s'.error == UnexpectedError
  {
    var b := BeginAuth(s);
    match settled
    case Resolved(response) =>
      if response.success && response.data.Some? then
        var token := response.data.value.token;
        var user := response.data.value.user;
        var withToken := Session.SetAuthToken(b.storage, token);
        Session.TokenRoundTrip(b.storage, token);
        Session.WritesDoNotInterfere(b.storage, token, user);
        Session.WritesDoNotInterfere(withToken, token, user);
        Session.UserRoundTrip(withToken, user);
        match fault
        case TokenWriteThrows => b.(error := UnexpectedError, loading := false)
        case UserWriteThrows => b.(storage := withToken, error := UnexpectedError, loading := false)
        case NoFault => b.(storage := Session.SetUser(withToken, user), navigatedTo := Some("/"), loading := false)
      else
        b.(error := OrElse(response.message, failureText), loading := false)
    case Rejected =>
      b.(error := UnexpectedError, loading := false)
  }

  function HandleLogin(s: AuthPageState, settled: Settled<AuthResponse>, fault: WriteFault): (s': AuthPageState)
    ensures !s'.loading
    ensures settled.Resolved? && !Delivered(settled) && (settled.response.message.None? || settled.response.message.value == "") ==>
      s'.error == LoginFailed
    ensures !Delivered(settled) ==> s'.storage == s.storage && s'.navigatedTo == s.navigatedTo
  {
    HandleAuth(s, settled, LoginFailed, fault)
  }

  function HandleRegister(s: AuthPageState, settled: Settled<AuthResponse>, fault: WriteFault): (s': AuthPageState)
    ensures !s'.loading
    ensures settled.Resolved? && !Delivered(settled) && (settled.response.message.None? || settled.response.message.value == "") ==>
      s'.error == RegistrationFailed
    ensures !Delivered(settled) ==> s'.storage == s.storage && s'.navigatedTo == s.navigatedTo
  {
    HandleAuth(s, settled, RegistrationFailed, fault)
  }

  /** A profile write that throws after the token write leaves a half-written
      session: outside demo mode the user is then authenticated, so `/`
      renders on the next navigation although the page reported an error and
      stayed put, and the dashboard greets whatever profile was stored before. */
  lemma HalfWrittenSession(s: AuthPageState, settled: Settled<AuthResponse>)
    requires Delivered(settled) && settled.response.data.value.token != ""
    ensures var s' := HandleLogin(s, settled, UserWriteThrows);
      && s'.error == UnexpectedError
      && s'.navigatedTo == s.navigatedTo
      && Routes.Resolve("/", s'.storage, false) == Routes.Render(Routes.IndexPage)
      && Session.GetUser(s'.storage, false) == Session.GetUser(s.storage, false)
  {
  }

  /** A successful envelope without data is still a failure for the page:
      nothing is stored, no navigation, and the error text is shown. */
  lemma SuccessWithoutDataFails(s: AuthPageState, message: Option<string>)
    ensures var s' := HandleLogin(s, Resolved(ApiResponse(true, None, message)), NoFault);
      s'.storage == s.storage && s'.navigatedTo == s.navigatedTo && s'.error == OrElse(message, LoginFailed)
  {
  }

  /** Outside demo mode, a delivered non-empty token makes the session
      authenticated, so the home route then renders instead of redirecting. */
  lemma LoginThenHomeRenders(s: AuthPageState, settled: Settled<AuthResponse>)
    requires Delivered(settled) && settled.response.data.value.token != ""
    ensures Session.IsAuthenticated(HandleLogin(s, settled, NoFault).storage, false)
    ensures Routes.Resolve("/", HandleLogin(s, settled, NoFault).storage, false) == Routes.Render(Routes.IndexPage)
    ensures Routes.Resolve("/login", HandleLogin(s, settled, NoFault).storage, false) == Routes.Redirect("/")
  {
  }

  /** A live login whose server answer is an error stores nothing and shows
      the server's message, or the default when the server gave none. */
  lemma LiveLoginError(s: AuthPageState, credentials: LoginData, message: Option<string>)
    ensures var s' := HandleLogin(s, Resolved(Api.Login(false, credentials, Api.NotOk(message))), NoFault);
      s'.storage == s.storage && s'.navigatedTo == s.navigatedTo && !s'.loading &&
      s'.error == OrElse(message, Api.RequestFailed)
  {
  }

  /** A live login answered 2xx with a `null` body succeeds at the request
      level but delivers nothing: the page stores nothing and shows the
      default error. */
  lemma LiveLoginEmptyBody(s: AuthPageState, credentials: LoginData)
    ensures Api.Login(false, credentials, Api.OkEmpty).success
    ensures var s' := HandleLogin(s, Resolved(Api.Login(false, credentials, Api.OkEmpty)), NoFault);
      s'.storage == s.storage && s'.navigatedTo == s.navigatedTo && !s'.loading &&
      s'.error == LoginFailed
  {
  }

  /** In demo mode registering writes the demo token and a profile echoing
      the submitted name and email to storage (the raw entries, read as a
      non-demo reader would). The dashboard never shows that name: the same
      demo flag makes the profile reader return the demo user, so the
      greeting is `Demo User` whatever name was registered. */
  lemma DemoRegisterStoresEcho(s: AuthPageState, data: RegisterData, outcome: Api.FetchOutcome<AuthResponse>)
    ensures var s' := HandleRegister(s, Resolved(Api.Register(true, data, outcome)), NoFault);
      && s'.navigatedTo == Some("/")
      && Session.GetAuthToken(s'.storage, false) == Some("demo-token")
      && Session.GetUser(s'.storage, false) == Some(User("demo-user", data.email, data.name))
      && Dashboard.GreetingName(Session.GetUser(s'.storage, true)) == "Demo User"
      && (data.name != "Demo User" ==> Dashboard.GreetingName(Session.GetUser(s'.storage, true)) != data.name)
  {
  }
}
